/** Concrete runs of the strategy over a short one-minute price series
    [10, 10, 10, 10, 12, 14], the n-th bar seeing the first n prices. */
module Scenarios {
  import opened Averages
  import opened SimpleMovingAverage

  const Series: seq<real> := [10.0, 10.0, 10.0, 10.0, 12.0, 14.0]

  /** The n-th bar (1-based): no open orders, tradable, flat until the order placed on
      the fifth bar has filled. */
  function ScenarioBar(n: nat): (b: Bar)
    requires 1 <= n <= |Series|
    ensures b.prices == Series[..n] && b.price == Series[n - 1]
  {
    Bar(Series[..n], Series[n - 1], 1000.0, 0, true, if n <= 5 then 0.0 else 1.0)
  }

  function ScenarioBars(): (bars: seq<Bar>)
    ensures |bars| == |Series|
  {
    [ScenarioBar(1), ScenarioBar(2), ScenarioBar(3), ScenarioBar(4), ScenarioBar(5), ScenarioBar(6)]
  }

  /** One more bar in front of a run: the first step, then the rest. */
  lemma RunCons(s: StrategyState, cfg: Config, asset: Asset, bars: seq<Bar>)
    requires bars != [] && ValidState(s) && BarOk(s, cfg, bars[0])
    requires RunOk(Step(s, cfg, asset, bars[0]).0, cfg, asset, bars[1..])
    ensures RunOk(s, cfg, asset, bars)
    ensures Run(s, cfg, asset, bars) ==
              (Run(Step(s, cfg, asset, bars[0]).0, cfg, asset, bars[1..]).0,
               [Step(s, cfg, asset, bars[0]).1] + Run(Step(s, cfg, asset, bars[0]).0, cfg, asset, bars[1..]).1)
  {
  }

  /** With `short_window` = 4 and `long_window` = 2 under the configuration keys, the
      swap makes the averages run over 2 and 4 bars: three warm-up bars are skipped, the
      fourth sees equal averages, the fifth (11 over 10.5) buys, and the sixth, already
      long, does nothing. */
  lemma SwappedKeysScenario(asset: Asset)
    ensures var cfg := Config(4, 2);
            var s0 := StrategyState(0, None);
            RunOk(s0, cfg, asset, ScenarioBars()) &&
            Run(s0, cfg, asset, ScenarioBars()).1[..3] == [Skipped, Skipped, Skipped] &&
            Run(s0, cfg, asset, ScenarioBars()).1[3].Placed() == None &&
            Run(s0, cfg, asset, ScenarioBars()).1[4].Placed() == Some(OrderTargetPercent(asset, 1.0)) &&
            Run(s0, cfg, asset, ScenarioBars()).1[5].Placed() == None &&
            Run(s0, cfg, asset, ScenarioBars()).0.basePrice == Some(10.0)
  {
    var cfg := Config(4, 2);
    var bars := ScenarioBars();
    var s0 := StrategyState(0, None);
    var (s1, o1) := Step(s0, cfg, asset, bars[0]);
    var (s2, o2) := Step(s1, cfg, asset, bars[1]);
    var (s3, o3) := Step(s2, cfg, asset, bars[2]);
    assert s3 == s0.(i := 3);
    assert Mean([10.0, 10.0]) == 10.0;
    assert Mean([10.0, 10.0, 10.0, 10.0]) == 10.0;
    assert Trailing(Series[..4], 2) == [10.0, 10.0];
    assert Trailing(Series[..4], 4) == [10.0, 10.0, 10.0, 10.0];
    var (s4, o4) := Step(s3, cfg, asset, bars[3]);
    assert o4.Placed() == None;
    assert s4 == StrategyState(4, Some(10.0));
    assert Mean([10.0, 12.0]) == 11.0;
    assert Mean([10.0, 10.0, 10.0, 12.0]) == 10.5;
    assert Trailing(Series[..5], 2) == [10.0, 12.0];
    assert Trailing(Series[..5], 4) == [10.0, 10.0, 10.0, 12.0];
    var (s5, o5) := Step(s4, cfg, asset, bars[4]);
    assert o5.Placed() == Some(OrderTargetPercent(asset, 1.0));
    assert Mean([12.0, 14.0]) == 13.0;
    assert Mean([10.0, 10.0, 12.0, 14.0]) == 11.5;
    assert Trailing(Series[..6], 2) == [12.0, 14.0];
    assert Trailing(Series[..6], 4) == [10.0, 10.0, 12.0, 14.0];
    var (s6, o6) := Step(s5, cfg, asset, bars[5]);
    assert o6.Placed() == None;
    RunCons(s5, cfg, asset, bars[5..]);
    RunCons(s4, cfg, asset, bars[4..]);
    RunCons(s3, cfg, asset, bars[3..]);
    RunCons(s2, cfg, asset, bars[2..]);
    RunCons(s1, cfg, asset, bars[1..]);
    RunCons(s0, cfg, asset, bars);
  }

  /** With the keys as their names suggest (`short_window` = 2, `long_window` = 4) the
      warm-up ends on the second bar, whose averages need four bars of history while
      only two exist. */
  lemma NamedKeysEndWarmupEarly()
    ensures !WarmingUp(2, Config(2, 4))
    ensures !BarOk(StrategyState(1, None), Config(2, 4), ScenarioBar(2))
    ensures LocalShort(Config(2, 4)) == 4 && LocalLong(Config(2, 4)) == 2
  {
  }
}
