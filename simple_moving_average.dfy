/** The dual moving-average crossover strategy: per-run context set up by `initialize`
    and the per-bar decision routine `handle_data`.

    The host engine's calls (`symbol`, `data.history`, `data.current`, `data.can_trade`,
    `context.portfolio`, `context.blotter`) become inputs gathered in a `Bar`; its two
    effects (`record` and `order_target_percent`) become the returned `Outcome`. */
module SimpleMovingAverage {
  import opened Averages

  datatype Option<T> = None | Some(value: T)

  /** The instrument resolved from the configured pair; opaque to the strategy. */
  datatype Asset = Asset(symbol: string)

  type Window = n: int | n >= 1 witness 1

  /** The configuration values under the keys `short_window` and `long_window`. */
  datatype Config = Config(shortWindow: Window, longWindow: Window)

  /** What the host exposes for one bar. `prices` is the one-minute price history of
      the asset up to and including this bar, most recent last. */
  datatype Bar = Bar(
    prices: seq<real>,
    price: real,
    cash: real,
    openOrders: nat,
    canTrade: bool,
    posAmount: real)

  /** The values handed to `record`. */
  datatype Snapshot = Snapshot(price: real, cash: real, priceChange: real, shortMavg: real, longMavg: real)

  /** An `order_target_percent` call: 1 means fully long, 0 means flat. */
  datatype Order = OrderTargetPercent(asset: Asset, target: real)

  /** What one call of `handle_data` does: return during warm-up, or record a snapshot
      and then place at most one order. */
  datatype Outcome = Skipped | Recorded(snapshot: Snapshot, order: Option<Order>)
  {
    function Placed(): Option<Order>
    {
      if Recorded? then order else None
    }
  }

  /** The fields of the context that `handle_data` updates. */
  datatype StrategyState = StrategyState(i: nat, basePrice: Option<real>)

  /** The anchor divides `price_change`, so once set it is non-zero. */
  predicate ValidState(s: StrategyState)
  {
    s.basePrice.Some? ==> s.basePrice.value != 0.0
  }

  /** The swap in the source: the local short window reads the `long_window` key, so
      with the keys set as their names suggest the "short" average runs over more bars. */
  function LocalShort(cfg: Config): (w: Window)
    ensures w == cfg.longWindow
    ensures cfg.shortWindow < cfg.longWindow ==> w > LocalLong(cfg)
  {
    cfg.longWindow
  }

  /** ... and the local long window, which also bounds the warm-up, reads `short_window`. */
  function LocalLong(cfg: Config): (w: Window)
    ensures w == cfg.shortWindow
  {
    cfg.shortWindow
  }

  /** Whether the bar that brings the counter to `i` is still inside the warm-up: the
      test reads the local long window, so it is bounded by the configured `short_window`. */
  predicate WarmingUp(i: int, cfg: Config)
    ensures WarmingUp(i, cfg) <==> i < cfg.shortWindow
  {
    i < LocalLong(cfg)
  }

  /** What the host must provide past the warm-up: history for both windows, and a
      non-zero price when it becomes the anchor. */
  predicate BarOk(s: StrategyState, cfg: Config, bar: Bar)
  {
    WarmingUp(s.i + 1, cfg) ||
    (LocalShort(cfg) <= |bar.prices| && LocalLong(cfg) <= |bar.prices| &&
     (s.basePrice.None? ==> bar.price != 0.0))
  }

  /** Relative change of `price` against the anchor. */
  function PriceChange(price: real, basePrice: real): (r: real)
    requires basePrice != 0.0
    ensures price == basePrice * (1.0 + r)
    ensures r == 0.0 <==> price == basePrice
  {
    (price - basePrice) / basePrice
  }

  lemma PriceChangeSign(price: real, basePrice: real)
    requires basePrice > 0.0
    ensures PriceChange(price, basePrice) > 0.0 <==> price > basePrice
    ensures PriceChange(price, basePrice) < 0.0 <==> price < basePrice
  {
  }

  /** The trading rule: the target percent to order, if any. */
  function Crossover(shortMavg: real, longMavg: real, posAmount: real): (target: Option<real>)
    ensures target == Some(1.0) <==> shortMavg > longMavg && posAmount == 0.0
    ensures target == Some(0.0) <==> shortMavg < longMavg && posAmount > 0.0
    ensures target.Some? ==> target.value == 0.0 || target.value == 1.0
  {
    if shortMavg > longMavg && posAmount == 0.0 then Some(1.0)
    else if shortMavg < longMavg && posAmount > 0.0 then Some(0.0)
    else None
  }

  /** An order only ever moves the position towards the side the averages point to:
      never a second entry while long, never an exit while flat, nothing on equal averages. */
  lemma CrossoverNoFlipFlop(shortMavg: real, longMavg: real, posAmount: real)
    ensures shortMavg == longMavg ==> Crossover(shortMavg, longMavg, posAmount) == None
    ensures posAmount > 0.0 ==> Crossover(shortMavg, longMavg, posAmount) != Some(1.0)
    ensures posAmount <= 0.0 ==> Crossover(shortMavg, longMavg, posAmount) != Some(0.0)
    ensures Crossover(shortMavg, longMavg, posAmount) == Some(1.0) ==> shortMavg > longMavg
    ensures Crossover(shortMavg, longMavg, posAmount) == Some(0.0) ==> shortMavg < longMavg
  {
  }

  function AsOrder(asset: Asset, target: Option<real>): Option<Order>
  {
    if target.Some? then Some(OrderTargetPercent(asset, target.value)) else None
  }

  /** One call of `handle_data`, as a function of the context fields before the call. */
  function Step(s: StrategyState, cfg: Config, asset: Asset, bar: Bar): (r: (StrategyState, Outcome))
    requires ValidState(s) && BarOk(s, cfg, bar)
    ensures ValidState(r.0)
    ensures r.0.i == s.i + 1
    ensures r.1.Skipped? <==> s.i + 1 < cfg.shortWindow
    ensures r.1.Skipped? ==> r.0.basePrice == s.basePrice
    ensures s.basePrice.Some? ==> r.0.basePrice == s.basePrice
    ensures r.1.Recorded? && s.basePrice.None? ==>
              r.0.basePrice == Some(bar.price) && r.1.snapshot.priceChange == 0.0
    ensures r.1.Recorded? ==>
              r.0.basePrice.Some? &&
              r.1.snapshot.price == bar.price && r.1.snapshot.cash == bar.cash &&
              r.1.snapshot.price == r.0.basePrice.value * (1.0 + r.1.snapshot.priceChange) &&
              r.1.snapshot.shortMavg == Mean(Trailing(bar.prices, cfg.longWindow)) &&
              r.1.snapshot.longMavg == Mean(Trailing(bar.prices, cfg.shortWindow))
    ensures bar.openOrders > 0 || !bar.canTrade ==> r.1.Placed() == None
    ensures r.1.Recorded? && bar.openOrders == 0 && bar.canTrade ==>
              var sn := r.1.snapshot;
              (r.1.order == Some(OrderTargetPercent(asset, 1.0)) <==>
                 sn.shortMavg > sn.longMavg && bar.posAmount == 0.0) &&
              (r.1.order == Some(OrderTargetPercent(asset, 0.0)) <==>
                 sn.shortMavg < sn.longMavg && bar.posAmount > 0.0)
    ensures r.1.Placed().Some? ==>
              r.1.Placed().value.asset == asset &&
              (r.1.Placed().value.target == 0.0 || r.1.Placed().value.target == 1.0)
  {
    var shortWindow := LocalShort(cfg);
    var longWindow := LocalLong(cfg);
    var i := s.i + 1;
    if WarmingUp(i, cfg) then (StrategyState(i, s.basePrice), Skipped)
    else
      var shortMavg := Mean(Trailing(bar.prices, shortWindow));
      var longMavg := Mean(Trailing(bar.prices, longWindow));
      var basePrice := if s.basePrice.None? then bar.price else s.basePrice.value;
      var snapshot := Snapshot(bar.price, bar.cash, PriceChange(bar.price, basePrice), shortMavg, longMavg);
      var order :=
        if bar.openOrders > 0 then None
        else if !bar.canTrade then None
        else AsOrder(asset, Crossover(shortMavg, longMavg, bar.posAmount));
      (StrategyState(i, Some(basePrice)), Recorded(snapshot, order))
  }

  /** The host's precondition for a whole run of bars: every bar is acceptable in the
      state the previous bars leave behind. */
  predicate RunOk(s: StrategyState, cfg: Config, asset: Asset, bars: seq<Bar>)
    decreases |bars|
  {
    bars == [] ||
    (ValidState(s) && BarOk(s, cfg, bars[0]) &&
     RunOk(Step(s, cfg, asset, bars[0]).0, cfg, asset, bars[1..]))
  }

  /** Successive calls of `handle_data` on `bars`: the final context and every outcome. */
  function Run(s: StrategyState, cfg: Config, asset: Asset, bars: seq<Bar>): (r: (StrategyState, seq<Outcome>))
    requires ValidState(s) && RunOk(s, cfg, asset, bars)
    ensures ValidState(r.0)
    ensures r.0.i == s.i + |bars|
    ensures |r.1| == |bars|
    ensures s.basePrice.Some? ==> r.0.basePrice == s.basePrice
    ensures forall k :: 0 <= k < |bars| && (bars[k].openOrders > 0 || !bars[k].canTrade) ==>
              r.1[k].Placed() == None
    ensures forall k :: 0 <= k < |bars| && r.1[k].Recorded? ==>
              r.1[k].snapshot.price == bars[k].price && r.1[k].snapshot.cash == bars[k].cash
    decreases |bars|
  {
    if bars == [] then (s, [])
    else
      var (s1, o) := Step(s, cfg, asset, bars[0]);
      var (sn, os) := Run(s1, cfg, asset, bars[1..]);
      (sn, [o] + os)
  }

  /** Over a run, the warm-up bars are skipped without touching the anchor, the anchor
      is the price of the first bar past the warm-up, and it never moves afterwards. */
  lemma {:induction false} RunAnchor(s: StrategyState, cfg: Config, asset: Asset, bars: seq<Bar>, k: nat)
    requires ValidState(s) && RunOk(s, cfg, asset, bars)
    requires s.basePrice.None?
    requires k < |bars|
    requires s.i + k + 1 == cfg.shortWindow || (k == 0 && s.i + 1 >= cfg.shortWindow)
    ensures forall j :: 0 <= j < k ==> Run(s, cfg, asset, bars).1[j] == Skipped
    ensures Run(s, cfg, asset, bars).1[k].Recorded?
    ensures Run(s, cfg, asset, bars).1[k].snapshot.priceChange == 0.0
    ensures Run(s, cfg, asset, bars).0.basePrice == Some(bars[k].price)
    decreases |bars|
  {
    var (s1, o) := Step(s, cfg, asset, bars[0]);
    var rest := Run(s1, cfg, asset, bars[1..]);
    assert Run(s, cfg, asset, bars) == (rest.0, [o] + rest.1);
    if k == 0 {
      assert o.Recorded? && s1.basePrice == Some(bars[0].price);
    } else {
      assert o == Skipped && s1.basePrice.None?;
      RunAnchor(s1, cfg, asset, bars[1..], k - 1);
    }
  }

  /** Bars that all fall inside the warm-up are all skipped and leave the anchor unset. */
  lemma {:induction false} RunWarmup(s: StrategyState, cfg: Config, asset: Asset, bars: seq<Bar>)
    requires ValidState(s) && RunOk(s, cfg, asset, bars)
    requires s.i + |bars| < cfg.shortWindow
    ensures forall j :: 0 <= j < |bars| ==> Run(s, cfg, asset, bars).1[j] == Skipped
    ensures Run(s, cfg, asset, bars).0.basePrice == s.basePrice
    decreases |bars|
  {
    if bars != [] {
      var (s1, o) := Step(s, cfg, asset, bars[0]);
      RunWarmup(s1, cfg, asset, bars[1..]);
    }
  }

  /** The strategy context: the counter `i`, the asset and the one-time anchor. */
  class Context {
    var i: nat
    var asset: Asset
    var basePrice: Option<real>

    function State(): StrategyState
      reads this
    {
      StrategyState(i, basePrice)
    }

    /** `initialize`: the counter starts at 0 and the anchor is unset. */
    constructor Initialize(asset: Asset)
      ensures i == 0 && this.asset == asset && basePrice == None
      ensures ValidState(State())
    {
      i := 0;
      this.asset := asset;
      basePrice := None;
    }

    /** `handle_data`: advance the counter, return during the warm-up, compute the two
        averages, anchor the base price once, record, check the two guards, and apply
        the crossover rule. */
    method HandleData(cfg: Config, bar: Bar) returns (outcome: Outcome)
      requires ValidState(State()) && BarOk(State(), cfg, bar)
      modifies this
      ensures (State(), outcome) == Step(old(State()), cfg, asset, bar)
      ensures i == old(i) + 1 && asset == old(asset)
      ensures outcome.Skipped? <==> i < cfg.shortWindow
      ensures old(basePrice).Some? || outcome.Skipped? ==> basePrice == old(basePrice)
      ensures ValidState(State())
    {
      var shortWindow := cfg.longWindow;
      var longWindow := cfg.shortWindow;

      i := i + 1;
      if i < longWindow {
        return Skipped;
      }

      var shortMavg := Mean(Trailing(bar.prices, shortWindow));
      var longMavg := Mean(Trailing(bar.prices, longWindow));
      var price := bar.price;

      if basePrice.None? {
        basePrice := Some(price);
      }
      var priceChange := PriceChange(price, basePrice.value);

      var snapshot := Snapshot(price, bar.cash, priceChange, shortMavg, longMavg);

      if bar.openOrders > 0 {
        return Recorded(snapshot, None);
      }
      if !bar.canTrade {
        return Recorded(snapshot, None);
      }

      var posAmount := bar.posAmount;
      outcome := Recorded(snapshot, AsOrder(asset, Crossover(shortMavg, longMavg, posAmount)));
    }
  }
}
