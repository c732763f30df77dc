# Dual moving-average crossover strategy (KryptoBot), modelled in Dafny

KryptoBot's `SimpleMovingAverage` strategy is a pair of callbacks that a backtesting
or live-trading engine (Catalyst) drives once per one-minute bar:

- `initialize` sets up the strategy context. The bar counter `i` starts at 0. The
  asset is resolved from the configured pair. The anchor price `base_price` starts unset.
- `handle_data` runs once per bar and works in this order:
  1. It advances the counter.
  2. It skips a warm-up period.
  3. It computes a short and a long moving average over trailing price windows.
  4. It anchors `base_price` to the first active bar's price.
  5. It derives `price_change`.
  6. It records a snapshot `{price, cash, price_change, short_mavg, long_mavg}`.
  7. It gives up if orders are still open or the asset cannot be traded.
  8. Otherwise it applies the crossover rule. The rule goes fully long (target 1) on
     `short_mavg > long_mavg` when flat, and fully flat (target 0) on
     `short_mavg < long_mavg` when long.

The project has three modules:

- `Averages` (`averages.dfy`) holds the trailing window that the host's history call
  returns, the arithmetic mean, and the properties of the mean.
- `SimpleMovingAverage` (`simple_moving_average.dfy`) holds the following:
  - the configuration, bar inputs, snapshot, order and outcome datatypes;
  - the pure pieces `PriceChange` and `Crossover`;
  - `Step`, a reference definition of one `handle_data` call as a function of the
    context fields;
  - `Run`, successive calls over a sequence of bars, with lemmas about the warm-up and
    the anchor;
  - the `Context` class. Its constructor `Initialize` and its method `HandleData`
    update the fields `i`, `asset` and `basePrice` in place, in the same order as the
    source. `HandleData` is proved equal to `Step`.
- `Scenarios` (`scenarios.dfy`) holds concrete runs over the price series
  `[10, 10, 10, 10, 12, 14]`.

The host's calls are inputs gathered in a `Bar`:

- `data.history(...)` is the trailing part of `prices`;
- `data.current` is `price`;
- `context.portfolio.cash` is `cash`;
- `len(context.blotter.open_orders)` is `openOrders`;
- `data.can_trade` is `canTrade`;
- the position amount is `posAmount`.

The two effects are returned as an `Outcome`:

- `Skipped` means the call returned during the warm-up;
- `Recorded(snapshot, order)` means `record` was called, then at most one
  `order_target_percent`.

**Window names are swapped in the code.** Lines 23-24 read the local `short_window`
from the configuration key `long_window`, and the local `long_window` from the key
`short_window`. The variable names and the comment at line 26 ("Skip as many bars as
long_window") suggest the keys were meant the other way round. The model follows the
code as written:

- `LocalShort` and `LocalLong` reproduce the swap.
- The warm-up ends when the counter reaches the configured `short_window`.
- The "short" average is taken over the configured `long_window` bars.

`Scenarios.SwappedKeysScenario` shows that the run with short 2 / long 4 over
`[10, 10, 10, 10, 12, 14]` (three warm-up bars, no order, a buy, no order) happens only
when the keys are configured the other way round. `Scenarios.NamedKeysEndWarmupEarly`
shows that with the keys as named, the warm-up ends on bar 2. That bar would already
need four bars of history.

## Model

| member | source | states |
|---|---|---|
| `Averages.Trailing` | kryptobot/strategies/core/simple_moving_average.py:35-45 | the history window has exactly the requested bar count and is the trailing part of the price series (most recent last) |
| `Averages.Mean` | kryptobot/strategies/core/simple_moving_average.py:40-46 | `.mean()` of a window: the mean taken once per bar adds up to the window's total |
| `Averages.MeanWithin` | kryptobot/strategies/core/simple_moving_average.py:40-46 | the mean of a window lies between any lower and upper bound of its prices |
| `Averages.MeanOfConstant` | kryptobot/strategies/core/simple_moving_average.py:40-46 | a window of equal prices has that price as its mean |
| `Averages.MeanMonotone` | kryptobot/strategies/core/simple_moving_average.py:40-46 | raising prices never lowers the mean, and the mean stays the same only if no price moved |
| `SimpleMovingAverage.LocalShort` | kryptobot/strategies/core/simple_moving_average.py:23 | the local `short_window` reads the `long_window` key, as written; with the keys set as named it is the longer of the two windows |
| `SimpleMovingAverage.LocalLong` | kryptobot/strategies/core/simple_moving_average.py:24 | the local `long_window` reads the `short_window` key, as written |
| `SimpleMovingAverage.WarmingUp` | kryptobot/strategies/core/simple_moving_average.py:28 | a bar is inside the warm-up iff the advanced counter is below the configured `short_window` (the local `long_window`) |
| `SimpleMovingAverage.PriceChange` | kryptobot/strategies/core/simple_moving_average.py:55 | `price_change` is the relative change against the anchor: `price == base * (1 + r)`, and it is 0 exactly when price equals the anchor |
| `SimpleMovingAverage.PriceChangeSign` | kryptobot/strategies/core/simple_moving_average.py:55 | with a positive anchor, `price_change` is positive iff the price rose and negative iff it fell |
| `SimpleMovingAverage.Crossover` | kryptobot/strategies/core/simple_moving_average.py:77-83 | target 1 iff short > long and the position is 0; target 0 iff short < long and the position is positive; no other target |
| `SimpleMovingAverage.CrossoverNoFlipFlop` | kryptobot/strategies/core/simple_moving_average.py:78-83 | equal averages never order; no entry while long; no exit while flat; every order agrees with the sign of short - long |
| `SimpleMovingAverage.Step` | kryptobot/strategies/core/simple_moving_average.py:22-83 | one bar: counter +1; skipped iff the new counter is below the configured `short_window` (the swap), anchor untouched then; anchor set once to the first active price and never overwritten; every active bar records price, cash, price change and the means over `long_window` and `short_window` bars; open orders or no tradability mean no order; otherwise the crossover iff-rules, target 0 or 1 on this asset |
| `SimpleMovingAverage.Run` | kryptobot/strategies/core/simple_moving_average.py:22-83 | over successive bars: the counter advances by the number of bars; a set anchor never changes; no bar with open orders or untradable asset orders; every recorded snapshot carries that bar's price and cash |
| `SimpleMovingAverage.RunAnchor` | kryptobot/strategies/core/simple_moving_average.py:27-55 | starting unanchored, every bar before the end of the warm-up is skipped; the first active bar records a price change of 0; the anchor ends equal to that bar's price whatever follows |
| `SimpleMovingAverage.RunWarmup` | kryptobot/strategies/core/simple_moving_average.py:27-29 | bars that all fall inside the warm-up are all skipped and leave the anchor unchanged |
| `SimpleMovingAverage.Context.Initialize` | kryptobot/strategies/core/simple_moving_average.py:14-17 | the counter is 0, the asset is the resolved one, the anchor is unset |
| `SimpleMovingAverage.Context.HandleData` | kryptobot/strategies/core/simple_moving_average.py:22-83 | updates the context fields in place exactly as `Step` describes: counter +1, asset unchanged, skipped iff the counter is below the configured `short_window`, anchor unchanged once set or while skipping |
| `Scenarios.SwappedKeysScenario` | kryptobot/strategies/core/simple_moving_average.py:23-83 | keys short 4 / long 2 over `[10,10,10,10,12,14]`: three skipped bars, then no order (10 = 10), a buy at target 1 (11 > 10.5), then no order while long (13 > 11.5); anchor 10 |
| `Scenarios.NamedKeysEndWarmupEarly` | kryptobot/strategies/core/simple_moving_average.py:23-28 | keys short 2 / long 4: the averages use 4 and 2 bars, and the warm-up ends at bar 2, where two bars of history cannot supply the 4-bar window |

## Left out

- The Catalyst calls are inputs and outputs of the model, not effects. These are
  `symbol`, `data.history`, `data.current`, `data.can_trade`, `record`,
  `order_target_percent`, `context.blotter` and `context.portfolio`. The model does
  not capture what the engine does with a recorded snapshot or a placed order.
- The pair lookup `symbol(pair)` is foreign. `Initialize` takes the resolved `Asset`,
  so a pair that fails to resolve is not modelled.
- Short history is a precondition (`BarOk`), not modelled behaviour. The engine may
  hold fewer bars than a window requests after the warm-up, and what pandas then
  returns (a shorter or NaN series) is left out.
- A zero base price is a precondition, not modelled behaviour. Anchoring at a price of
  0 would make line 55 divide by zero, so `BarOk` requires a non-zero price when the
  anchor is set.
- The current price (`data.current`, line 49) is a separate input from the last price
  of the history (lines 35-45). The model does not tie the two together. No proved
  property depends on that link.
- Prices, means and cash are Dafny reals. Floating-point rounding and pandas' NaN
  handling in `.mean()` are not modelled.
- `len(context.blotter.open_orders)` is a plain count of open orders. How Catalyst
  groups those orders by asset is not modelled.
- `get_analyze` (lines 87-91) is left out. It does nothing.
- The unused imports (`matplotlib`, `numpy`, `extract_transactions`) are left out.
- `BaseStrategy` is not part of this model. The configuration is taken as given, with
  both windows positive.
- `setup.py` is left out. It holds only packaging metadata.
