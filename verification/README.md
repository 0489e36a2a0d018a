# Rule-based and hindsight trading orders, in Dafny

This project models the part of a small trading-strategy repository that turns a
daily price series for one instrument into an order series: +1 buys, -1 sells
and 0 holds. It covers three components.

- **Indicators** (`indicators.dfy`, module `Indicators`). Momentum over a window
  is undefined on the first `window` days. After that it is the ratio of today's
  price to the price `window` days earlier, minus one. The SMA indicator is
  price divided by its rolling mean, minus one, taken day by day.
- **Rule-based strategy** (`rule_based_strategy.dfy`, module `RuleBased`).
  - Threshold rules turn the SMA indicator and 40-day momentum into
    per-indicator signals.
  - A conjunction combines the two signals into one.
  - A left-to-right scan over an array keeps the net position within one unit.
  - A last-day overwrite is meant to close the open position.
- **Hindsight ("best possible") strategy** (`best_strategy.dfy`, module
  `BestPossible`).
  - Each day's opinion is the direction of tomorrow's price move.
  - The orders are the halved first difference of the opinions, with the first
    entry replaced by the first opinion.
  - The last day is patched when the net position is exactly one unit.

`series.dfy` (module `Series`) holds what all three share:
- `Option`, where `None` stands for an undefined (NaN) entry;
- positivity of prices;
- the element-wise `a / b - 1` ratio and its sign lemma.

Series are positional: day `t` is position `t`, and `[0]` and `[-1]` are the
first and last positions. Prices are exact `real`s. The momentum thresholds
-0.07 and 0.14 are exact literals.

The strategy objects are classes whose field `orderSignals` is the order series
they build and patch. The rule-based class holds an `array<int>` that its loop
writes day by day. The hindsight class holds a `seq<Option<real>>` that is
patched at positions 0 and n-1. Each method is proved equal to a specification
function (`RuleOrders`, `BestOrders`), and the lemmas state what the source
promises about those functions.

## Where the code falls short of its own comments

The docstrings of both `trading_strategy` methods promise a series of 1 for
buy, 0 for hold and -1 for sell (rule_based_strategy.py:27,
best_strategy.py:27). Both methods carry the comment "on the last day, close
any open positions" (rule_based_strategy.py:58, best_strategy.py:42). The
model follows the code in each case.
- Closing. The rule-based overwrite leaves the final net position at minus the
  overwritten last order (`RuleBased.FlattenEffect`). The hindsight patch
  never fires on a net position of ±1/2 (`BestPossible.BestFlattening`). Both
  are listed under Findings.
- Units. Every rule-based order is -1, 0 or 1 (`RuleBased.RuleOrdersUnits`).
  Hindsight orders of ±1/2 appear when an opinion is 0, that is, when two
  consecutive prices are equal (`BestPossible.RawOrders`,
  `BestPossible.FlatDayLeavesHalfOpen`).
- One day. A one-day price series gives a single undefined hindsight entry,
  not an order (`BestPossible.SingleDay`).
- No days. The hindsight code raises on an empty price series at the
  positional read `return_signs[0]`, so
  `BestPossibleStrategy.TradingStrategy` requires at least one price. The
  rule-based strategy returns an empty order series for an empty price series.

## Model

| member | source | states |
|---|---|---|
| `Series.RatioSign` | indicators.py:22 | for a positive denominator, `a / b - 1` is negative, positive or zero exactly when `a` is below, above or equal to `b` |
| `Series.Ratio` | indicators.py:22 | the element-wise ratio of two aligned slices has their length and is defined at every position |
| `Indicators.Momentum` | indicators.py:11-23 | the window defaults to 5; the momentum series has the input's length and is undefined exactly on the first `window` days (so everywhere when `window` is at least the length) |
| `Indicators.MomentumAt` | indicators.py:21-22 | index alignment of the slice fill: for `t >= window`, `momentum[t] = price[t] / price[t - window] - 1` |
| `Indicators.MomentumSign` | indicators.py:22 | for positive prices, momentum at `t >= window` is defined, positive iff `price[t] > price[t - window]` and negative iff it is lower |
| `Indicators.SmaIndicator` | indicators.py:26-36 | the SMA indicator has the price series' length and is undefined exactly where the rolling mean is undefined |
| `Indicators.SmaSign` | indicators.py:36 | where the rolling mean is defined (and positive), the indicator is negative iff the price is below the mean and positive iff above |
| `RuleBased.SmaSignal` | rule_based_strategy.py:31-32 | the SMA signal is +1 iff the reading is below 0, -1 iff above 0, and 0 iff it is 0 or undefined |
| `RuleBased.MomentumSignal` | rule_based_strategy.py:35-36 | the momentum signal is -1 iff the reading is below -0.07, +1 iff above 0.14, and 0 iff undefined or in between; the cases are disjoint |
| `RuleBased.Combine` | rule_based_strategy.py:39-40 | conjunction: +1 iff both signals are +1, -1 iff both are -1, and 0 otherwise (so SMA +1 with momentum 0 gives 0) |
| `RuleBased.Signals` | rule_based_strategy.py:31-40 | the combined signal has one entry per price |
| `RuleBased.SignalRule` | rule_based_strategy.py:31-40 | a day's combined signal is in {-1, 0, 1}; it is +1 iff `t >= 40`, the rolling mean is defined, the price is below it and the 40-day momentum exceeds 0.14; it is -1 iff `t >= 40`, the price is above a defined mean and momentum is below -0.07 |
| `RuleBased.OrderFor` | rule_based_strategy.py:50-56 | a day's decision is in {-1, 0, 1}, is non-zero only in the signal's direction, and keeps a net position within one unit inside that band |
| `RuleBased.Scan` | rule_based_strategy.py:43-56 | the scanned order series has the signal's length, and its total net position lies in {-1, 0, 1} |
| `RuleBased.ScanPrefix` | rule_based_strategy.py:45-56 | the scan is causal: the orders for the first `k` days depend only on the first `k` signals |
| `RuleBased.ScanAt` | rule_based_strategy.py:47-56 | a day's order is +1 iff the signal is +1 and the prior net position is below 1, -1 iff the signal is -1 and the prior net position is above -1, and 0 otherwise |
| `RuleBased.ScanUnits` | rule_based_strategy.py:50-55 | every scanned order is in {-1, 0, 1} |
| `RuleBased.PositionBound` | rule_based_strategy.py:45-56 | every prefix sum of the scanned orders lies in {-1, 0, 1} |
| `RuleBased.ScanNeutral` | rule_based_strategy.py:43-56 | an all-neutral signal leaves the all-zero initial order series untouched |
| `RuleBased.Flatten` | rule_based_strategy.py:58-62 | the overwrite keeps the length and every day but the last, and leaves the series unchanged unless the total is exactly ±1 |
| `RuleBased.FlattenEffect` | rule_based_strategy.py:58-62 | the last-day overwrite changes only the last entry, and only when the total is ±1; it sets that entry to minus the total, so the new total is minus the old last order; the new total stays in {-1, 0, 1} and is 0 iff the total was 0 or the last order was 0 |
| `RuleBased.RuleOrders` | rule_based_strategy.py:31-62 | the strategy's final order series has one entry per price |
| `RuleBased.RuleOrdersUnits` | rule_based_strategy.py:27-62 | every final order, the overwritten last day included, is -1, 0 or 1 |
| `RuleBased.RuleOrdersBounded` | rule_based_strategy.py:43-62 | the strategy's final orders keep every prefix net position in {-1, 0, 1} |
| `RuleBased.WarmUpNeutral` | rule_based_strategy.py:35-62 | with at most 40 prices, momentum is undefined everywhere, so every order is 0 |
| `RuleBased.LastDayBuyLeavesShort` | rule_based_strategy.py:58-62 | signals 0, +1 scan to orders 0, +1, which the overwrite turns into 0, -1, leaving a net position of -1 |
| `RuleBased.CloseOutFlat` | rule_based_strategy.py:58-62 | the corrected close (the last order is minus the net position carried into the last day) ends flat, keeps every prefix sum in {-1, 0, 1}, places a single-unit last order and changes no other day |
| `RuleBased.CloseOutAgrees` | rule_based_strategy.py:58-62 | where the overwrite as written does end flat, it equals the corrected close |
| `RuleBased.RuleBasedStrategy.constructor` | rule_based_strategy.py:14-17 | a new strategy holds an empty order series |
| `RuleBased.RuleBasedStrategy.TradingStrategy` | rule_based_strategy.py:20-64 | the array the loop builds and the overwrite patches equals the specification `RuleOrders`; it is stored in the field and returned; every prefix net position lies in {-1, 0, 1} |
| `BestPossible.ForwardReturns` | best_strategy.py:32-33 | the return of today against tomorrow, `price[t] / price[t + 1] - 1`, aligned on day `t`; the last day is undefined |
| `BestPossible.Opinion` | best_strategy.py:38 | `-sign` keeps an undefined entry undefined and maps a defined one into {-1, 0, 1} |
| `BestPossible.OpinionSign` | best_strategy.py:38 | `-sign(a / b - 1)` is +1, -1 or 0 exactly when `a` is below, above or equal to a positive `b` |
| `BestPossible.Opinions` | best_strategy.py:32-38 | for `t < n - 1` the opinion is defined and is +1 iff `price[t + 1] > price[t]`, -1 iff lower, 0 iff equal; the last opinion is undefined |
| `BestPossible.HalvedDiff` | best_strategy.py:39 | `diff / 2` has the input's length, an undefined first entry, and is defined at a later day exactly when that day and the day before are |
| `BestPossible.RawOrders` | best_strategy.py:39-40 | before the patch: `order[0]` is the first opinion, each order on days 1..n-2 is defined and lies in {-1, -1/2, 0, 1/2, 1}, and the last entry is undefined |
| `BestPossible.RawAt` | best_strategy.py:39-40 | on days 1..n-2 the order is half the change of opinion from the day before |
| `BestPossible.NanSum` | best_strategy.py:43-45 | the sum skips undefined entries, so a series with no defined entry sums to 0 |
| `BestPossible.Telescope` | best_strategy.py:39-40 | the sum of `orders[0..t]` is `(d[0] + d[t]) / 2` for every `t <= n - 2` |
| `BestPossible.NetPosition` | best_strategy.py:39-40 | the net position before the last day lies in {-1, -1/2, 0, 1/2, 1} and never has the opposite sign of the first opinion |
| `BestPossible.RawTotal` | best_strategy.py:39-43 | the undefined last entry is skipped by the sum, so the total equals the sum of days 0..n-2 |
| `BestPossible.BestOrders` | best_strategy.py:39-46 | the patched series has one entry per price, equals the unpatched orders on days 0..n-2, and its last entry is undefined, +1 or -1 |
| `BestPossible.BestFlattening` | best_strategy.py:43-46 | the patch leaves days 0..n-2 unchanged; a net position of -1 makes the last order +1 and one of +1 makes it -1, and the total is then 0; any other net position leaves the last entry undefined |
| `BestPossible.SingleDay` | best_strategy.py:32-46 | a one-day price series gives a single undefined order |
| `BestPossible.RisingPrices` | best_strategy.py:32-46 | strictly rising prices give +1 on the first day, 0 on the days between, and -1 on the last day |
| `BestPossible.MonotoneExample` | best_strategy.py:32-46 | prices 10, 11, 12, 13, 14 give orders 1, 0, 0, 0, -1 |
| `BestPossible.FlatDayLeavesHalfOpen` | best_strategy.py:39-46 | prices 10, 11, 11 give orders 1, -1/2 and an undefined last day, with the net position left at 1/2 |
| `BestPossible.CloseOutFlat` | best_strategy.py:43-46 | the corrected close (the last order is minus the net position before the last day) ends flat, changes no day but the last, and places a last order of at most one unit |
| `BestPossible.CloseOutMatchesPatch` | best_strategy.py:43-46 | the corrected close equals the patch as written whenever the net position before the last day is not ±1/2 |
| `BestPossible.BestPossibleStrategy.constructor` | best_strategy.py:14-17 | a new strategy holds an empty order series |
| `BestPossible.BestPossibleStrategy.TradingStrategy` | best_strategy.py:20-48 | the field built from the halved difference and patched at positions 0 and n-1 equals the specification `BestOrders`; days 0..n-2 are the unpatched orders; the result ends flat or has an undefined last entry |

## Findings

| source | as written | input that shows it | evidently intended | confidence | as-written member | corrected member |
|---|---|---|---|---|---|---|
| rule_based_strategy.py:58-62 | the last order is overwritten with the opposite sign of the total, discarding the order the scan placed that day | signals 0, +1: the scan places 0, +1 (total +1), and the overwrite gives 0, -1, leaving one unit short | close the position carried into the last day, so the series ends flat (the comment at line 58) | high; not executed | `RuleBased.Flatten` with `RuleBased.LastDayBuyLeavesShort` | `RuleBased.CloseOut` with `RuleBased.CloseOutFlat` and `RuleBased.CloseOutAgrees` |
| best_strategy.py:43-46 | the last day is patched only when the total is exactly -1 or +1 | prices 10, 11, 11: orders 1, -1/2, undefined; total 1/2, so nothing is patched and half a unit stays open | close any open position on the last day (the comment at line 42) | medium; not executed | `BestPossible.BestOrders` with `BestPossible.FlatDayLeavesHalfOpen` | `BestPossible.CloseOut` with `BestPossible.CloseOutFlat` and `BestPossible.CloseOutMatchesPatch` |

The strategy methods model the code as written. The corrected definitions stand
beside them, together with the proofs of the intended property.

## Left out

- Price loading and the trading calendar (`get_data`, `get_exchange_days`), the market simulator, the event analyser and all plotting. These are I/O or collaborators outside the core.
- The Bollinger-band functions. They are imported by the rule-based strategy but not used by it.
- The 30-day rolling mean (`rolling(window=30).mean()`) is library behaviour. `RuleBasedStrategy.TradingStrategy` takes it as an input series that is aligned with the prices. Its defined entries are required to be positive, as the rolling mean of positive prices is.
- IEEE floating point. Prices, ratios and halves are exact reals. NaN is `None`, and a comparison with NaN is false.
- Zero, negative or NaN prices. Every operation on prices requires positive prices (the price parameter is documented as typically an adjusted close price, indicators.py:16, and those are positive). With a zero price, numpy division yields infinities, and these are not modelled.
- `Indicators.Momentum` requires `window >= 1` and so does not model a `window` of 0 or below. With `window` 0 on a non-empty series, slicing `price.values[:-0]` is empty and pandas raises a length mismatch; on an empty series nothing is raised. A negative `window` of -k (k at most the length) is accepted by the source: it fills the last k positions with the ratio of each to the price at the matching position among the first k.
- Date labels, pandas index alignment by label, and the label-versus-position fallback of `series[-1]`. Positions 0..n-1 stand for the dates.
- The `df_trades` fields. They are initialised but never used by the modelled methods.
- `BestPossible.BestPossibleStrategy.TradingStrategy` requires a non-empty price series, because the source raises at `return_signs[0]` on an empty one.
