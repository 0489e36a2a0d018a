/** The rule-based strategy: threshold rules turn the SMA indicator and momentum
    into per-day signals, a conjunction combines them, and a left-to-right scan
    turns the combined signal into orders that never hold more than one unit
    long or short, followed by a last-day overwrite meant to close the position. */
module RuleBased {
  import opened Series
  import opened Indicators

  const MomentumWindow: nat := 40
  const MomentumSellBelow: real := -0.07
  const MomentumBuyAbove: real := 0.14

  /** `1 * cond` for a boolean series entry. */
  function Ind(b: bool): int { if b then 1 else 0 }

  /** A comparison with an undefined reading is false. */
  predicate Below(x: Option<real>, c: real) { x.Some? && x.value < c }
  predicate Above(x: Option<real>, c: real) { x.Some? && x.value > c }

  /** `1 * (sma < 0) + -1 * (sma > 0)`: below its mean the price reads as a buy. */
  function SmaSignal(x: Option<real>): (s: int)
    ensures s == 1 <==> x.Some? && x.value < 0.0
    ensures s == -1 <==> x.Some? && x.value > 0.0
    ensures s == 0 <==> x.None? || x.value == 0.0
  {
    1 * Ind(Below(x, 0.0)) + -1 * Ind(Above(x, 0.0))
  }

  /** `-1 * (momentum < -0.07) + 1 * (momentum > 0.14)`. */
  function MomentumSignal(x: Option<real>): (s: int)
    ensures s == -1 <==> x.Some? && x.value < MomentumSellBelow
    ensures s == 1 <==> x.Some? && x.value > MomentumBuyAbove
    ensures s == 0 <==> x.None? || MomentumSellBelow <= x.value <= MomentumBuyAbove
  {
    -1 * Ind(Below(x, MomentumSellBelow)) + 1 * Ind(Above(x, MomentumBuyAbove))
  }

  /** Conjunction: a direction only when both indicator signals agree on it. */
  function Combine(sma: int, mom: int): (s: int)
    ensures s == 1 <==> sma == 1 && mom == 1
    ensures s == -1 <==> sma == -1 && mom == -1
    ensures s == 0 <==> !(sma == 1 && mom == 1) && !(sma == -1 && mom == -1)
  {
    1 * Ind(sma == 1 && mom == 1) + -1 * Ind(sma == -1 && mom == -1)
  }

  /** The combined per-day signal of a price series, given its 30-day rolling mean. */
  function Signals(price: seq<real>, mean: seq<Option<real>>): (s: seq<int>)
    requires |mean| == |price| && Positive(price) && PositiveWhereDefined(mean)
    ensures |s| == |price|
  {
    var sma := SmaIndicator(price, mean);
    var mom := Momentum(price, MomentumWindow);
    seq(|price|, t requires 0 <= t < |price| => Combine(SmaSignal(sma[t]), MomentumSignal(mom[t])))
  }

  /** A day's combined signal is +1 exactly when the price is below its
      defined rolling mean and has risen by more than 14% over 40 days, -1
      exactly when it is above its mean and has fallen by more than 7%, and 0
      otherwise; in particular it is 0 on the first 40 days. */
  lemma SignalRule(price: seq<real>, mean: seq<Option<real>>, t: nat)
    requires |mean| == |price| && Positive(price) && PositiveWhereDefined(mean)
    requires t < |price|
    ensures var s := Signals(price, mean)[t];
      && -1 <= s <= 1
      && (s == 1 <==> t >= MomentumWindow && mean[t].Some? && price[t] < mean[t].value
                      && price[t] / price[t - MomentumWindow] - 1.0 > MomentumBuyAbove)
      && (s == -1 <==> t >= MomentumWindow && mean[t].Some? && price[t] > mean[t].value
                       && price[t] / price[t - MomentumWindow] - 1.0 < MomentumSellBelow)
  {
    if t >= MomentumWindow {
      MomentumAt(price, MomentumWindow, t);
    }
    if mean[t].Some? {
      SmaSign(price, mean, t);
    }
  }

  /** Net position: the sum of the orders. */
  function Sum(s: seq<int>): int {
    if s == [] then 0 else Sum(s[..|s| - 1]) + s[|s| - 1]
  }

  /** One day's decision from its signal and the net position before it: an
      order only ever follows the signal's direction, and from a position within
      one unit it never leaves that band. */
  function OrderFor(signal: int, net: int): (o: int)
    ensures -1 <= o <= 1
    ensures o != 0 ==> o == signal
    ensures -1 <= net <= 1 ==> -1 <= net + o <= 1
  {
    if net < 1 && signal == 1 then 1
    else if net > -1 && signal == -1 then -1
    else 0
  }

  /** The orders the scan produces for a signal series, day by day from the left. */
  function Scan(signal: seq<int>): (o: seq<int>)
    ensures |o| == |signal|
    ensures -1 <= Sum(o) <= 1
  {
    if signal == [] then []
    else
      var prior := Scan(signal[..|signal| - 1]);
      var o := prior + [OrderFor(signal[|signal| - 1], Sum(prior))];
      assert o[..|o| - 1] == prior;
      o
  }

  /** The orders for a prefix of the signal are the prefix of the orders. */
  lemma {:induction false} ScanPrefix(signal: seq<int>, k: nat)
    requires k <= |signal|
    ensures Scan(signal)[..k] == Scan(signal[..k])
    decreases |signal|
  {
    if k < |signal| {
      var init := signal[..|signal| - 1];
      assert Scan(signal)[..|signal| - 1] == Scan(init);
      ScanPrefix(init, k);
      assert init[..k] == signal[..k];
    } else {
      assert signal[..k] == signal;
    }
  }

  /** Each day's order is +1 exactly when the signal buys and the position is
      not already long, -1 exactly when it sells and the position is not
      already short, and 0 otherwise. */
  lemma ScanAt(signal: seq<int>, t: nat)
    requires t < |signal|
    ensures var o := Scan(signal); var net := Sum(o[..t]);
      && (o[t] == 1 <==> signal[t] == 1 && net < 1)
      && (o[t] == -1 <==> signal[t] == -1 && net > -1)
      && (o[t] == 0 <==> !(signal[t] == 1 && net < 1) && !(signal[t] == -1 && net > -1))
  {
    var o := Scan(signal);
    ScanPrefix(signal, t + 1);
    ScanPrefix(signal, t);
    var p := signal[..t + 1];
    assert p[..|p| - 1] == signal[..t];
    assert o[..t + 1][t] == o[t];
    assert o[..t + 1][..t] == o[..t];
  }

  /** Position bound: every prefix sum of the scanned orders lies in {-1, 0, 1}. */
  lemma PositionBound(signal: seq<int>, k: nat)
    requires k <= |signal|
    ensures -1 <= Sum(Scan(signal)[..k]) <= 1
  {
    ScanPrefix(signal, k);
  }

  /** A neutral signal produces no orders. */
  lemma {:induction false} ScanNeutral(signal: seq<int>)
    requires forall t :: 0 <= t < |signal| ==> signal[t] == 0
    ensures Scan(signal) == seq(|signal|, _ => 0)
    decreases |signal|
  {
    if signal != [] {
      var init := signal[..|signal| - 1];
      ScanNeutral(init);
      SumZeros(|init|);
    }
  }

  lemma {:induction false} SumZeros(n: nat)
    ensures Sum(seq(n, _ => 0)) == 0
  {
    if n > 0 {
      var z := seq(n, _ => 0);
      assert z[..n - 1] == seq(n - 1, _ => 0);
      SumZeros(n - 1);
    }
  }

  /** Appending an order adds it to the net position. */
  lemma SumSnoc(s: seq<int>, x: int)
    ensures Sum(s + [x]) == Sum(s) + x
  {
    assert (s + [x])[..|s|] == s;
  }

  /** Replacing the last order changes the net position by the difference. */
  lemma SumUpdateLast(o: seq<int>, v: int)
    requires |o| > 0
    ensures Sum(o[|o| - 1 := v]) == Sum(o) - o[|o| - 1] + v
  {
    assert o[|o| - 1 := v][..|o| - 1] == o[..|o| - 1];
  }

  /** On the last day, an open net position of +1 (-1) overwrites the last order with -1 (+1). */
  function Flatten(o: seq<int>): (f: seq<int>)
    ensures |f| == |o|
    ensures forall t :: 0 <= t < |o| - 1 ==> f[t] == o[t]
    ensures Sum(o) != 1 && Sum(o) != -1 ==> f == o
  {
    var total := Sum(o);
    if total == -1 then o[|o| - 1 := 1]
    else if total == 1 then o[|o| - 1 := -1]
    else o
  }

  /** Flattening touches only the last order and only when the net position is
      +1 or -1; the final net position is then minus the overwritten order, so it
      is 0 exactly when the position was already flat or the last order was 0,
      and it stays within {-1, 0, 1} for scanned orders. */
  lemma FlattenEffect(o: seq<int>)
    requires -1 <= Sum(o) <= 1
    requires forall t :: 0 <= t < |o| ==> -1 <= o[t] <= 1
    ensures var f := Flatten(o);
      && |f| == |o|
      && (Sum(o) == 0 ==> f == o)
      && (|o| > 0 ==> f[..|o| - 1] == o[..|o| - 1])
      && (|o| > 0 && Sum(o) != 0 ==> f[|o| - 1] == -Sum(o) && Sum(f) == -o[|o| - 1])
      && -1 <= Sum(f) <= 1
      && (Sum(f) == 0 <==> Sum(o) == 0 || o[|o| - 1] == 0)
  {
    if Sum(o) != 0 {
      SumUpdateLast(o, -Sum(o));
    }
  }

  /** Scanned orders are single units. */
  lemma ScanUnits(signal: seq<int>, t: nat)
    requires t < |signal|
    ensures -1 <= Scan(signal)[t] <= 1
  {
    ScanAt(signal, t);
  }

  /** The rule-based strategy's output: the scan of the combined signal, then the last-day overwrite. */
  function RuleOrders(price: seq<real>, mean: seq<Option<real>>): (r: seq<int>)
    requires |mean| == |price| && Positive(price) && PositiveWhereDefined(mean)
    ensures |r| == |price|
  {
    Flatten(Scan(Signals(price, mean)))
  }

  /** The strategy's orders keep every prefix net position in {-1, 0, 1},
      including after the last-day overwrite. */
  lemma RuleOrdersBounded(price: seq<real>, mean: seq<Option<real>>, k: nat)
    requires |mean| == |price| && Positive(price) && PositiveWhereDefined(mean)
    requires k <= |price|
    ensures |RuleOrders(price, mean)| == |price|
    ensures -1 <= Sum(RuleOrders(price, mean)[..k]) <= 1
  {
    var s := Signals(price, mean);
    var o := Scan(s);
    forall t | 0 <= t < |o| ensures -1 <= o[t] <= 1 { ScanUnits(s, t); }
    FlattenEffect(o);
    var f := Flatten(o);
    if k < |o| {
      assert f[..k] == o[..|o| - 1][..k];
      assert o[..|o| - 1][..k] == o[..k];
      PositionBound(s, k);
    } else {
      assert f[..k] == f;
    }
  }

  /** Every entry of the strategy's orders is a single unit: 1 for buy, 0 for
      hold, -1 for sell, including the overwritten last day. */
  lemma RuleOrdersUnits(price: seq<real>, mean: seq<Option<real>>, t: nat)
    requires |mean| == |price| && Positive(price) && PositiveWhereDefined(mean)
    requires t < |price|
    ensures -1 <= RuleOrders(price, mean)[t] <= 1
  {
    var s := Signals(price, mean);
    var o := Scan(s);
    if t < |o| - 1 {
      ScanUnits(s, t);
    } else if Sum(o) != 1 && Sum(o) != -1 {
      ScanUnits(s, t);
    }
  }

  /** Warm-up: with at most 40 prices momentum is never defined, so every
      signal is neutral and no order is placed. */
  lemma WarmUpNeutral(price: seq<real>, mean: seq<Option<real>>)
    requires |mean| == |price| && Positive(price) && PositiveWhereDefined(mean)
    requires |price| <= MomentumWindow
    ensures RuleOrders(price, mean) == seq(|price|, _ => 0)
  {
    var s := Signals(price, mean);
    forall t | 0 <= t < |s| ensures s[t] == 0 { SignalRule(price, mean, t); }
    ScanNeutral(s);
    SumZeros(|price|);
  }

  /** A buy signal on the last day, from a flat position, is overwritten by a
      sell: the series ends one unit short instead of flat. */
  lemma LastDayBuyLeavesShort()
    ensures Scan([0, 1]) == [0, 1]
    ensures Flatten(Scan([0, 1])) == [0, -1]
    ensures Sum(Flatten(Scan([0, 1]))) == -1
  {
    assert Scan([0]) == [0];
    assert [0, 1][..1] == [0];
    assert Scan([0, 1]) == [0, 1];
    assert [0, -1][..1] == [0];
  }

  /** Closing the position as intended: the last order becomes minus the net
      position carried into the last day. */
  function CloseOut(o: seq<int>): seq<int> {
    if o == [] then o else o[|o| - 1 := -Sum(o[..|o| - 1])]
  }

  /** On scanned orders, the intended close leaves the series flat, keeps every
      prefix net position in {-1, 0, 1} and places a single-unit last order. */
  lemma CloseOutFlat(signal: seq<int>)
    ensures var o := Scan(signal); var c := CloseOut(o);
      && |c| == |o|
      && Sum(c) == 0
      && (forall k :: 0 <= k <= |c| ==> -1 <= Sum(c[..k]) <= 1)
      && (|c| > 0 ==> -1 <= c[|c| - 1] <= 1 && c[..|c| - 1] == o[..|o| - 1])
  {
    var o := Scan(signal);
    var c := CloseOut(o);
    if o != [] {
      var n := |o|;
      SumUpdateLast(o, -Sum(o[..n - 1]));
      assert Sum(o) == Sum(o[..n - 1]) + o[n - 1];
      PositionBound(signal, n - 1);
      forall k | 0 <= k <= n ensures -1 <= Sum(c[..k]) <= 1 {
        if k < n {
          assert c[..k] == o[..k];
          PositionBound(signal, k);
        } else {
          assert c[..k] == c;
        }
      }
    }
  }

  /** Where the overwrite does end flat, it agrees with the intended close. */
  lemma CloseOutAgrees(signal: seq<int>)
    requires Sum(Flatten(Scan(signal))) == 0
    ensures CloseOut(Scan(signal)) == Flatten(Scan(signal))
  {
    var o := Scan(signal);
    if o != [] {
      var n := |o|;
      forall t | 0 <= t < n ensures -1 <= o[t] <= 1 { ScanUnits(signal, t); }
      FlattenEffect(o);
      assert Sum(o) == Sum(o[..n - 1]) + o[n - 1];
    }
  }

  /** The strategy object: `orderSignals` is the order series it builds in place. */
  class RuleBasedStrategy {
    var orderSignals: array<int>

    constructor ()
      ensures orderSignals.Length == 0
    {
      orderSignals := new int[0];
    }

    /** Scans the combined signal day by day, recomputing the net position as
        the sum of the orders up to and including the current (still zero)
        day, then overwrites the last order if the position is open. */
    method TradingStrategy(price: seq<real>, rollingMean: seq<Option<real>>) returns (orders: array<int>)
      requires |rollingMean| == |price| && Positive(price) && PositiveWhereDefined(rollingMean)
      modifies this
      ensures fresh(orders) && orders == orderSignals
      ensures orders[..] == RuleOrders(price, rollingMean)
      ensures forall k :: 0 <= k <= orders.Length ==> -1 <= Sum(orders[..k]) <= 1
    {
      var signal := Signals(price, rollingMean);
      var n := |signal|;
      ghost var scanned := Scan(signal);
      var a := new int[n](_ => 0);
      orderSignals := a;
      var t := 0;
      while t < n
        invariant 0 <= t <= n && orderSignals == a
        invariant forall k :: 0 <= k < t ==> a[k] == scanned[k]
        invariant forall k :: t <= k < n ==> a[k] == 0
      {
        assert Sum(a[..t + 1]) == Sum(scanned[..t]) by {
          assert a[..t + 1] == scanned[..t] + [0];
          SumSnoc(scanned[..t], 0);
        }
        var net := Sum(a[..t + 1]);
        if net < 1 && signal[t] == 1 {
          a[t] := 1;
        } else if net > -1 && signal[t] == -1 {
          a[t] := -1;
        }
        assert a[t] == scanned[t] by {
          ScanAt(signal, t);
        }
        t := t + 1;
      }
      assert a[..] == scanned;
      var total := Sum(a[..]);
      if total == -1 {
        a[n - 1] := 1;
      } else if total == 1 {
        a[n - 1] := -1;
      }
      assert a[..] == Flatten(scanned);
      orders := a;
      forall k | 0 <= k <= n ensures -1 <= Sum(orders[..k]) <= 1 {
        RuleOrdersBounded(price, rollingMean, k);
      }
    }
  }
}
