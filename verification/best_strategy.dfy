/** The hindsight ("best possible") strategy: with tomorrow's price known, the
    opinion for each day is the direction of the next move, the orders are the
    halved first difference of the opinions, and the last day is patched to
    close a net position of exactly one unit. */
module BestPossible {
  import opened Series

  /** `np.sign` on a defined value. */
  function Sign(x: real): real {
    if x < 0.0 then -1.0 else if x > 0.0 then 1.0 else 0.0
  }

  /** The defined value, or 0 for an undefined entry (skipped by a sum). */
  function ValueOr0(x: Option<real>): real {
    if x.Some? then x.value else 0.0
  }

  /** Today's price relative to tomorrow's, `price[:-1] / price[1:] - 1`; the last day has none. */
  function ForwardReturns(price: seq<real>): (r: seq<Option<real>>)
    requires Positive(price)
    ensures |r| == |price|
    ensures forall t :: 0 <= t < |r| - 1 ==> r[t] == Some(price[t] / price[t + 1] - 1.0)
    ensures |r| > 0 ==> r[|r| - 1] == None
  {
    if price == [] then []
    else Ratio(price[..|price| - 1], price[1..]) + Undefined(1)
  }

  /** `-1 * sign(return)`: +1 when tomorrow's price is higher, -1 when lower,
      0 when equal, undefined on the last day. */
  function Opinions(price: seq<real>): (d: seq<Option<real>>)
    requires Positive(price)
    ensures |d| == |price|
    ensures |d| > 0 ==> d[|d| - 1] == None
    ensures forall t :: 0 <= t < |d| - 1 ==> d[t].Some?
    ensures forall t :: 0 <= t < |d| - 1 ==>
              && (d[t].value == 1.0 <==> price[t] < price[t + 1])
              && (d[t].value == -1.0 <==> price[t] > price[t + 1])
              && (d[t].value == 0.0 <==> price[t] == price[t + 1])
  {
    var r := ForwardReturns(price);
    var d := seq(|r|, t requires 0 <= t < |r| => Opinion(r[t]));
    forall t | 0 <= t < |d| - 1
      ensures && (d[t].value == 1.0 <==> price[t] < price[t + 1])
              && (d[t].value == -1.0 <==> price[t] > price[t + 1])
              && (d[t].value == 0.0 <==> price[t] == price[t + 1])
    {
      OpinionSign(price[t], price[t + 1]);
    }
    d
  }

  /** `-1 * np.sign(x)`, undefined stays undefined. */
  function Opinion(x: Option<real>): (r: Option<real>)
    ensures r.None? <==> x.None?
    ensures r.Some? ==> r.value in {-1.0, 0.0, 1.0}
  {
    match x
    case None => None
    case Some(v) => Some(-1.0 * Sign(v))
  }

  lemma OpinionSign(a: real, b: real)
    requires b > 0.0
    ensures var v := Opinion(Some(a / b - 1.0)).value;
      && (v == 1.0 <==> a < b)
      && (v == -1.0 <==> a > b)
      && (v == 0.0 <==> a == b)
  {
    RatioSign(a, b);
  }

  /** `series.diff(periods=1) / 2`: undefined first entry, and undefined
      wherever either neighbour is undefined. */
  function HalvedDiff(d: seq<Option<real>>): (h: seq<Option<real>>)
    ensures |h| == |d|
    ensures |d| > 0 ==> h[0] == None
    ensures forall t :: 1 <= t < |d| ==> (h[t].Some? <==> d[t].Some? && d[t - 1].Some?)
  {
    seq(|d|, t requires 0 <= t < |d| =>
      if t == 0 || d[t].None? || d[t - 1].None? then None
      else Some((d[t].value - d[t - 1].value) / 2.0))
  }

  /** The orders before the last-day patch: the halved difference with its first
      entry replaced by the first opinion. */
  function RawOrders(price: seq<real>): (o: seq<Option<real>>)
    requires |price| >= 1 && Positive(price)
    ensures |o| == |price|
    ensures o[0] == Opinions(price)[0]
    ensures o[|o| - 1] == None
    ensures forall t :: 1 <= t < |o| - 1 ==> o[t].Some?
    ensures forall t :: 1 <= t < |o| - 1 ==>
              o[t].value in {-1.0, -0.5, 0.0, 0.5, 1.0}
  {
    var d := Opinions(price);
    HalvedDiff(d)[0 := d[0]]
  }

  /** pandas' sum, which skips undefined entries (an all-undefined sum is 0). */
  function NanSum(s: seq<Option<real>>): (r: real)
    ensures (forall i :: 0 <= i < |s| ==> s[i].None?) ==> r == 0.0
  {
    if s == [] then 0.0 else NanSum(s[..|s| - 1]) + ValueOr0(s[|s| - 1])
  }

  /** If the sum is exactly -1 the last entry becomes +1; if exactly +1 it becomes -1. */
  function BestOrders(price: seq<real>): (f: seq<Option<real>>)
    requires |price| >= 1 && Positive(price)
    ensures |f| == |price|
    ensures forall t :: 0 <= t < |price| - 1 ==> f[t] == RawOrders(price)[t]
    ensures f[|f| - 1] in {None, Some(1.0), Some(-1.0)}
  {
    var o := RawOrders(price);
    var total := NanSum(o);
    if total == -1.0 then o[|o| - 1 := Some(1.0)]
    else if total == 1.0 then o[|o| - 1 := Some(-1.0)]
    else o
  }

  lemma NanSumSnoc(s: seq<Option<real>>, x: Option<real>)
    ensures NanSum(s + [x]) == NanSum(s) + ValueOr0(x)
  {
    assert (s + [x])[..|s|] == s;
  }

  /** Between the first and the last day, the order is half the change of
      opinion from the day before. */
  lemma RawAt(price: seq<real>, t: nat)
    requires Positive(price) && 1 <= t < |price| - 1
    ensures var d := Opinions(price);
      RawOrders(price)[t] == Some((d[t].value - d[t - 1].value) / 2.0)
  {
    var d := Opinions(price);
    assert RawOrders(price)[t] == HalvedDiff(d)[t];
  }

  /** Telescoping: the net position after day t (before the last day) is the
      average of the first opinion and day t's opinion. */
  lemma {:induction false} Telescope(price: seq<real>, t: nat)
    requires Positive(price) && t < |price| - 1
    ensures var d := Opinions(price);
      NanSum(RawOrders(price)[..t + 1]) == (d[0].value + d[t].value) / 2.0
  {
    var d := Opinions(price);
    var o := RawOrders(price);
    assert o[..t + 1] == o[..t] + [o[t]];
    NanSumSnoc(o[..t], o[t]);
    if t == 0 {
      assert o[..0] == [];
    } else {
      Telescope(price, t - 1);
      RawAt(price, t);
    }
  }

  /** The net position before the last day is within one unit and never on
      the opposite side of the first opinion. */
  lemma NetPosition(price: seq<real>, t: nat)
    requires Positive(price) && t < |price| - 1
    ensures var d := Opinions(price); var net := NanSum(RawOrders(price)[..t + 1]);
      && net in {-1.0, -0.5, 0.0, 0.5, 1.0}
      && (d[0].value > 0.0 ==> net >= 0.0)
      && (d[0].value < 0.0 ==> net <= 0.0)
  {
    Telescope(price, t);
  }

  /** The undefined last entry adds nothing to the sum. */
  lemma RawTotal(price: seq<real>)
    requires |price| >= 1 && Positive(price)
    ensures var o := RawOrders(price); NanSum(o) == NanSum(o[..|o| - 1])
  {
    var o := RawOrders(price);
    assert o == o[..|o| - 1] + [o[|o| - 1]];
    NanSumSnoc(o[..|o| - 1], o[|o| - 1]);
  }

  /** The last-day patch leaves days 0..n-2 alone; it closes a net position of
      exactly -1 with +1 and of exactly +1 with -1, leaving the series flat, and
      otherwise the last entry stays undefined. */
  lemma BestFlattening(price: seq<real>)
    requires |price| >= 1 && Positive(price)
    ensures var o := RawOrders(price); var f := BestOrders(price);
      var n := |price|; var held := NanSum(o[..n - 1]);
      && |f| == n
      && f[..n - 1] == o[..n - 1]
      && (held == -1.0 ==> f[n - 1] == Some(1.0) && NanSum(f) == 0.0)
      && (held == 1.0 ==> f[n - 1] == Some(-1.0) && NanSum(f) == 0.0)
      && (held != -1.0 && held != 1.0 ==> f[n - 1] == None && f == o)
  {
    var o := RawOrders(price);
    var n := |price|;
    RawTotal(price);
    var f := BestOrders(price);
    assert f[..n - 1] == o[..n - 1];
    assert f == f[..n - 1] + [f[n - 1]];
    NanSumSnoc(f[..n - 1], f[n - 1]);
  }

  /** A single price gives a single undefined order. */
  lemma SingleDay(price: seq<real>)
    requires |price| == 1 && Positive(price)
    ensures BestOrders(price) == [None]
  {
    var o := RawOrders(price);
    assert o == [None];
    assert o[..0] == [];
    assert NanSum(o) == 0.0;
  }

  /** On strictly rising prices the strategy buys on the first day, holds, and
      the last-day patch sells. */
  lemma RisingPrices(price: seq<real>)
    requires |price| >= 2 && Positive(price)
    requires forall t :: 0 <= t < |price| - 1 ==> price[t] < price[t + 1]
    ensures BestOrders(price) == [Some(1.0)] + seq(|price| - 2, _ => Some(0.0)) + [Some(-1.0)]
  {
    var n := |price|;
    var d := Opinions(price);
    var o := RawOrders(price);
    Telescope(price, n - 2);
    BestFlattening(price);
    var f := BestOrders(price);
    var want := [Some(1.0)] + seq(n - 2, _ => Some(0.0)) + [Some(-1.0)];
    forall t | 0 <= t < n ensures f[t] == want[t] {
      if t < n - 1 {
        assert f[t] == f[..n - 1][t];
        if t > 0 {
          RawAt(price, t);
        }
      }
    }
  }

  /** Prices 10, 11, 12, 13, 14 give orders 1, 0, 0, 0, -1. */
  lemma MonotoneExample()
    ensures BestOrders([10.0, 11.0, 12.0, 13.0, 14.0])
         == [Some(1.0), Some(0.0), Some(0.0), Some(0.0), Some(-1.0)]
  {
    var p := [10.0, 11.0, 12.0, 13.0, 14.0];
    RisingPrices(p);
    assert [Some(1.0)] + seq(3, _ => Some(0.0)) + [Some(-1.0)]
        == [Some(1.0), Some(0.0), Some(0.0), Some(0.0), Some(-1.0)];
  }

  /** An unchanged price before the last day leaves half a unit open: prices
      10, 11, 11 give orders 1, -0.5 and an undefined last day, which the
      patch does not touch. */
  lemma FlatDayLeavesHalfOpen()
    ensures BestOrders([10.0, 11.0, 11.0]) == [Some(1.0), Some(-0.5), None]
    ensures NanSum(BestOrders([10.0, 11.0, 11.0])) == 0.5
  {
    var p := [10.0, 11.0, 11.0];
    var d := Opinions(p);
    assert d[0] == Some(1.0) && d[1] == Some(0.0);
    var o := RawOrders(p);
    assert o[1] == Some((d[1].value - d[0].value) / 2.0);
    assert o == [Some(1.0), Some(-0.5), None];
    assert o[..0] == [];
    assert o[..1] == [Some(1.0)];
    assert NanSum(o[..1]) == 1.0;
    assert o[..2] == [Some(1.0), Some(-0.5)];
    assert NanSum(o[..2]) == 0.5;
    assert o[..3] == o;
    assert NanSum(o) == 0.5;
  }

  /** Closing the position as intended: the last entry becomes minus the sum
      of the orders before it, whatever that sum is. */
  function CloseOut(o: seq<Option<real>>): seq<Option<real>> {
    if o == [] then o
    else
      var held := NanSum(o[..|o| - 1]);
      if held == 0.0 then o else o[|o| - 1 := Some(-held)]
  }

  /** The intended close leaves the hindsight orders flat, with a last order
      of at most one unit. */
  lemma CloseOutFlat(price: seq<real>)
    requires |price| >= 1 && Positive(price)
    ensures var o := RawOrders(price); var c := CloseOut(o); var n := |price|;
      && |c| == n
      && NanSum(c) == 0.0
      && c[..n - 1] == o[..n - 1]
      && (c[n - 1].Some? ==> -1.0 <= c[n - 1].value <= 1.0)
  {
    var o := RawOrders(price);
    var n := |price|;
    var c := CloseOut(o);
    if n >= 2 {
      NetPosition(price, n - 2);
    } else {
      assert o[..0] == [];
    }
    assert c[..n - 1] == o[..n - 1];
    assert c == c[..n - 1] + [c[n - 1]];
    NanSumSnoc(c[..n - 1], c[n - 1]);
  }

  /** The intended close agrees with the patch whenever the net position
      before the last day is a whole unit or zero. */
  lemma CloseOutMatchesPatch(price: seq<real>)
    requires |price| >= 1 && Positive(price)
    ensures var o := RawOrders(price); var held := NanSum(o[..|price| - 1]);
      held != 0.5 && held != -0.5 ==> CloseOut(o) == BestOrders(price)
  {
    var o := RawOrders(price);
    var n := |price|;
    RawTotal(price);
    BestFlattening(price);
    if n >= 2 {
      NetPosition(price, n - 2);
    } else {
      assert o[..0] == [];
    }
  }

  /** The strategy object: `orderSignals` is the order series it patches in place. */
  class BestPossibleStrategy {
    var orderSignals: seq<Option<real>>

    constructor ()
      ensures orderSignals == []
    {
      orderSignals := [];
    }

    /** Builds the halved first difference of the opinions, overwrites its
        first entry with the first opinion, then patches the last entry when
        the net position is exactly one unit. */
    method TradingStrategy(price: seq<real>) returns (orders: seq<Option<real>>)
      requires |price| >= 1 && Positive(price)
      modifies this
      ensures orders == orderSignals == BestOrders(price)
      ensures orders[..|price| - 1] == RawOrders(price)[..|price| - 1]
      ensures NanSum(orders) == 0.0 || orders[|price| - 1] == None
    {
      var returnSigns := Opinions(price);
      orderSignals := HalvedDiff(returnSigns);
      orderSignals := orderSignals[0 := returnSigns[0]];
      var total := NanSum(orderSignals);
      if total == -1.0 {
        orderSignals := orderSignals[|orderSignals| - 1 := Some(1.0)];
      } else if total == 1.0 {
        orderSignals := orderSignals[|orderSignals| - 1 := Some(-1.0)];
      }
      orders := orderSignals;
      BestFlattening(price);
      RawTotal(price);
    }
  }
}
