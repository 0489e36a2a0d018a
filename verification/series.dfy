/** Trading-day-indexed series: positions 0..n-1 stand for the dates of the
    index, and an undefined (NaN) entry is `None`. */
module Series {

  datatype Option<+T> = None | Some(value: T)

  /** A price series of adjusted closes, all of them positive. */
  predicate Positive(s: seq<real>) {
    forall i :: 0 <= i < |s| ==> s[i] > 0.0
  }

  /** `n` undefined entries, as a freshly created all-NaN series has. */
  function Undefined(n: nat): seq<Option<real>> {
    seq(n, _ => None)
  }

  /** Element-wise `num / den - 1` of two positionally aligned slices of equal
      length: one defined entry per position (the denominators are positive). */
  function Ratio(num: seq<real>, den: seq<real>): (r: seq<Option<real>>)
    requires |num| == |den| && Positive(den)
    ensures |r| == |num|
    ensures forall i :: 0 <= i < |r| ==> r[i].Some?
  {
    seq(|num|, i requires 0 <= i < |num| => Some(num[i] / den[i] - 1.0))
  }

  /** The sign of `a / b - 1` is the order of `a` against `b` when `b` is positive. */
  lemma RatioSign(a: real, b: real)
    requires b > 0.0
    ensures a / b - 1.0 < 0.0 <==> a < b
    ensures a / b - 1.0 > 0.0 <==> a > b
    ensures a / b - 1.0 == 0.0 <==> a == b
  {
    var q := a / b;
    assert q * b == a;
    if q < 1.0 {
      assert q * b < 1.0 * b;
    } else if q > 1.0 {
      assert q * b > 1.0 * b;
    }
  }
}
