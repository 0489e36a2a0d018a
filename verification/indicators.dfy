/** The two technical indicators the rule-based strategy reads: momentum and
    the price-to-moving-average ratio. Both keep the index of the price series
    and mark the days they cannot compute as undefined. */
module Indicators {
  import opened Series

  /** Defined entries of a rolling mean of positive prices are positive. */
  predicate PositiveWhereDefined(mean: seq<Option<real>>) {
    forall i :: 0 <= i < |mean| && mean[i].Some? ==> mean[i].value > 0.0
  }

  /** Momentum over `window` days: an all-undefined series whose positions from
      `window` on are filled with `price[window:] / price[:-window] - 1`. It has
      the length of the price series, its first `window` entries are undefined
      and the others are defined. */
  function Momentum(price: seq<real>, window: nat := 5): (m: seq<Option<real>>)
    requires window >= 1 && Positive(price)
    ensures |m| == |price|
    ensures forall t :: 0 <= t < |m| ==> (m[t] == None <==> t < window)
  {
    if window >= |price| then Undefined(|price|)
    else Undefined(window) + Ratio(price[window..], price[..|price| - window])
  }

  /** Alignment: the slice fill puts at day t the ratio of day t's price to the
      price `window` days earlier. */
  lemma MomentumAt(price: seq<real>, window: nat, t: nat)
    requires window >= 1 && Positive(price) && window <= t < |price|
    ensures Momentum(price, window)[t] == Some(price[t] / price[t - window] - 1.0)
  {
    var m := Momentum(price, window);
    var tail := Ratio(price[window..], price[..|price| - window]);
    assert m[t] == tail[t - window];
  }

  /** Where momentum is defined, its sign is the direction of the price move
      over the window. */
  lemma MomentumSign(price: seq<real>, window: nat, t: nat)
    requires window >= 1 && Positive(price) && window <= t < |price|
    ensures Momentum(price, window)[t].Some?
    ensures Momentum(price, window)[t].value > 0.0 <==> price[t] > price[t - window]
    ensures Momentum(price, window)[t].value < 0.0 <==> price[t] < price[t - window]
  {
    MomentumAt(price, window, t);
    RatioSign(price[t], price[t - window]);
  }

  /** The simple-moving-average indicator `price / rolling_mean - 1`, element by
      element: same length, undefined exactly where the rolling mean is. */
  function SmaIndicator(price: seq<real>, mean: seq<Option<real>>): (r: seq<Option<real>>)
    requires |mean| == |price| && PositiveWhereDefined(mean)
    ensures |r| == |price|
    ensures forall t :: 0 <= t < |r| ==> (r[t].None? <==> mean[t].None?)
  {
    seq(|price|, t requires 0 <= t < |price| =>
      match mean[t]
      case None => None
      case Some(m) => Some(price[t] / m - 1.0))
  }

  /** Where the rolling mean is defined, the indicator is negative exactly when
      the price is below the mean and positive exactly when it is above. */
  lemma SmaSign(price: seq<real>, mean: seq<Option<real>>, t: nat)
    requires |mean| == |price| && PositiveWhereDefined(mean)
    requires t < |price| && mean[t].Some?
    ensures var r := SmaIndicator(price, mean)[t];
      && r.Some?
      && (r.value < 0.0 <==> price[t] < mean[t].value)
      && (r.value > 0.0 <==> price[t] > mean[t].value)
  {
    RatioSign(price[t], mean[t].value);
  }
}
