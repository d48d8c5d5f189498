/** The worker's smoothed rate: 70 percent of the old estimate and 30 percent of
    the instantaneous rate, truncated to an integer at every update. */
module Smoothing {
  import opened Arithmetic
  import opened Common

  function Smooth(current: int, instant: real): int {
    Trunc(if current == 0 then instant else current as real * (1.0 - 0.3) + instant * 0.3)
  }

  function SmoothAll(current: int, instants: seq<real>): int {
    if instants == [] then current
    else Smooth(SmoothAll(current, instants[..|instants| - 1]), instants[|instants| - 1])
  }

  /** While the instantaneous rates stay in an interval with integer ends, an
      estimate inside it stays inside, and so does one that starts from zero. */
  lemma {:induction false} EstimateStaysInside(a: int, b: int, current: int, instants: seq<real>)
    requires 0 <= a <= b && (a <= current <= b || (current == 0 && instants != []))
    requires forall i | 0 <= i < |instants| :: a as real <= instants[i] <= b as real
    ensures a <= SmoothAll(current, instants) <= b
  {
    if instants != [] {
      var n := |instants| - 1;
      if n > 0 || a <= current {
        EstimateStaysInside(a, b, current, instants[..n]);
      }
      SmoothStaysInside(a, b, SmoothAll(current, instants[..n]), instants[n]);
    }
  }

  lemma SmoothStaysInside(a: int, b: int, current: int, instant: real)
    requires 0 <= a <= b && (a <= current <= b || current == 0) && a as real <= instant <= b as real
    ensures a <= Smooth(current, instant) <= b
  {
  }

  function Repeat(current: int, rate: int, n: nat): int
    decreases n
  {
    if n == 0 then current else Repeat(Smooth(current, rate as real), rate, n - 1)
  }

  /** One update under a constant integer rate: never past the rate, one closer
      at least unless the estimate is at the rate or up to three below it. */
  lemma SmoothConstant(current: int, rate: int)
    requires 0 <= current && 0 <= rate
    ensures var next := Smooth(current, rate as real);
            && (current >= rate ==> rate <= next <= current)
            && (current > rate ==> next < current)
            && (0 < current < rate ==> current <= next <= rate)
            && (0 < current < rate - 3 ==> current < next)
            && (current == 0 ==> next == rate)
            && (next == current <==> rate == current || (0 < current && rate - 3 <= current <= rate))
  {
  }

  /** Under a constant integer rate the estimate comes to rest within as many
      updates as it was away, exactly at the rate from above, at most three below
      it from below; it never moves away from the rate on the way. */
  lemma {:induction false} ConstantRateEstimate(current: int, rate: int, n: nat)
    requires 0 <= current && 0 <= rate
    ensures var e := Repeat(current, rate, n);
            && (current >= rate ==> rate <= e <= current)
            && (current < rate ==> current <= e <= rate)
            && (n >= current - rate && n >= rate - current ==>
                  (rate - 3 <= e <= rate && (current >= rate ==> e == rate) && Smooth(e, rate as real) == e))
    decreases n
  {
    SmoothConstant(current, rate);
    if n > 0 {
      ConstantRateEstimate(Smooth(current, rate as real), rate, n - 1);
      if Smooth(current, rate as real) == current {
        StaysPut(current, rate, n);
      }
    }
  }

  lemma {:induction false} StaysPut(current: int, rate: int, n: nat)
    requires Smooth(current, rate as real) == current
    ensures Repeat(current, rate, n) == current
  {
    if n > 0 { StaysPut(current, rate, n - 1); }
  }

  /** Seven tenths to the power of `n`. */
  function Decay(n: nat): (d: real)
    ensures 0.0 < d <= 1.0
    decreases n
  {
    if n == 0 then 1.0 else 0.7 * Decay(n - 1)
  }

  /** One update, in tenths: seven of the old estimate and three of the rate. */
  lemma SmoothInTenths(current: int, instant: real)
    requires 0 <= current && 0.0 <= instant
    ensures var next := Smooth(current, instant) as real;
            && (current != 0 ==> 10.0 * next <= 7.0 * current as real + 3.0 * instant < 10.0 * next + 10.0)
            && (current == 0 ==> next <= instant < next + 1.0)
  {
  }

  /** What is left of a distance after `n` updates, truncation apart. */
  function Faded(n: nat, distance: real): real {
    Decay(n) * distance
  }

  lemma FadedOnce(n: nat, far: real, near: real)
    requires n > 0 && 0.7 * far - 1.0 <= near <= 0.7 * far
    ensures Faded(n, far) - Decay(n - 1) <= Faded(n - 1, near) <= Faded(n, far)
    ensures Decay(n) == 0.7 * Decay(n - 1)
  {
    hide Faded;
    FadedNext(n, far, 0.7 * far);
    FadedNear(n - 1, 0.7 * far, near);
  }

  lemma FadedNext(n: nat, far: real, nearest: real)
    requires n > 0 && nearest == 0.7 * far
    ensures Faded(n, far) == Faded(n - 1, nearest)
  {
    var d := Decay(n - 1);
    assert Faded(n, far) == 0.7 * (d * far);
    assert d * nearest == 0.7 * (d * far);
  }

  lemma FadedNear(n: nat, nearest: real, near: real)
    requires nearest - 1.0 <= near <= nearest
    ensures Faded(n, nearest) - Decay(n) <= Faded(n, near) <= Faded(n, nearest)
  {
    var d := Decay(n);
    assert Faded(n, near) == d * near && Faded(n, nearest) == d * nearest;
    hide Faded, Decay;
    Scale(d, near, nearest);
    AtMostOneBelow(d, nearest - 1.0, nearest, near);
  }

  lemma AtMostOneBelow(d: real, low: real, nearest: real, near: real)
    requires 0.0 < d && low == nearest - 1.0 && low <= near
    ensures d * nearest - d <= d * near
  {
    Scale(d, low, near);
    OneBelow(d, low, nearest);
  }

  lemma OneBelow(d: real, low: real, nearest: real)
    requires low == nearest - 1.0
    ensures d * low == d * nearest - d
  {
  }

  /** How fast it adapts: under a constant rate the distance falls to seven tenths
      with every update, but for what truncation takes off, which never adds up to
      more than ten thirds. (An estimate of zero jumps to the rate.) */
  lemma {:induction false} DistanceDecays(current: int, rate: int, n: nat)
    requires 0 <= current && 0 <= rate && (current == 0 ==> rate == 0)
    ensures var left, e := Faded(n, (current - rate) as real), (Repeat(current, rate, n) - rate) as real;
            left - 10.0 / 3.0 * (1.0 - Decay(n)) <= e <= left
    decreases n
  {
    if n > 0 {
      var next := Smooth(current, rate as real);
      SmoothInTenths(current, rate as real);
      hide Smooth, Faded, Decay;
      DistanceDecays(next, rate, n - 1);
      FadedOnce(n, (current - rate) as real, (next - rate) as real);
    }
  }
}
