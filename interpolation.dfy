/**
 * The two numeric primitives both scroll controllers are built from, over exact reals:
 * `clamp` of react-native-redash and `interpolate(x, [x0, x1], [y0, y1], Extrapolate.CLAMP)`
 * of react-native-reanimated.
 */
module Interpolation {

  function Min(a: real, b: real): (r: real)
    ensures r <= a && r <= b
    ensures r == a || r == b
  {
    if a <= b then a else b
  }

  function Max(a: real, b: real): (r: real)
    ensures r >= a && r >= b
    ensures r == a || r == b
  {
    if a >= b then a else b
  }

  /**
   * redash `clamp(value, lower, upper)`, which is `Math.min(Math.max(lower, value), upper)`.
   * With ordered bounds the result lies between them and is the value itself when the value
   * already does; with inverted bounds the upper bound wins.
   */
  function Clamp(value: real, lower: real, upper: real): (r: real)
    ensures r <= upper
    ensures lower <= upper ==> lower <= r
    ensures lower <= value <= upper ==> r == value
    ensures value <= lower <= upper ==> r == lower
    ensures value >= upper ==> r == upper
    ensures upper < lower ==> r == upper
  {
    Min(Max(lower, value), upper)
  }

  /** The unclamped straight line through (x0, y0) and (x1, y1). */
  function Linear(x: real, x0: real, x1: real, y0: real, y1: real): (y: real)
    requires x0 < x1
  {
    y0 + (x - x0) / (x1 - x0) * (y1 - y0)
  }

  /**
   * reanimated `interpolate(x, [x0, x1], [y0, y1], Extrapolate.CLAMP)` for an increasing input
   * range. The library computes the straight-line value and then clamps it to the output range
   * (towards y0 on one side, y1 on the other, whichever way the output runs).
   */
  function Interpolate(x: real, x0: real, x1: real, y0: real, y1: real): (r: real)
    requires x0 < x1
    ensures Min(y0, y1) <= r <= Max(y0, y1)
    ensures x <= x0 ==> r == y0
    ensures x >= x1 ==> r == y1
    ensures x0 <= x <= x1 ==> r == Linear(x, x0, x1, y0, y1)
  {
    LinearPlacement(x, x0, x1, y0, y1);
    var v := Linear(x, x0, x1, y0, y1);
    if y0 <= y1 then Clamp(v, y0, y1) else Clamp(v, y1, y0)
  }

  /** Where the straight line lies relative to the output range, on each part of the input axis. */
  lemma LinearPlacement(x: real, x0: real, x1: real, y0: real, y1: real)
    requires x0 < x1
    ensures x <= x0 && y0 <= y1 ==> Linear(x, x0, x1, y0, y1) <= y0
    ensures x <= x0 && y1 <= y0 ==> Linear(x, x0, x1, y0, y1) >= y0
    ensures x >= x1 && y0 <= y1 ==> Linear(x, x0, x1, y0, y1) >= y1
    ensures x >= x1 && y1 <= y0 ==> Linear(x, x0, x1, y0, y1) <= y1
    ensures x == x0 ==> Linear(x, x0, x1, y0, y1) == y0
    ensures x == x1 ==> Linear(x, x0, x1, y0, y1) == y1
    ensures x0 <= x <= x1 ==> Min(y0, y1) <= Linear(x, x0, x1, y0, y1) <= Max(y0, y1)
  {
    if x <= x0 {
      LinearBefore(x, x0, x1, y0, y1);
    }
    if x >= x1 {
      LinearAfter(x, x0, x1, y0, y1);
    }
    if x0 <= x <= x1 {
      LinearWithin(x, x0, x1, y0, y1);
    }
  }

  /** Before the input range the straight line lies beyond y0, on the side away from y1. */
  lemma LinearBefore(x: real, x0: real, x1: real, y0: real, y1: real)
    requires x0 < x1 && x <= x0
    ensures y0 <= y1 ==> Linear(x, x0, x1, y0, y1) <= y0
    ensures y1 <= y0 ==> Linear(x, x0, x1, y0, y1) >= y0
    ensures x == x0 ==> Linear(x, x0, x1, y0, y1) == y0
  {
    var p := (x - x0) / (x1 - x0);
    RatioBounds(x - x0, x1 - x0);
    ScaledSign(p, y1 - y0);
    assert Linear(x, x0, x1, y0, y1) == y0 + p * (y1 - y0);
  }

  /** After the input range the straight line lies beyond y1, on the side away from y0. */
  lemma LinearAfter(x: real, x0: real, x1: real, y0: real, y1: real)
    requires x0 < x1 && x >= x1
    ensures y0 <= y1 ==> Linear(x, x0, x1, y0, y1) >= y1
    ensures y1 <= y0 ==> Linear(x, x0, x1, y0, y1) <= y1
    ensures x == x1 ==> Linear(x, x0, x1, y0, y1) == y1
  {
    var p, d := (x - x0) / (x1 - x0), y1 - y0;
    RatioBounds(x - x0, x1 - x0);
    assert Linear(x, x0, x1, y0, y1) == y1 + (p - 1.0) * d;
    ScaledSign(1.0 - p, d);
    assert (p - 1.0) * d == -((1.0 - p) * d);
    if x == x1 {
      assert p == 1.0;
    }
  }

  /** Inside the input range the straight line stays between y0 and y1. */
  lemma LinearWithin(x: real, x0: real, x1: real, y0: real, y1: real)
    requires x0 <= x <= x1 && x0 < x1
    ensures y0 <= y1 ==> y0 <= Linear(x, x0, x1, y0, y1) <= y1
    ensures y1 <= y0 ==> y1 <= Linear(x, x0, x1, y0, y1) <= y0
  {
    var p := (x - x0) / (x1 - x0);
    RatioBounds(x - x0, x1 - x0);
    ScaledWithin(p, y1 - y0);
    assert Linear(x, x0, x1, y0, y1) == y0 + p * (y1 - y0);
  }

  /** Where the ratio a / w falls, for a positive w, relative to 0 and 1. */
  lemma RatioBounds(a: real, w: real)
    requires w > 0.0
    ensures a <= 0.0 ==> a / w <= 0.0
    ensures a >= 0.0 ==> a / w >= 0.0
    ensures a >= w ==> a / w >= 1.0
    ensures a <= w ==> a / w <= 1.0
  {
  }

  lemma ScaledSign(p: real, d: real)
    requires p <= 0.0
    ensures d >= 0.0 ==> p * d <= 0.0
    ensures d <= 0.0 ==> p * d >= 0.0
  {
  }

  lemma ScaledWithin(p: real, d: real)
    requires 0.0 <= p <= 1.0
    ensures d >= 0.0 ==> 0.0 <= p * d <= d
    ensures d <= 0.0 ==> d <= p * d <= 0.0
  {
    assert d - p * d == (1.0 - p) * d;
  }

  /**
   * A clamped interpolation with a rising output never decreases as its input grows, and one
   * with a falling output never increases.
   */
  lemma InterpolateMonotone(x: real, x': real, x0: real, x1: real, y0: real, y1: real)
    requires x0 < x1 && x <= x'
    ensures y0 <= y1 ==> Interpolate(x, x0, x1, y0, y1) <= Interpolate(x', x0, x1, y0, y1)
    ensures y1 <= y0 ==> Interpolate(x, x0, x1, y0, y1) >= Interpolate(x', x0, x1, y0, y1)
  {
    if x0 < x && x' < x1 {
      LinearMonotone(x, x', x0, x1, y0, y1);
    }
  }

  /** The straight line rises with x when y1 is above y0 and falls when it is below. */
  lemma LinearMonotone(x: real, x': real, x0: real, x1: real, y0: real, y1: real)
    requires x0 < x1 && x <= x'
    ensures y0 <= y1 ==> Linear(x, x0, x1, y0, y1) <= Linear(x', x0, x1, y0, y1)
    ensures y1 <= y0 ==> Linear(x, x0, x1, y0, y1) >= Linear(x', x0, x1, y0, y1)
  {
    var w, d := x1 - x0, y1 - y0;
    var p, p' := (x - x0) / w, (x' - x0) / w;
    assert p * w == x - x0 && p' * w == x' - x0;
    assert (p' - p) * w == x' - x;
    RatioBounds((p' - p) * w, w);
    assert (p' - p) * w / w == p' - p;
    ScaledSign(p - p', d);
    assert Linear(x', x0, x1, y0, y1) - Linear(x, x0, x1, y0, y1) == p' * d - p * d;
  }
}
