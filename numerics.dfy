/** Exact numeric primitives of the model.

    Numbers are `real`s.  The trigonometric functions and pi are uninterpreted:
    they are carried in a `Trig` value, so that every claim below holds for
    whatever sine, cosine and pi an implementation uses.

    A pair (value, derivative) is a dual number: adding, scaling and multiplying
    pairs by the sum and product rules, and passing them through `Sin` and `Cos`
    by the chain rule, gives the reference against which the hand-written
    derivative formulas of the theory are proved. */
module Numerics {

  type Positive = x: real | x > 0.0 witness 1.0

  datatype Option<T> = None | Some(value: T)

  /** The trigonometric primitives: `sin` and `cos` on radians, and pi. */
  datatype Trig = Trig(sin: real -> real, cos: real -> real, pi: Positive)

  /** Degrees to radians, written as `deg / 180 * pi`: the angle in radians
      is to pi as the angle in degrees is to 180. */
  function Deg2Rad(deg: real, trig: Trig): (rad: real)
    ensures rad * 180.0 == deg * trig.pi
  {
    deg / 180.0 * trig.pi
  }

  /** 180 degrees are pi radians, and the conversion is linear. */
  lemma Deg2RadScales(a: real, b: real, c: real, trig: Trig)
    ensures Deg2Rad(180.0, trig) == trig.pi
    ensures Deg2Rad(a + b, trig) == Deg2Rad(a, trig) + Deg2Rad(b, trig)
    ensures Deg2Rad(c * a, trig) == c * Deg2Rad(a, trig)
  {
  }

  /** A quantity together with its rate of change with respect to time. */
  datatype Dual = Dual(value: real, derivative: real)

  function Zero(): Dual { Dual(0.0, 0.0) }

  /** A quantity that does not change with time. */
  function Constant(c: real): Dual { Dual(c, 0.0) }

  /** Time itself: its derivative with respect to time is 1. */
  function Variable(t: real): Dual { Dual(t, 1.0) }

  /** Sum rule. */
  function Add(a: Dual, b: Dual): Dual {
    Dual(a.value + b.value, a.derivative + b.derivative)
  }

  /** Multiplication by a constant factor. */
  function ScaleBy(c: real, a: Dual): Dual {
    Dual(c * a.value, c * a.derivative)
  }

  /** Product rule. */
  function Mul(a: Dual, b: Dual): Dual {
    Dual(a.value * b.value, a.derivative * b.value + a.value * b.derivative)
  }

  /** Chain rule for sine. */
  function Sin(a: Dual, trig: Trig): Dual {
    Dual(trig.sin(a.value), trig.cos(a.value) * a.derivative)
  }

  /** Chain rule for cosine. */
  function Cos(a: Dual, trig: Trig): Dual {
    Dual(trig.cos(a.value), -trig.sin(a.value) * a.derivative)
  }

  /** Arcseconds to degrees, applied to a quantity and its rate. */
  function ArcsecondsToDegrees(a: Dual): Dual {
    Dual(a.value / 3600.0, a.derivative / 3600.0)
  }

  /** Degrees to radians, applied to a quantity and its rate. */
  function RadiansOf(a: Dual, trig: Trig): Dual {
    Dual(Deg2Rad(a.value, trig), Deg2Rad(a.derivative, trig))
  }

  /** The integer linear combination `m[0] * xs[0] + ... + m[n-1] * xs[n-1]`,
      accumulated left to right. */
  function Combine(m: seq<int>, xs: seq<Dual>): Dual
    requires |m| == |xs|
    decreases |m|
  {
    if |m| == 0 then Zero()
    else
      var n := |m| - 1;
      Add(Combine(m[..n], xs[..n]), ScaleBy(m[n] as real, xs[n]))
  }

  /** The linear combination taken separately on values and on rates: the rate of
      the combination uses exactly the multipliers of the value. */
  lemma {:induction false} CombineComponents(m: seq<int>, xs: seq<Dual>)
    requires |m| == |xs|
    ensures Combine(m, xs).value == CombineReals(m, Values(xs))
    ensures Combine(m, xs).derivative == CombineReals(m, Derivatives(xs))
    decreases |m|
  {
    if |m| > 0 {
      var n := |m| - 1;
      CombineComponents(m[..n], xs[..n]);
      assert Values(xs)[..n] == Values(xs[..n]);
      assert Derivatives(xs)[..n] == Derivatives(xs[..n]);
    }
  }

  function Values(xs: seq<Dual>): (vs: seq<real>)
    ensures |vs| == |xs|
  {
    seq(|xs|, k requires 0 <= k < |xs| => xs[k].value)
  }

  function Derivatives(xs: seq<Dual>): (ds: seq<real>)
    ensures |ds| == |xs|
  {
    seq(|xs|, k requires 0 <= k < |xs| => xs[k].derivative)
  }

  /** `m[0] * xs[0] + ... + m[n-1] * xs[n-1]` on plain reals. */
  function CombineReals(m: seq<int>, xs: seq<real>): real
    requires |m| == |xs|
    decreases |m|
  {
    if |m| == 0 then 0.0
    else
      var n := |m| - 1;
      CombineReals(m[..n], xs[..n]) + m[n] as real * xs[n]
  }
}
