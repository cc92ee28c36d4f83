/** Polynomials in time with real coefficients, lowest degree first.

    The theory's fundamental arguments are polynomials in Julian centuries, each
    given together with a closed-form rate.  This module defines what it means
    for the rate to be the derivative: the formal, term-by-term derivative of
    the coefficient sequence. */
module Polynomials {

  import opened Numerics

  /** Horner evaluation: `p[0] + t * (p[1] + t * (p[2] + ...))`. */
  function Eval(p: seq<real>, t: real): real
    decreases |p|
  {
    if |p| == 0 then 0.0 else p[0] + t * Eval(p[1..], t)
  }

  /** The formal derivative: coefficient `k` of the result is `(k + 1) * p[k + 1]`. */
  function Derivative(p: seq<real>): seq<real> {
    Weighted(if |p| == 0 then [] else p[1..], 1)
  }

  /** `[w * q[0], (w + 1) * q[1], (w + 2) * q[2], ...]`. */
  function Weighted(q: seq<real>, w: nat): (r: seq<real>)
    ensures |r| == |q|
    decreases |q|
  {
    if |q| == 0 then [] else [w as real * q[0]] + Weighted(q[1..], w + 1)
  }

  /** Coefficient `k` of the formal derivative is `(k + 1) * p[k + 1]`. */
  lemma {:induction false} DerivativeCoefficient(p: seq<real>, k: nat)
    requires k + 1 < |p|
    ensures Derivative(p)[k] == (k + 1) as real * p[k + 1]
  {
    WeightedCoefficient(p[1..], 1, k);
  }

  lemma {:induction false} WeightedCoefficient(q: seq<real>, w: nat, k: nat)
    requires k < |q|
    ensures Weighted(q, w)[k] == (k + w) as real * q[k]
    decreases k
  {
    if k > 0 {
      WeightedCoefficient(q[1..], w + 1, k - 1);
      assert (k - 1 + (w + 1)) == k + w;
    }
  }

  /** A polynomial and its derivative evaluated at `t`. */
  function PolyDual(p: seq<real>, t: real): Dual {
    Dual(Eval(p, t), Eval(Derivative(p), t))
  }
}
