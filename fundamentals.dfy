/** The fundamental arguments of the theory: mean longitudes and anomalies as
    polynomials in `t`, Julian centuries since J2000, in arcseconds, each
    returned with its rate in arcseconds per Julian century.

    Every function below is written as the evaluators write it: the value
    expression and the hand-written rate expression.  The main problem
    (tables 1-3) uses the full polynomials, every other table the same
    arguments truncated after the linear term; the planetary longitudes are
    linear only.  The lemmas show that each hand-written rate is the formal
    derivative of its value polynomial, and that the truncated arguments are the
    first two terms of the full ones. */
module FundamentalArguments {

  import opened Numerics
  import opened Polynomials

  /** Precession constant in J2000, arcseconds per Julian century. */
  const PRECESSION: real := 5029.0966

  // Coefficients, lowest degree first.

  const ELONGATION: seq<real> :=
    [297.0 * 3600.0 + 51.0 * 60.0 + 0.73512, 1602961601.4603, -5.8681, 0.006595, -0.00003184]
  const SUN_ANOMALY: seq<real> :=
    [357.0 * 3600.0 + 31.0 * 60.0 + 44.79306, 129596581.0474, -0.5529, 0.000147]
  const MOON_ANOMALY: seq<real> :=
    [134.0 * 3600.0 + 57.0 * 60.0 + 48.28096, 1717915923.4728, 32.3893, 0.051651, -0.00024471]
  const LATITUDE_ARGUMENT: seq<real> :=
    [93.0 * 3600.0 + 16.0 * 60.0 + 19.55755, 1739527263.0983, -12.2505, -0.001021, 0.00000417]
  const MEAN_LONGITUDE: seq<real> :=
    [218.0 * 3600.0 + 18.0 * 60.0 + 59.95571, 1732559343.73604, -5.8883, 0.006604, -0.00003169]

  /** The Moon's mean longitude with precession: W1 + p * t. */
  const PRECESSED_LONGITUDE: seq<real> :=
    [218.0 * 3600.0 + 18.0 * 60.0 + 59.95571, 1732559343.73604 + PRECESSION, -5.8883, 0.006604, -0.00003169]

  const EMB_LONGITUDE: seq<real> := [100.0 * 3600.0 + 27.0 * 60.0 + 59.22059, 129597742.2758]
  const MERCURY: seq<real> := [252.0 * 3600.0 + 15.0 * 60.0 + 3.25986, 538101628.68898]
  const VENUS: seq<real> := [181.0 * 3600.0 + 58.0 * 60.0 + 47.28305, 210664136.43355]
  const MARS: seq<real> := [355.0 * 3600.0 + 25.0 * 60.0 + 59.78866, 68905077.59284]
  const JUPITER: seq<real> := [34.0 * 3600.0 + 21.0 * 60.0 + 5.34212, 10925660.42861]
  const SATURN: seq<real> := [50.0 * 3600.0 + 4.0 * 60.0 + 38.89694, 4399609.65932]
  const URANUS: seq<real> := [314.0 * 3600.0 + 3.0 * 60.0 + 18.01841, 1542481.19393]
  /** The constant term is reproduced as written: 304 * 3600 + 20 + 60 + 55.19575. */
  const NEPTUNE: seq<real> := [304.0 * 3600.0 + 20.0 + 60.0 + 55.19575, 786550.32074]

  // Full-precision arguments of the main problem.

  /** D, the Moon's mean elongation from the Sun. */
  function Elongation(t: real): Dual {
    Dual(297.0 * 3600.0 + 51.0 * 60.0 + 0.73512 + 1602961601.4603 * t - 5.8681 * (t * t)
           + 0.006595 * (t * t * t) - 0.00003184 * (t * t * t * t),
         1602961601.4603 - 5.8681 * 2.0 * t + 0.006595 * 3.0 * (t * t) - 0.00003184 * 4.0 * (t * t * t))
  }

  /** l', the Sun's mean anomaly. */
  function SunAnomaly(t: real): Dual {
    Dual(357.0 * 3600.0 + 31.0 * 60.0 + 44.79306 + 129596581.0474 * t - 0.5529 * (t * t) + 0.000147 * (t * t * t),
         129596581.0474 - 0.5529 * 2.0 * t + 0.000147 * 3.0 * (t * t))
  }

  /** l, the Moon's mean anomaly. */
  function MoonAnomaly(t: real): Dual {
    Dual(134.0 * 3600.0 + 57.0 * 60.0 + 48.28096 + 1717915923.4728 * t + 32.3893 * (t * t)
           + 0.051651 * (t * t * t) - 0.00024471 * (t * t * t * t),
         1717915923.4728 + 32.3893 * 2.0 * t + 0.051651 * 3.0 * (t * t) - 0.00024471 * 4.0 * (t * t * t))
  }

  /** F, the Moon's argument of latitude. */
  function LatitudeArgument(t: real): Dual {
    Dual(93.0 * 3600.0 + 16.0 * 60.0 + 19.55755 + 1739527263.0983 * t - 12.2505 * (t * t)
           - 0.001021 * (t * t * t) + 0.00000417 * (t * t * t * t),
         1739527263.0983 - 12.2505 * 2.0 * t - 0.001021 * 3.0 * (t * t) + 0.00000417 * 4.0 * (t * t * t))
  }

  /** W1, the Moon's mean longitude. */
  function MeanLongitude(t: real): Dual {
    Dual(218.0 * 3600.0 + 18.0 * 60.0 + 59.95571 + 1732559343.73604 * t - 5.8883 * (t * t)
           + 0.006604 * (t * t * t) - 0.00003169 * (t * t * t * t),
         1732559343.73604 - 5.8883 * 2.0 * t + 0.006604 * 3.0 * (t * t) - 0.00003169 * 4.0 * (t * t * t))
  }

  /** z = W1 + p * t, with dz = dW1 + p. */
  function PrecessedLongitude(t: real): Dual {
    var w1 := MeanLongitude(t);
    Dual(w1.value + PRECESSION * t, w1.derivative + PRECESSION)
  }

  // Arguments truncated after the linear term.

  function ElongationLinear(t: real): Dual {
    Dual(297.0 * 3600.0 + 51.0 * 60.0 + 0.73512 + 1602961601.4603 * t, 1602961601.4603)
  }

  function SunAnomalyLinear(t: real): Dual {
    Dual(357.0 * 3600.0 + 31.0 * 60.0 + 44.79306 + 129596581.0474 * t, 129596581.0474)
  }

  function MoonAnomalyLinear(t: real): Dual {
    Dual(134.0 * 3600.0 + 57.0 * 60.0 + 48.28096 + 1717915923.4728 * t, 1717915923.4728)
  }

  function LatitudeArgumentLinear(t: real): Dual {
    Dual(93.0 * 3600.0 + 16.0 * 60.0 + 19.55755 + 1739527263.0983 * t, 1739527263.0983)
  }

  /** T, the mean longitude of the Earth-Moon barycentre. */
  function EmbLongitude(t: real): Dual {
    Dual(100.0 * 3600.0 + 27.0 * 60.0 + 59.22059 + 129597742.2758 * t, 129597742.2758)
  }

  function Mercury(t: real): Dual {
    Dual(252.0 * 3600.0 + 15.0 * 60.0 + 3.25986 + 538101628.68898 * t, 538101628.68898)
  }

  function Venus(t: real): Dual {
    Dual(181.0 * 3600.0 + 58.0 * 60.0 + 47.28305 + 210664136.43355 * t, 210664136.43355)
  }

  function Mars(t: real): Dual {
    Dual(355.0 * 3600.0 + 25.0 * 60.0 + 59.78866 + 68905077.59284 * t, 68905077.59284)
  }

  function Jupiter(t: real): Dual {
    Dual(34.0 * 3600.0 + 21.0 * 60.0 + 5.34212 + 10925660.42861 * t, 10925660.42861)
  }

  function Saturn(t: real): Dual {
    Dual(50.0 * 3600.0 + 4.0 * 60.0 + 38.89694 + 4399609.65932 * t, 4399609.65932)
  }

  function Uranus(t: real): Dual {
    Dual(314.0 * 3600.0 + 3.0 * 60.0 + 18.01841 + 1542481.19393 * t, 1542481.19393)
  }

  function Neptune(t: real): Dual {
    Dual(304.0 * 3600.0 + 20.0 + 60.0 + 55.19575 + 786550.32074 * t, 786550.32074)
  }

  // Polynomial identities for literal coefficient sequences.

  lemma EvalCons(c: real, q: seq<real>, t: real)
    ensures Eval([c] + q, t) == c + t * Eval(q, t)
  {
    assert ([c] + q)[1..] == q;
  }

  lemma EvalQuartic(c0: real, c1: real, c2: real, c3: real, c4: real, t: real)
    ensures Eval([c0, c1, c2, c3, c4], t) == c0 + c1 * t + c2 * (t * t) + c3 * (t * t * t) + c4 * (t * t * t * t)
    ensures Eval(Derivative([c0, c1, c2, c3, c4]), t) == c1 + c2 * 2.0 * t + c3 * 3.0 * (t * t) + c4 * 4.0 * (t * t * t)
  {
    HornerFour(c0, c1, c2, c3, c4, t);
    DerivativeOfFive(c0, c1, c2, c3, c4);
    HornerThree(c1, 2.0 * c2, 3.0 * c3, 4.0 * c4, t);
    Polynomial4(c0, c1, c2, c3, c4, t, Eval([c0, c1, c2, c3, c4], t), Eval([c1, 2.0 * c2, 3.0 * c3, 4.0 * c4], t));
  }

  lemma DerivativeOfFive(c0: real, c1: real, c2: real, c3: real, c4: real)
    ensures Derivative([c0, c1, c2, c3, c4]) == [c1, 2.0 * c2, 3.0 * c3, 4.0 * c4]
  {
    var p := [c0, c1, c2, c3, c4];
    DerivativeCoefficient(p, 0);
    DerivativeCoefficient(p, 1);
    DerivativeCoefficient(p, 2);
    DerivativeCoefficient(p, 3);
    var d := Derivative(p);
    assert |d| == 4 && d[0] == c1 && d[1] == 2.0 * c2 && d[2] == 3.0 * c3 && d[3] == 4.0 * c4;
  }

  lemma DerivativeOfFour(c0: real, c1: real, c2: real, c3: real)
    ensures Derivative([c0, c1, c2, c3]) == [c1, 2.0 * c2, 3.0 * c3]
  {
    var p := [c0, c1, c2, c3];
    DerivativeCoefficient(p, 0);
    DerivativeCoefficient(p, 1);
    DerivativeCoefficient(p, 2);
    var d := Derivative(p);
    assert |d| == 3 && d[0] == c1 && d[1] == 2.0 * c2 && d[2] == 3.0 * c3;
  }

  /** Horner evaluation of five literal coefficients. */
  lemma HornerFour(c0: real, c1: real, c2: real, c3: real, c4: real, t: real)
    ensures Eval([c0, c1, c2, c3, c4], t) == c0 + t * (c1 + t * (c2 + t * (c3 + t * c4)))
  {
    assert [c4] == [c4] + [];
    EvalCons(c4, [], t);
    assert [c3, c4] == [c3] + [c4];
    EvalCons(c3, [c4], t);
    assert [c2, c3, c4] == [c2] + [c3, c4];
    EvalCons(c2, [c3, c4], t);
    assert [c1, c2, c3, c4] == [c1] + [c2, c3, c4];
    EvalCons(c1, [c2, c3, c4], t);
    assert [c0, c1, c2, c3, c4] == [c0] + [c1, c2, c3, c4];
    EvalCons(c0, [c1, c2, c3, c4], t);
  }

  /** Horner evaluation of four literal coefficients. */
  lemma HornerThree(c0: real, c1: real, c2: real, c3: real, t: real)
    ensures Eval([c0, c1, c2, c3], t) == c0 + t * (c1 + t * (c2 + t * c3))
  {
    assert [c3] == [c3] + [];
    EvalCons(c3, [], t);
    assert [c2, c3] == [c2] + [c3];
    EvalCons(c2, [c3], t);
    assert [c1, c2, c3] == [c1] + [c2, c3];
    EvalCons(c1, [c2, c3], t);
    assert [c0, c1, c2, c3] == [c0] + [c1, c2, c3];
    EvalCons(c0, [c1, c2, c3], t);
  }

  lemma Polynomial4(c0: real, c1: real, c2: real, c3: real, c4: real, t: real, v: real, d: real)
    requires v == c0 + t * (c1 + t * (c2 + t * (c3 + t * c4)))
    requires d == c1 + t * (2.0 * c2 + t * (3.0 * c3 + t * (4.0 * c4)))
    ensures v == c0 + c1 * t + c2 * (t * t) + c3 * (t * t * t) + c4 * (t * t * t * t)
    ensures d == c1 + c2 * 2.0 * t + c3 * 3.0 * (t * t) + c4 * 4.0 * (t * t * t)
  {}

  lemma EvalCubic(c0: real, c1: real, c2: real, c3: real, t: real)
    ensures Eval([c0, c1, c2, c3], t) == c0 + c1 * t + c2 * (t * t) + c3 * (t * t * t)
    ensures Eval(Derivative([c0, c1, c2, c3]), t) == c1 + c2 * 2.0 * t + c3 * 3.0 * (t * t)
  {
    HornerThree(c0, c1, c2, c3, t);
    DerivativeOfFour(c0, c1, c2, c3);
    var d := [c1, 2.0 * c2, 3.0 * c3];
    assert [3.0 * c3] == [3.0 * c3] + [];
    EvalCons(3.0 * c3, [], t);
    assert [2.0 * c2, 3.0 * c3] == [2.0 * c2] + [3.0 * c3];
    EvalCons(2.0 * c2, [3.0 * c3], t);
    assert d == [c1] + [2.0 * c2, 3.0 * c3];
    EvalCons(c1, [2.0 * c2, 3.0 * c3], t);
    Polynomial3(c0, c1, c2, c3, t, Eval([c0, c1, c2, c3], t), Eval(d, t));
  }

  lemma Polynomial3(c0: real, c1: real, c2: real, c3: real, t: real, v: real, d: real)
    requires v == c0 + t * (c1 + t * (c2 + t * c3))
    requires d == c1 + t * (2.0 * c2 + t * (3.0 * c3 + t * 0.0))
    ensures v == c0 + c1 * t + c2 * (t * t) + c3 * (t * t * t)
    ensures d == c1 + c2 * 2.0 * t + c3 * 3.0 * (t * t)
  {}

  lemma EvalLinear(c0: real, c1: real, t: real)
    ensures Eval([c0, c1], t) == c0 + c1 * t
    ensures Eval(Derivative([c0, c1]), t) == c1
  {
    assert [c1] == [c1] + [];
    EvalCons(c1, [], t);
    assert [c0, c1] == [c0] + [c1];
    EvalCons(c0, [c1], t);
    var d := Derivative([c0, c1]);
    assert |d| == 1 && d[0] == c1;
    assert d == [c1] + [];
    EvalCons(c1, [], t);
  }

  /** Each full-precision argument is its coefficient polynomial, and its
      hand-written rate is the formal derivative of that polynomial. */
  lemma FullArgumentsArePolynomials(t: real)
    ensures Elongation(t) == PolyDual(ELONGATION, t)
    ensures SunAnomaly(t) == PolyDual(SUN_ANOMALY, t)
    ensures MoonAnomaly(t) == PolyDual(MOON_ANOMALY, t)
    ensures LatitudeArgument(t) == PolyDual(LATITUDE_ARGUMENT, t)
    ensures MeanLongitude(t) == PolyDual(MEAN_LONGITUDE, t)
    ensures PrecessedLongitude(t) == PolyDual(PRECESSED_LONGITUDE, t)
  {
    ElongationIsPolynomial(t);
    SunAnomalyIsPolynomial(t);
    MoonAnomalyIsPolynomial(t);
    LatitudeArgumentIsPolynomial(t);
    MeanLongitudeIsPolynomial(t);
    PrecessedLongitudeIsPolynomial(t);
  }

  lemma ElongationIsPolynomial(t: real)
    ensures Elongation(t) == PolyDual(ELONGATION, t)
  {
    EvalQuartic(297.0 * 3600.0 + 51.0 * 60.0 + 0.73512, 1602961601.4603, -5.8681, 0.006595, -0.00003184, t);
  }

  lemma SunAnomalyIsPolynomial(t: real)
    ensures SunAnomaly(t) == PolyDual(SUN_ANOMALY, t)
  {
    EvalCubic(357.0 * 3600.0 + 31.0 * 60.0 + 44.79306, 129596581.0474, -0.5529, 0.000147, t);
  }

  lemma MoonAnomalyIsPolynomial(t: real)
    ensures MoonAnomaly(t) == PolyDual(MOON_ANOMALY, t)
  {
    EvalQuartic(134.0 * 3600.0 + 57.0 * 60.0 + 48.28096, 1717915923.4728, 32.3893, 0.051651, -0.00024471, t);
  }

  lemma LatitudeArgumentIsPolynomial(t: real)
    ensures LatitudeArgument(t) == PolyDual(LATITUDE_ARGUMENT, t)
  {
    EvalQuartic(93.0 * 3600.0 + 16.0 * 60.0 + 19.55755, 1739527263.0983, -12.2505, -0.001021, 0.00000417, t);
  }

  lemma MeanLongitudeIsPolynomial(t: real)
    ensures MeanLongitude(t) == PolyDual(MEAN_LONGITUDE, t)
  {
    EvalQuartic(218.0 * 3600.0 + 18.0 * 60.0 + 59.95571, 1732559343.73604, -5.8883, 0.006604, -0.00003169, t);
  }

  /** z = W1 + p * t is a polynomial too, and dz = dW1 + p is its derivative. */
  lemma PrecessedLongitudeIsPolynomial(t: real)
    ensures PrecessedLongitude(t) == PolyDual(PRECESSED_LONGITUDE, t)
  {
    EvalQuartic(218.0 * 3600.0 + 18.0 * 60.0 + 59.95571, 1732559343.73604 + PRECESSION, -5.8883, 0.006604, -0.00003169, t);
  }

  /** The truncated arguments are the constant and linear terms of the full
      ones, and their rates are constant: the derivative of the truncation. */
  lemma LinearArgumentsAreTruncations(t: real)
    ensures ElongationLinear(t) == PolyDual(ELONGATION[..2], t)
    ensures SunAnomalyLinear(t) == PolyDual(SUN_ANOMALY[..2], t)
    ensures MoonAnomalyLinear(t) == PolyDual(MOON_ANOMALY[..2], t)
    ensures LatitudeArgumentLinear(t) == PolyDual(LATITUDE_ARGUMENT[..2], t)
  {
    assert ELONGATION[..2] == [297.0 * 3600.0 + 51.0 * 60.0 + 0.73512, 1602961601.4603];
    assert SUN_ANOMALY[..2] == [357.0 * 3600.0 + 31.0 * 60.0 + 44.79306, 129596581.0474];
    assert MOON_ANOMALY[..2] == [134.0 * 3600.0 + 57.0 * 60.0 + 48.28096, 1717915923.4728];
    assert LATITUDE_ARGUMENT[..2] == [93.0 * 3600.0 + 16.0 * 60.0 + 19.55755, 1739527263.0983];
    EvalLinear(297.0 * 3600.0 + 51.0 * 60.0 + 0.73512, 1602961601.4603, t);
    EvalLinear(357.0 * 3600.0 + 31.0 * 60.0 + 44.79306, 129596581.0474, t);
    EvalLinear(134.0 * 3600.0 + 57.0 * 60.0 + 48.28096, 1717915923.4728, t);
    EvalLinear(93.0 * 3600.0 + 16.0 * 60.0 + 19.55755, 1739527263.0983, t);
  }

  /** The planetary longitudes are linear polynomials with constant rates. */
  lemma PlanetaryArgumentsAreLinear(t: real)
    ensures EmbLongitude(t) == PolyDual(EMB_LONGITUDE, t)
    ensures Mercury(t) == PolyDual(MERCURY, t)
    ensures Venus(t) == PolyDual(VENUS, t)
    ensures Mars(t) == PolyDual(MARS, t)
    ensures Jupiter(t) == PolyDual(JUPITER, t)
    ensures Saturn(t) == PolyDual(SATURN, t)
    ensures Uranus(t) == PolyDual(URANUS, t)
    ensures Neptune(t) == PolyDual(NEPTUNE, t)
  {
    EvalLinear(100.0 * 3600.0 + 27.0 * 60.0 + 59.22059, 129597742.2758, t);
    EvalLinear(252.0 * 3600.0 + 15.0 * 60.0 + 3.25986, 538101628.68898, t);
    EvalLinear(181.0 * 3600.0 + 58.0 * 60.0 + 47.28305, 210664136.43355, t);
    EvalLinear(355.0 * 3600.0 + 25.0 * 60.0 + 59.78866, 68905077.59284, t);
    EvalLinear(34.0 * 3600.0 + 21.0 * 60.0 + 5.34212, 10925660.42861, t);
    EvalLinear(50.0 * 3600.0 + 4.0 * 60.0 + 38.89694, 4399609.65932, t);
    EvalLinear(314.0 * 3600.0 + 3.0 * 60.0 + 18.01841, 1542481.19393, t);
    EvalLinear(304.0 * 3600.0 + 20.0 + 60.0 + 55.19575, 786550.32074, t);
  }

  /** The Neptune constant as written differs from 304 degrees 20 minutes
      55.19575 seconds, which would be 304 * 3600 + 20 * 60 + 55.19575. */
  lemma NeptuneConstantAsWritten()
    ensures NEPTUNE[0] == 1094535.19575
    ensures NEPTUNE[0] != 304.0 * 3600.0 + 20.0 * 60.0 + 55.19575
  {}
}
