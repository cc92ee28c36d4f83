/** The series evaluators: for each table, the sum over its terms of
    `A * sin(arg)` (or `A * cos(arg)` for table 3), together with its rate.

    Each term's argument is an integer combination of fundamental arguments in
    arcseconds, turned into degrees, shifted by the term's phase (all tables but
    1-3) and turned into radians; the rate of the argument is the same
    combination of the arguments' rates.  One argument rule exists per
    evaluator of the theory:

    - `MainProblem`, tables 1-3: D, l', l, F in full precision; no phase.
    - `EarthFigure`, tables 4-9: W1 + p t, then D, l', l, F truncated.
    - `PlanetaryTable1`, tables 10-15: Me, V, T, Ma, J, S, U, N, D, l, F.
    - `PlanetaryTable2`, tables 16-21: Me, V, T, Ma, J, S, U, D, l', l, F.
    - `Secondary`, tables 22-36: D, l', l, F truncated; the first multiplier
      is not used.

    The reference semantics is a function on dual numbers (`Series`); the
    methods `Calc1To3` ... `Calc22To36` accumulate the sums in a loop with the
    literal expressions of the evaluators, and are proved to compute it. */
module Series {

  import opened Numerics
  import opened Records
  import opened Polynomials
  import opened FundamentalArguments

  datatype Rule = MainProblem | EarthFigure | PlanetaryTable1 | PlanetaryTable2 | Secondary

  /** The record carries every field that the rule reads. */
  predicate HasKeys(rule: Rule, k: Record) {
    match rule
    case MainProblem => true
    case EarthFigure => !k.MainTerm?
    case PlanetaryTable1 => k.PlanetaryTerm?
    case PlanetaryTable2 => k.PlanetaryTerm?
    case Secondary => !k.MainTerm?
  }

  predicate AllHaveKeys(rule: Rule, terms: seq<Record>) {
    forall j :: 0 <= j < |terms| ==> HasKeys(rule, terms[j])
  }

  /** The multipliers the rule reads from a record, in the order of its arguments. */
  function RuleMultipliers(rule: Rule, k: Record): (m: seq<int>)
    requires HasKeys(rule, k)
    ensures |m| == ArgumentCount(rule)
  {
    match rule
    case MainProblem => [k.i1, k.i2, k.i3, k.i4]
    case EarthFigure => [k.i1, k.i2, k.i3, k.i4, k.i5]
    case PlanetaryTable1 => [k.i1, k.i2, k.i3, k.i4, k.i5, k.i6, k.i7, k.i8, k.i9, k.i10, k.i11]
    case PlanetaryTable2 => [k.i1, k.i2, k.i3, k.i4, k.i5, k.i6, k.i7, k.i8, k.i9, k.i10, k.i11]
    case Secondary => [k.i2, k.i3, k.i4, k.i5]
  }

  /** The number of fundamental arguments a rule combines. */
  function ArgumentCount(rule: Rule): nat {
    match rule
    case MainProblem => 4
    case EarthFigure => 5
    case PlanetaryTable1 => 11
    case PlanetaryTable2 => 11
    case Secondary => 4
  }

  /** The fundamental arguments of a rule at time `t`, with their rates. */
  function Arguments(rule: Rule, t: real): (args: seq<Dual>)
    ensures |args| == ArgumentCount(rule)
  {
    match rule
    case MainProblem =>
      [PolyDual(ELONGATION, t), PolyDual(SUN_ANOMALY, t), PolyDual(MOON_ANOMALY, t), PolyDual(LATITUDE_ARGUMENT, t)]
    case EarthFigure =>
      [PrecessedLongitude(t), ElongationLinear(t), SunAnomalyLinear(t), MoonAnomalyLinear(t), LatitudeArgumentLinear(t)]
    case PlanetaryTable1 =>
      [Mercury(t), Venus(t), EmbLongitude(t), Mars(t), Jupiter(t), Saturn(t), Uranus(t), Neptune(t),
       ElongationLinear(t), MoonAnomalyLinear(t), LatitudeArgumentLinear(t)]
    case PlanetaryTable2 =>
      [Mercury(t), Venus(t), EmbLongitude(t), Mars(t), Jupiter(t), Saturn(t), Uranus(t),
       ElongationLinear(t), SunAnomalyLinear(t), MoonAnomalyLinear(t), LatitudeArgumentLinear(t)]
    case Secondary => [ElongationLinear(t), SunAnomalyLinear(t), MoonAnomalyLinear(t), LatitudeArgumentLinear(t)]
  }

  /** Table 3 (index 2) is a cosine series; every other table a sine series. */
  predicate IsCosineTable(rule: Rule, fileIdx: nat) {
    rule == MainProblem && fileIdx == 2
  }

  /** The argument of a term in radians, with its rate: the combination in
      arcseconds, then degrees, plus the phase except for the main problem. */
  function Angle(rule: Rule, k: Record, args: seq<Dual>, trig: Trig): Dual
    requires HasKeys(rule, k) && |args| == ArgumentCount(rule)
  {
    var degrees := ArcsecondsToDegrees(Combine(RuleMultipliers(rule, k), args));
    RadiansOf(if rule == MainProblem then degrees else Add(degrees, Constant(k.ph)), trig)
  }

  /** The contribution of one term: its amplitude times the sine (or cosine) of
      its argument, with the rate given by the chain rule. */
  function Contribution(rule: Rule, fileIdx: nat, k: Record, args: seq<Dual>, trig: Trig): Dual
    requires HasKeys(rule, k) && |args| == ArgumentCount(rule)
  {
    Wave(k.a, IsCosineTable(rule, fileIdx), Angle(rule, k, args, trig), trig)
  }

  /** `a * cos(angle)` or `a * sin(angle)`, with its rate by the chain rule. */
  function Wave(a: real, cosine: bool, angle: Dual, trig: Trig): Dual {
    ScaleBy(a, if cosine then Cos(angle, trig) else Sin(angle, trig))
  }

  /** The contributions of `terms`, one per term. */
  function Contributions(rule: Rule, fileIdx: nat, terms: seq<Record>, args: seq<Dual>, trig: Trig): (cs: seq<Dual>)
    requires AllHaveKeys(rule, terms) && |args| == ArgumentCount(rule)
    ensures |cs| == |terms|
  {
    seq(|terms|, j requires 0 <= j < |terms| => Contribution(rule, fileIdx, terms[j], args, trig))
  }

  /** `xs[0] + xs[1] + ... + xs[n - 1]`, accumulated first to last. */
  function Sum(xs: seq<Dual>): Dual
    decreases |xs|
  {
    if |xs| == 0 then Zero() else Add(Sum(xs[..|xs| - 1]), xs[|xs| - 1])
  }

  /** The series of a table: the sum of its terms' contributions. */
  function Series(rule: Rule, fileIdx: nat, terms: seq<Record>, args: seq<Dual>, trig: Trig): Dual
    requires AllHaveKeys(rule, terms) && |args| == ArgumentCount(rule)
  {
    Sum(Contributions(rule, fileIdx, terms, args, trig))
  }

  /** The series of a table at time `t`. */
  function TableSeries(rule: Rule, fileIdx: nat, terms: seq<Record>, t: real, trig: Trig): Dual
    requires AllHaveKeys(rule, terms)
  {
    Series(rule, fileIdx, terms, Arguments(rule, t), trig)
  }

  // ---------------------------------------------------------------------
  // Properties of the series

  /** An empty table contributes nothing. */
  lemma EmptySeries(rule: Rule, fileIdx: nat, args: seq<Dual>, trig: Trig)
    requires |args| == ArgumentCount(rule)
    ensures Series(rule, fileIdx, [], args, trig) == Dual(0.0, 0.0)
  {}

  lemma {:induction false} SumAppend(xs: seq<Dual>, ys: seq<Dual>)
    ensures Sum(xs + ys) == Add(Sum(xs), Sum(ys))
    decreases |ys|
  {
    if |ys| == 0 {
      assert xs + ys == xs;
    } else {
      var n := |ys| - 1;
      assert (xs + ys)[..|xs| + n] == xs + ys[..n];
      SumAppend(xs, ys[..n]);
    }
  }

  /** The series of two runs of terms is the sum of their series: the
      evaluators may accumulate the terms in any grouping. */
  lemma SeriesAppend(rule: Rule, fileIdx: nat, a: seq<Record>, b: seq<Record>, args: seq<Dual>, trig: Trig)
    requires AllHaveKeys(rule, a) && AllHaveKeys(rule, b) && |args| == ArgumentCount(rule)
    ensures AllHaveKeys(rule, a + b)
    ensures Series(rule, fileIdx, a + b, args, trig) ==
            Add(Series(rule, fileIdx, a, args, trig), Series(rule, fileIdx, b, args, trig))
  {
    assert AllHaveKeys(rule, a + b);
    var ca, cb := Contributions(rule, fileIdx, a, args, trig), Contributions(rule, fileIdx, b, args, trig);
    var cab := Contributions(rule, fileIdx, a + b, args, trig);
    forall j | 0 <= j < |cab|
      ensures cab[j] == (ca + cb)[j]
    {
      if j < |a| {
        assert (a + b)[j] == a[j];
      } else {
        assert (a + b)[j] == b[j - |a|];
      }
    }
    assert cab == ca + cb;
    SumAppend(ca, cb);
  }

  /** Adding one term to a table adds its contribution to the series. */
  lemma SeriesSnoc(rule: Rule, fileIdx: nat, terms: seq<Record>, j: nat, args: seq<Dual>, trig: Trig)
    requires AllHaveKeys(rule, terms) && j < |terms| && |args| == ArgumentCount(rule)
    ensures AllHaveKeys(rule, terms[..j]) && AllHaveKeys(rule, terms[..j + 1])
    ensures Series(rule, fileIdx, terms[..j + 1], args, trig) ==
            Add(Series(rule, fileIdx, terms[..j], args, trig), Contribution(rule, fileIdx, terms[j], args, trig))
  {
    var cs := Contributions(rule, fileIdx, terms[..j + 1], args, trig);
    assert cs[..j] == Contributions(rule, fileIdx, terms[..j], args, trig);
  }

  /** The rate of a term's argument is the same integer combination of the
      fundamental arguments' rates as its value is of their values. */
  lemma SameMultipliers(rule: Rule, k: Record, args: seq<Dual>)
    requires HasKeys(rule, k) && |args| == ArgumentCount(rule)
    ensures Combine(RuleMultipliers(rule, k), args).value == CombineReals(RuleMultipliers(rule, k), Values(args))
    ensures Combine(RuleMultipliers(rule, k), args).derivative == CombineReals(RuleMultipliers(rule, k), Derivatives(args))
  {
    CombineComponents(RuleMultipliers(rule, k), args);
  }

  /** Tables 22-36 do not read the first multiplier of their records. */
  lemma SecondaryIgnoresFirstMultiplier(fileIdx: nat, terms: seq<Record>, other: seq<Record>,
                                        args: seq<Dual>, trig: Trig)
    requires AllHaveKeys(Secondary, terms) && |args| == 4
    requires |other| == |terms|
    requires forall j :: 0 <= j < |terms| ==> other[j] == terms[j].(i1 := other[j].i1)
    ensures AllHaveKeys(Secondary, other)
    ensures Series(Secondary, fileIdx, other, args, trig) == Series(Secondary, fileIdx, terms, args, trig)
  {
    assert Contributions(Secondary, fileIdx, other, args, trig) == Contributions(Secondary, fileIdx, terms, args, trig);
  }

  // ---------------------------------------------------------------------
  // One term of each evaluator, in the evaluators' own expressions

  /** One step of the left fold that builds a combination. */
  lemma CombineStep(m: seq<int>, xs: seq<Dual>, n: nat)
    requires |m| == |xs| && 0 < n <= |m|
    ensures Combine(m[..n], xs[..n]) == Add(Combine(m[..n - 1], xs[..n - 1]), ScaleBy(m[n - 1] as real, xs[n - 1]))
  {
    assert m[..n][..n - 1] == m[..n - 1];
    assert xs[..n][..n - 1] == xs[..n - 1];
  }

  /** A combination of three arguments written out term by term. */
  lemma Combine3(m: seq<int>, xs: seq<Dual>)
    requires |m| == 3 && |xs| == 3
    ensures Combine(m, xs).value ==
            m[0] as real * xs[0].value + m[1] as real * xs[1].value + m[2] as real * xs[2].value
    ensures Combine(m, xs).derivative ==
            m[0] as real * xs[0].derivative + m[1] as real * xs[1].derivative + m[2] as real * xs[2].derivative
  {
    CombineStep(m, xs, 1);
    CombineStep(m, xs, 2);
    CombineStep(m, xs, 3);
    assert m[..3] == m && xs[..3] == xs;
  }

  /** A combination of four arguments written out term by term. */
  lemma Combine4(m: seq<int>, xs: seq<Dual>)
    requires |m| == 4 && |xs| == 4
    ensures Combine(m, xs).value ==
            m[0] as real * xs[0].value + m[1] as real * xs[1].value + m[2] as real * xs[2].value
            + m[3] as real * xs[3].value
    ensures Combine(m, xs).derivative ==
            m[0] as real * xs[0].derivative + m[1] as real * xs[1].derivative + m[2] as real * xs[2].derivative
            + m[3] as real * xs[3].derivative
  {
    Combine3(m[..3], xs[..3]);
    CombineStep(m, xs, 4);
    assert m[..4] == m && xs[..4] == xs;
  }

  /** A combination of 5 arguments written out term by term. */
  lemma Combine5(m: seq<int>, xs: seq<Dual>)
    requires |m| == 5 && |xs| == 5
    ensures Combine(m, xs).value ==
            m[0] as real * xs[0].value + m[1] as real * xs[1].value + m[2] as real * xs[2].value
            + m[3] as real * xs[3].value + m[4] as real * xs[4].value
    ensures Combine(m, xs).derivative ==
            m[0] as real * xs[0].derivative + m[1] as real * xs[1].derivative + m[2] as real * xs[2].derivative
            + m[3] as real * xs[3].derivative + m[4] as real * xs[4].derivative
  {
    Combine4(m[..4], xs[..4]);
    CombineStep(m, xs, 5);
    assert m[..5] == m && xs[..5] == xs;
  }

  /** A combination of 6 arguments written out term by term. */
  lemma Combine6(m: seq<int>, xs: seq<Dual>)
    requires |m| == 6 && |xs| == 6
    ensures Combine(m, xs).value ==
            m[0] as real * xs[0].value + m[1] as real * xs[1].value + m[2] as real * xs[2].value
            + m[3] as real * xs[3].value + m[4] as real * xs[4].value + m[5] as real * xs[5].value
    ensures Combine(m, xs).derivative ==
            m[0] as real * xs[0].derivative + m[1] as real * xs[1].derivative + m[2] as real * xs[2].derivative
            + m[3] as real * xs[3].derivative + m[4] as real * xs[4].derivative + m[5] as real * xs[5].derivative
  {
    Combine5(m[..5], xs[..5]);
    CombineStep(m, xs, 6);
    assert m[..6] == m && xs[..6] == xs;
  }

  /** A combination of 7 arguments written out term by term. */
  lemma Combine7(m: seq<int>, xs: seq<Dual>)
    requires |m| == 7 && |xs| == 7
    ensures Combine(m, xs).value ==
            m[0] as real * xs[0].value + m[1] as real * xs[1].value + m[2] as real * xs[2].value
            + m[3] as real * xs[3].value + m[4] as real * xs[4].value + m[5] as real * xs[5].value
            + m[6] as real * xs[6].value
    ensures Combine(m, xs).derivative ==
            m[0] as real * xs[0].derivative + m[1] as real * xs[1].derivative + m[2] as real * xs[2].derivative
            + m[3] as real * xs[3].derivative + m[4] as real * xs[4].derivative + m[5] as real * xs[5].derivative
            + m[6] as real * xs[6].derivative
  {
    Combine6(m[..6], xs[..6]);
    CombineStep(m, xs, 7);
    assert m[..7] == m && xs[..7] == xs;
  }

  /** A combination of 8 arguments written out term by term. */
  lemma Combine8(m: seq<int>, xs: seq<Dual>)
    requires |m| == 8 && |xs| == 8
    ensures Combine(m, xs).value ==
            m[0] as real * xs[0].value + m[1] as real * xs[1].value + m[2] as real * xs[2].value
            + m[3] as real * xs[3].value + m[4] as real * xs[4].value + m[5] as real * xs[5].value
            + m[6] as real * xs[6].value + m[7] as real * xs[7].value
    ensures Combine(m, xs).derivative ==
            m[0] as real * xs[0].derivative + m[1] as real * xs[1].derivative + m[2] as real * xs[2].derivative
            + m[3] as real * xs[3].derivative + m[4] as real * xs[4].derivative + m[5] as real * xs[5].derivative
            + m[6] as real * xs[6].derivative + m[7] as real * xs[7].derivative
  {
    Combine7(m[..7], xs[..7]);
    CombineStep(m, xs, 8);
    assert m[..8] == m && xs[..8] == xs;
  }

  /** A combination of 9 arguments written out term by term. */
  lemma Combine9(m: seq<int>, xs: seq<Dual>)
    requires |m| == 9 && |xs| == 9
    ensures Combine(m, xs).value ==
            m[0] as real * xs[0].value + m[1] as real * xs[1].value + m[2] as real * xs[2].value
            + m[3] as real * xs[3].value + m[4] as real * xs[4].value + m[5] as real * xs[5].value
            + m[6] as real * xs[6].value + m[7] as real * xs[7].value + m[8] as real * xs[8].value
    ensures Combine(m, xs).derivative ==
            m[0] as real * xs[0].derivative + m[1] as real * xs[1].derivative + m[2] as real * xs[2].derivative
            + m[3] as real * xs[3].derivative + m[4] as real * xs[4].derivative + m[5] as real * xs[5].derivative
            + m[6] as real * xs[6].derivative + m[7] as real * xs[7].derivative + m[8] as real * xs[8].derivative
  {
    Combine8(m[..8], xs[..8]);
    CombineStep(m, xs, 9);
    assert m[..9] == m && xs[..9] == xs;
  }

  /** A combination of 10 arguments written out term by term. */
  lemma Combine10(m: seq<int>, xs: seq<Dual>)
    requires |m| == 10 && |xs| == 10
    ensures Combine(m, xs).value ==
            m[0] as real * xs[0].value + m[1] as real * xs[1].value + m[2] as real * xs[2].value
            + m[3] as real * xs[3].value + m[4] as real * xs[4].value + m[5] as real * xs[5].value
            + m[6] as real * xs[6].value + m[7] as real * xs[7].value + m[8] as real * xs[8].value
            + m[9] as real * xs[9].value
    ensures Combine(m, xs).derivative ==
            m[0] as real * xs[0].derivative + m[1] as real * xs[1].derivative + m[2] as real * xs[2].derivative
            + m[3] as real * xs[3].derivative + m[4] as real * xs[4].derivative + m[5] as real * xs[5].derivative
            + m[6] as real * xs[6].derivative + m[7] as real * xs[7].derivative + m[8] as real * xs[8].derivative
            + m[9] as real * xs[9].derivative
  {
    Combine9(m[..9], xs[..9]);
    CombineStep(m, xs, 10);
    assert m[..10] == m && xs[..10] == xs;
  }

  /** A combination of 11 arguments written out term by term. */
  lemma Combine11(m: seq<int>, xs: seq<Dual>)
    requires |m| == 11 && |xs| == 11
    ensures Combine(m, xs).value ==
            m[0] as real * xs[0].value + m[1] as real * xs[1].value + m[2] as real * xs[2].value
            + m[3] as real * xs[3].value + m[4] as real * xs[4].value + m[5] as real * xs[5].value
            + m[6] as real * xs[6].value + m[7] as real * xs[7].value + m[8] as real * xs[8].value
            + m[9] as real * xs[9].value + m[10] as real * xs[10].value
    ensures Combine(m, xs).derivative ==
            m[0] as real * xs[0].derivative + m[1] as real * xs[1].derivative + m[2] as real * xs[2].derivative
            + m[3] as real * xs[3].derivative + m[4] as real * xs[4].derivative + m[5] as real * xs[5].derivative
            + m[6] as real * xs[6].derivative + m[7] as real * xs[7].derivative + m[8] as real * xs[8].derivative
            + m[9] as real * xs[9].derivative + m[10] as real * xs[10].derivative
  {
    Combine10(m[..10], xs[..10]);
    CombineStep(m, xs, 11);
    assert m[..11] == m && xs[..11] == xs;
  }

  /** The argument of a term whose combination is `(c, dc)`: `rad(c / 3600)` for
      tables 1-3 and `rad(c / 3600 + ph)` for the others, with rate `rad(dc / 3600)`. */
  lemma AngleOfCombination(rule: Rule, k: Record, args: seq<Dual>, trig: Trig, c: real, dc: real)
    requires HasKeys(rule, k) && |args| == ArgumentCount(rule)
    requires Combine(RuleMultipliers(rule, k), args) == Dual(c, dc)
    ensures Angle(rule, k, args, trig) ==
            Dual(Deg2Rad(if rule == MainProblem then c / 3600.0 else c / 3600.0 + k.ph, trig), Deg2Rad(dc / 3600.0, trig))
  {
    assert dc / 3600.0 + 0.0 == dc / 3600.0;
  }

  /** A term whose argument is `arg` with rate `rate` adds `A * sin(arg)` (or
      `A * cos(arg)` for table 3) to the value and `A * cos(arg) * rate` (or
      `A * -sin(arg) * rate`) to the rate. */
  lemma TermOfAngle(rule: Rule, fileIdx: nat, k: Record, args: seq<Dual>, trig: Trig, arg: real, rate: real)
    requires HasKeys(rule, k) && |args| == ArgumentCount(rule)
    requires Angle(rule, k, args, trig) == Dual(arg, rate)
    ensures Contribution(rule, fileIdx, k, args, trig) ==
            Dual(k.a * (if IsCosineTable(rule, fileIdx) then trig.cos(arg) else trig.sin(arg)),
                 k.a * (if IsCosineTable(rule, fileIdx) then -trig.sin(arg) else trig.cos(arg)) * rate)
  {
    WaveExpression(k.a, IsCosineTable(rule, fileIdx), arg, rate, trig);
  }

  /** The wave in the evaluators' expressions: the chain rule collapses to
      `a * (-sin or cos)(arg) * rate`. */
  lemma WaveExpression(a: real, cosine: bool, arg: real, rate: real, trig: Trig)
    ensures Wave(a, cosine, Dual(arg, rate), trig) ==
            Dual(a * (if cosine then trig.cos(arg) else trig.sin(arg)),
                 a * (if cosine then -trig.sin(arg) else trig.cos(arg)) * rate)
  {
    if cosine {
      assert a * (-trig.sin(arg) * rate) == a * -trig.sin(arg) * rate;
    } else {
      assert a * (trig.cos(arg) * rate) == a * trig.cos(arg) * rate;
    }
  }

  /** One term of tables 1-3 as the evaluator accumulates it: with `arg` the
      combination of D, l', l, F in radians and `dArg` the same combination of
      their rates, the term adds `A * cos(arg)` (table 3) or `A * sin(arg)` to
      the value and `A * (-sin(arg) or cos(arg)) * rad(dArg / 3600)` to the rate. */
  lemma MainTerm(fileIdx: nat, k: Record, args: seq<Dual>, trig: Trig, arg: real, dArg: real)
    requires |args| == 4
    requires arg == Deg2Rad((k.i1 as real * args[0].value + k.i2 as real * args[1].value + k.i3 as real * args[2].value
                             + k.i4 as real * args[3].value) / 3600.0, trig)
    requires dArg == k.i1 as real * args[0].derivative + k.i2 as real * args[1].derivative + k.i3 as real * args[2].derivative
                    + k.i4 as real * args[3].derivative
    ensures Contribution(MainProblem, fileIdx, k, args, trig) ==
            Dual(k.a * (if fileIdx == 2 then trig.cos(arg) else trig.sin(arg)),
                 k.a * (if fileIdx == 2 then -trig.sin(arg) else trig.cos(arg)) * Deg2Rad(dArg / 3600.0, trig))
  {
    var c := k.i1 as real * args[0].value + k.i2 as real * args[1].value + k.i3 as real * args[2].value
              + k.i4 as real * args[3].value;
    var m := RuleMultipliers(MainProblem, k);
    assert m[0] == k.i1 && m[1] == k.i2 && m[2] == k.i3 && m[3] == k.i4;
    Combine4(m, args);
    assert Combine(m, args) == Dual(c, dArg);
    AngleOfCombination(MainProblem, k, args, trig, c, dArg);
    TermOfAngle(MainProblem, fileIdx, k, args, trig, arg, Deg2Rad(dArg / 3600.0, trig));
  }

  /** One term of tables 4-9 as the evaluator accumulates it: with `arg` the
      combination of z, D, l', l, F in arcseconds turned into degrees plus the
      phase, and `dArg` the same combination of the rates, the term adds
      `A * sin(rad(arg))` to the value and `A * cos(rad(arg)) * rad(dArg / 3600)`
      to the rate. */
  lemma EarthFigureTerm(fileIdx: nat, k: Record, args: seq<Dual>, trig: Trig, arg: real, dArg: real)
    requires HasKeys(EarthFigure, k) && |args| == 5
    requires arg == (k.i1 as real * args[0].value + k.i2 as real * args[1].value + k.i3 as real * args[2].value
                     + k.i4 as real * args[3].value + k.i5 as real * args[4].value) / 3600.0 + k.ph
    requires dArg == k.i1 as real * args[0].derivative + k.i2 as real * args[1].derivative + k.i3 as real * args[2].derivative
                    + k.i4 as real * args[3].derivative + k.i5 as real * args[4].derivative
    ensures Contribution(EarthFigure, fileIdx, k, args, trig) ==
            Dual(k.a * trig.sin(Deg2Rad(arg, trig)), k.a * trig.cos(Deg2Rad(arg, trig)) * Deg2Rad(dArg / 3600.0, trig))
  {
    var c := k.i1 as real * args[0].value + k.i2 as real * args[1].value + k.i3 as real * args[2].value
              + k.i4 as real * args[3].value + k.i5 as real * args[4].value;
    var m := RuleMultipliers(EarthFigure, k);
    assert m[0] == k.i1 && m[1] == k.i2 && m[2] == k.i3 && m[3] == k.i4 && m[4] == k.i5;
    Combine5(m, args);
    assert Combine(m, args) == Dual(c, dArg);
    AngleOfCombination(EarthFigure, k, args, trig, c, dArg);
    TermOfAngle(EarthFigure, fileIdx, k, args, trig, Deg2Rad(arg, trig), Deg2Rad(dArg / 3600.0, trig));
  }

  /** One term of tables 10-15 as the evaluator accumulates it: with `arg` the
      combination of Me, V, T, Ma, J, S, U, N, D, l, F in arcseconds turned into degrees plus the
      phase, and `dArg` the same combination of the rates, the term adds
      `A * sin(rad(arg))` to the value and `A * cos(rad(arg)) * rad(dArg / 3600)`
      to the rate. */
  lemma PlanetaryTable1Term(fileIdx: nat, k: Record, args: seq<Dual>, trig: Trig, arg: real, dArg: real)
    requires HasKeys(PlanetaryTable1, k) && |args| == 11
    requires arg == (k.i1 as real * args[0].value + k.i2 as real * args[1].value + k.i3 as real * args[2].value
                     + k.i4 as real * args[3].value + k.i5 as real * args[4].value + k.i6 as real * args[5].value
                     + k.i7 as real * args[6].value + k.i8 as real * args[7].value + k.i9 as real * args[8].value
                     + k.i10 as real * args[9].value + k.i11 as real * args[10].value) / 3600.0 + k.ph
    requires dArg == k.i1 as real * args[0].derivative + k.i2 as real * args[1].derivative + k.i3 as real * args[2].derivative
                    + k.i4 as real * args[3].derivative + k.i5 as real * args[4].derivative + k.i6 as real * args[5].derivative
                    + k.i7 as real * args[6].derivative + k.i8 as real * args[7].derivative + k.i9 as real * args[8].derivative
                    + k.i10 as real * args[9].derivative + k.i11 as real * args[10].derivative
    ensures Contribution(PlanetaryTable1, fileIdx, k, args, trig) ==
            Dual(k.a * trig.sin(Deg2Rad(arg, trig)), k.a * trig.cos(Deg2Rad(arg, trig)) * Deg2Rad(dArg / 3600.0, trig))
  {
    var c := k.i1 as real * args[0].value + k.i2 as real * args[1].value + k.i3 as real * args[2].value
              + k.i4 as real * args[3].value + k.i5 as real * args[4].value + k.i6 as real * args[5].value
              + k.i7 as real * args[6].value + k.i8 as real * args[7].value + k.i9 as real * args[8].value
              + k.i10 as real * args[9].value + k.i11 as real * args[10].value;
    var m := RuleMultipliers(PlanetaryTable1, k);
    assert m[0] == k.i1 && m[1] == k.i2 && m[2] == k.i3 && m[3] == k.i4 && m[4] == k.i5
           && m[5] == k.i6 && m[6] == k.i7 && m[7] == k.i8 && m[8] == k.i9 && m[9] == k.i10 && m[10] == k.i11;
    Combine11(m, args);
    assert Combine(m, args) == Dual(c, dArg);
    AngleOfCombination(PlanetaryTable1, k, args, trig, c, dArg);
    TermOfAngle(PlanetaryTable1, fileIdx, k, args, trig, Deg2Rad(arg, trig), Deg2Rad(dArg / 3600.0, trig));
  }

  /** One term of tables 16-21 as the evaluator accumulates it: with `arg` the
      combination of Me, V, T, Ma, J, S, U, D, l', l, F in arcseconds turned into degrees plus the
      phase, and `dArg` the same combination of the rates, the term adds
      `A * sin(rad(arg))` to the value and `A * cos(rad(arg)) * rad(dArg / 3600)`
      to the rate. */
  lemma PlanetaryTable2Term(fileIdx: nat, k: Record, args: seq<Dual>, trig: Trig, arg: real, dArg: real)
    requires HasKeys(PlanetaryTable2, k) && |args| == 11
    requires arg == (k.i1 as real * args[0].value + k.i2 as real * args[1].value + k.i3 as real * args[2].value
                     + k.i4 as real * args[3].value + k.i5 as real * args[4].value + k.i6 as real * args[5].value
                     + k.i7 as real * args[6].value + k.i8 as real * args[7].value + k.i9 as real * args[8].value
                     + k.i10 as real * args[9].value + k.i11 as real * args[10].value) / 3600.0 + k.ph
    requires dArg == k.i1 as real * args[0].derivative + k.i2 as real * args[1].derivative + k.i3 as real * args[2].derivative
                    + k.i4 as real * args[3].derivative + k.i5 as real * args[4].derivative + k.i6 as real * args[5].derivative
                    + k.i7 as real * args[6].derivative + k.i8 as real * args[7].derivative + k.i9 as real * args[8].derivative
                    + k.i10 as real * args[9].derivative + k.i11 as real * args[10].derivative
    ensures Contribution(PlanetaryTable2, fileIdx, k, args, trig) ==
            Dual(k.a * trig.sin(Deg2Rad(arg, trig)), k.a * trig.cos(Deg2Rad(arg, trig)) * Deg2Rad(dArg / 3600.0, trig))
  {
    var c := k.i1 as real * args[0].value + k.i2 as real * args[1].value + k.i3 as real * args[2].value
              + k.i4 as real * args[3].value + k.i5 as real * args[4].value + k.i6 as real * args[5].value
              + k.i7 as real * args[6].value + k.i8 as real * args[7].value + k.i9 as real * args[8].value
              + k.i10 as real * args[9].value + k.i11 as real * args[10].value;
    var m := RuleMultipliers(PlanetaryTable2, k);
    assert m[0] == k.i1 && m[1] == k.i2 && m[2] == k.i3 && m[3] == k.i4 && m[4] == k.i5
           && m[5] == k.i6 && m[6] == k.i7 && m[7] == k.i8 && m[8] == k.i9 && m[9] == k.i10 && m[10] == k.i11;
    Combine11(m, args);
    assert Combine(m, args) == Dual(c, dArg);
    AngleOfCombination(PlanetaryTable2, k, args, trig, c, dArg);
    TermOfAngle(PlanetaryTable2, fileIdx, k, args, trig, Deg2Rad(arg, trig), Deg2Rad(dArg / 3600.0, trig));
  }

  /** One term of tables 22-36 as the evaluator accumulates it: with `arg` the
      combination of D, l', l, F (from the second multiplier on) in arcseconds turned into degrees plus the
      phase, and `dArg` the same combination of the rates, the term adds
      `A * sin(rad(arg))` to the value and `A * cos(rad(arg)) * rad(dArg / 3600)`
      to the rate. */
  lemma SecondaryTerm(fileIdx: nat, k: Record, args: seq<Dual>, trig: Trig, arg: real, dArg: real)
    requires HasKeys(Secondary, k) && |args| == 4
    requires arg == (k.i2 as real * args[0].value + k.i3 as real * args[1].value + k.i4 as real * args[2].value
                     + k.i5 as real * args[3].value) / 3600.0 + k.ph
    requires dArg == k.i2 as real * args[0].derivative + k.i3 as real * args[1].derivative + k.i4 as real * args[2].derivative
                    + k.i5 as real * args[3].derivative
    ensures Contribution(Secondary, fileIdx, k, args, trig) ==
            Dual(k.a * trig.sin(Deg2Rad(arg, trig)), k.a * trig.cos(Deg2Rad(arg, trig)) * Deg2Rad(dArg / 3600.0, trig))
  {
    var c := k.i2 as real * args[0].value + k.i3 as real * args[1].value + k.i4 as real * args[2].value
              + k.i5 as real * args[3].value;
    var m := RuleMultipliers(Secondary, k);
    assert m[0] == k.i2 && m[1] == k.i3 && m[2] == k.i4 && m[3] == k.i5;
    Combine4(m, args);
    assert Combine(m, args) == Dual(c, dArg);
    AngleOfCombination(Secondary, k, args, trig, c, dArg);
    TermOfAngle(Secondary, fileIdx, k, args, trig, Deg2Rad(arg, trig), Deg2Rad(dArg / 3600.0, trig));
  }

  // ---------------------------------------------------------------------
  // The evaluators
  //
  // Each evaluator computes its fundamental arguments from `t` and then runs
  // its loop over the table; the loop is a method of its own that receives the
  // arguments, so that the polynomials in `t` stay out of the loop's proof.

  /** Tables 1-3: the main problem, with the full-precision arguments. */
  method Calc1To3(fileIdx: nat, terms: seq<Record>, t: real, trig: Trig) returns (value: real, derivative: real)
    ensures Dual(value, derivative) == TableSeries(MainProblem, fileIdx, terms, t, trig)
  {
    var D, l_, l, F := Elongation(t), SunAnomaly(t), MoonAnomaly(t), LatitudeArgument(t);
    ElongationIsPolynomial(t);
    SunAnomalyIsPolynomial(t);
    MoonAnomalyIsPolynomial(t);
    LatitudeArgumentIsPolynomial(t);
    value, derivative := MainSum(fileIdx, terms, D, l_, l, F, trig);
  }

  /** The loop of Calc1To3: the sum over the terms for given arguments and rates. */
  method MainSum(fileIdx: nat, terms: seq<Record>, D: Dual, l_: Dual, l: Dual, F: Dual, trig: Trig)
    returns (value: real, derivative: real)
    ensures Dual(value, derivative) == Series(MainProblem, fileIdx, terms, [D, l_, l, F], trig)
  {
    ghost var args := [D, l_, l, F];
    value, derivative := 0.0, 0.0;
    for j := 0 to |terms|
      invariant AllHaveKeys(MainProblem, terms[..j])
      invariant Dual(value, derivative) == Series(MainProblem, fileIdx, terms[..j], args, trig)
    {
      var k := terms[j];
      var arg := Deg2Rad((k.i1 as real * D.value + k.i2 as real * l_.value + k.i3 as real * l.value
                          + k.i4 as real * F.value) / 3600.0, trig);
      var dArg := k.i1 as real * D.derivative + k.i2 as real * l_.derivative + k.i3 as real * l.derivative
                  + k.i4 as real * F.derivative;
      MainTerm(fileIdx, k, args, trig, arg, dArg);
      SeriesSnoc(MainProblem, fileIdx, terms, j, args, trig);
      value := value + k.a * (if fileIdx == 2 then trig.cos(arg) else trig.sin(arg));
      derivative := derivative + k.a * (if fileIdx == 2 then -trig.sin(arg) else trig.cos(arg)) * Deg2Rad(dArg / 3600.0, trig);
    }
    assert terms[..|terms|] == terms;
  }

  /** Tables 4-9: the figure of the Earth and tidal terms; z is W1 + p t. */
  method Calc4To9(fileIdx: nat, terms: seq<Record>, t: real, trig: Trig) returns (value: real, derivative: real)
    requires AllHaveKeys(EarthFigure, terms)
    ensures Dual(value, derivative) == TableSeries(EarthFigure, fileIdx, terms, t, trig)
  {
    var D, l_, l, F := ElongationLinear(t), SunAnomalyLinear(t), MoonAnomalyLinear(t), LatitudeArgumentLinear(t);
    var W1 := MeanLongitude(t);
    var z := Dual(W1.value + PRECESSION * t, W1.derivative + PRECESSION);
    value, derivative := EarthFigureSum(fileIdx, terms, z, D, l_, l, F, trig);
  }

  /** The loop of Calc4To9: the sum over the terms for given arguments and rates. */
  method EarthFigureSum(fileIdx: nat, terms: seq<Record>, z: Dual, D: Dual, l_: Dual, l: Dual, F: Dual, trig: Trig)
    returns (value: real, derivative: real)
    requires AllHaveKeys(EarthFigure, terms)
    ensures Dual(value, derivative) == Series(EarthFigure, fileIdx, terms, [z, D, l_, l, F], trig)
  {
    ghost var args := [z, D, l_, l, F];
    value, derivative := 0.0, 0.0;
    for j := 0 to |terms|
      invariant AllHaveKeys(EarthFigure, terms[..j])
      invariant Dual(value, derivative) == Series(EarthFigure, fileIdx, terms[..j], args, trig)
    {
      var k := terms[j];
      var arg := (k.i1 as real * z.value + k.i2 as real * D.value + k.i3 as real * l_.value
                  + k.i4 as real * l.value + k.i5 as real * F.value) / 3600.0 + k.ph;
      var dArg := k.i1 as real * z.derivative + k.i2 as real * D.derivative + k.i3 as real * l_.derivative
                  + k.i4 as real * l.derivative + k.i5 as real * F.derivative;
      EarthFigureTerm(fileIdx, k, args, trig, arg, dArg);
      SeriesSnoc(EarthFigure, fileIdx, terms, j, args, trig);
      value := value + k.a * trig.sin(Deg2Rad(arg, trig));
      derivative := derivative + k.a * trig.cos(Deg2Rad(arg, trig)) * Deg2Rad(dArg / 3600.0, trig);
    }
    assert terms[..|terms|] == terms;
  }

  /** Tables 10-15: planetary perturbations, first kind. */
  method Calc10To15(fileIdx: nat, terms: seq<Record>, t: real, trig: Trig) returns (value: real, derivative: real)
    requires AllHaveKeys(PlanetaryTable1, terms)
    ensures Dual(value, derivative) == TableSeries(PlanetaryTable1, fileIdx, terms, t, trig)
  {
    var Me, V, T, Ma := Mercury(t), Venus(t), EmbLongitude(t), Mars(t);
    var J, S, U, N := Jupiter(t), Saturn(t), Uranus(t), Neptune(t);
    var D, l, F := ElongationLinear(t), MoonAnomalyLinear(t), LatitudeArgumentLinear(t);
    value, derivative := PlanetaryTable1Sum(fileIdx, terms, Me, V, T, Ma, J, S, U, N, D, l, F, trig);
  }

  /** The loop of Calc10To15: the sum over the terms for given arguments and rates. */
  method PlanetaryTable1Sum(fileIdx: nat, terms: seq<Record>, Me: Dual, V: Dual, T: Dual, Ma: Dual, J: Dual, S: Dual, U: Dual, N: Dual, D: Dual, l: Dual, F: Dual, trig: Trig)
    returns (value: real, derivative: real)
    requires AllHaveKeys(PlanetaryTable1, terms)
    ensures Dual(value, derivative) == Series(PlanetaryTable1, fileIdx, terms, [Me, V, T, Ma, J, S, U, N, D, l, F], trig)
  {
    ghost var args := [Me, V, T, Ma, J, S, U, N, D, l, F];
    value, derivative := 0.0, 0.0;
    for j := 0 to |terms|
      invariant AllHaveKeys(PlanetaryTable1, terms[..j])
      invariant Dual(value, derivative) == Series(PlanetaryTable1, fileIdx, terms[..j], args, trig)
    {
      var k := terms[j];
      var arg := (k.i1 as real * Me.value + k.i2 as real * V.value + k.i3 as real * T.value
                  + k.i4 as real * Ma.value + k.i5 as real * J.value + k.i6 as real * S.value
                  + k.i7 as real * U.value + k.i8 as real * N.value + k.i9 as real * D.value
                  + k.i10 as real * l.value + k.i11 as real * F.value) / 3600.0 + k.ph;
      var dArg := k.i1 as real * Me.derivative + k.i2 as real * V.derivative + k.i3 as real * T.derivative
                  + k.i4 as real * Ma.derivative + k.i5 as real * J.derivative + k.i6 as real * S.derivative
                  + k.i7 as real * U.derivative + k.i8 as real * N.derivative + k.i9 as real * D.derivative
                  + k.i10 as real * l.derivative + k.i11 as real * F.derivative;
      PlanetaryTable1Term(fileIdx, k, args, trig, arg, dArg);
      SeriesSnoc(PlanetaryTable1, fileIdx, terms, j, args, trig);
      value := value + k.a * trig.sin(Deg2Rad(arg, trig));
      derivative := derivative + k.a * trig.cos(Deg2Rad(arg, trig)) * Deg2Rad(dArg / 3600.0, trig);
    }
    assert terms[..|terms|] == terms;
  }

  /** Tables 16-21: planetary perturbations, second kind. */
  method Calc16To21(fileIdx: nat, terms: seq<Record>, t: real, trig: Trig) returns (value: real, derivative: real)
    requires AllHaveKeys(PlanetaryTable2, terms)
    ensures Dual(value, derivative) == TableSeries(PlanetaryTable2, fileIdx, terms, t, trig)
  {
    var Me, V, T, Ma := Mercury(t), Venus(t), EmbLongitude(t), Mars(t);
    var J, S, U, D := Jupiter(t), Saturn(t), Uranus(t), ElongationLinear(t);
    var l_, l, F := SunAnomalyLinear(t), MoonAnomalyLinear(t), LatitudeArgumentLinear(t);
    value, derivative := PlanetaryTable2Sum(fileIdx, terms, Me, V, T, Ma, J, S, U, D, l_, l, F, trig);
  }

  /** The loop of Calc16To21: the sum over the terms for given arguments and rates. */
  method PlanetaryTable2Sum(fileIdx: nat, terms: seq<Record>, Me: Dual, V: Dual, T: Dual, Ma: Dual, J: Dual, S: Dual, U: Dual, D: Dual, l_: Dual, l: Dual, F: Dual, trig: Trig)
    returns (value: real, derivative: real)
    requires AllHaveKeys(PlanetaryTable2, terms)
    ensures Dual(value, derivative) == Series(PlanetaryTable2, fileIdx, terms, [Me, V, T, Ma, J, S, U, D, l_, l, F], trig)
  {
    ghost var args := [Me, V, T, Ma, J, S, U, D, l_, l, F];
    value, derivative := 0.0, 0.0;
    for j := 0 to |terms|
      invariant AllHaveKeys(PlanetaryTable2, terms[..j])
      invariant Dual(value, derivative) == Series(PlanetaryTable2, fileIdx, terms[..j], args, trig)
    {
      var k := terms[j];
      var arg := (k.i1 as real * Me.value + k.i2 as real * V.value + k.i3 as real * T.value
                  + k.i4 as real * Ma.value + k.i5 as real * J.value + k.i6 as real * S.value
                  + k.i7 as real * U.value + k.i8 as real * D.value + k.i9 as real * l_.value
                  + k.i10 as real * l.value + k.i11 as real * F.value) / 3600.0 + k.ph;
      var dArg := k.i1 as real * Me.derivative + k.i2 as real * V.derivative + k.i3 as real * T.derivative
                  + k.i4 as real * Ma.derivative + k.i5 as real * J.derivative + k.i6 as real * S.derivative
                  + k.i7 as real * U.derivative + k.i8 as real * D.derivative + k.i9 as real * l_.derivative
                  + k.i10 as real * l.derivative + k.i11 as real * F.derivative;
      PlanetaryTable2Term(fileIdx, k, args, trig, arg, dArg);
      SeriesSnoc(PlanetaryTable2, fileIdx, terms, j, args, trig);
      value := value + k.a * trig.sin(Deg2Rad(arg, trig));
      derivative := derivative + k.a * trig.cos(Deg2Rad(arg, trig)) * Deg2Rad(dArg / 3600.0, trig);
    }
    assert terms[..|terms|] == terms;
  }

  /** Tables 22-36: tidal, relativistic and solar-eccentricity corrections; the first multiplier is not read. */
  method Calc22To36(fileIdx: nat, terms: seq<Record>, t: real, trig: Trig) returns (value: real, derivative: real)
    requires AllHaveKeys(Secondary, terms)
    ensures Dual(value, derivative) == TableSeries(Secondary, fileIdx, terms, t, trig)
  {
    var D, l_, l, F := ElongationLinear(t), SunAnomalyLinear(t), MoonAnomalyLinear(t), LatitudeArgumentLinear(t);
    value, derivative := SecondarySum(fileIdx, terms, D, l_, l, F, trig);
  }

  /** The loop of Calc22To36: the sum over the terms for given arguments and rates. */
  method SecondarySum(fileIdx: nat, terms: seq<Record>, D: Dual, l_: Dual, l: Dual, F: Dual, trig: Trig)
    returns (value: real, derivative: real)
    requires AllHaveKeys(Secondary, terms)
    ensures Dual(value, derivative) == Series(Secondary, fileIdx, terms, [D, l_, l, F], trig)
  {
    ghost var args := [D, l_, l, F];
    value, derivative := 0.0, 0.0;
    for j := 0 to |terms|
      invariant AllHaveKeys(Secondary, terms[..j])
      invariant Dual(value, derivative) == Series(Secondary, fileIdx, terms[..j], args, trig)
    {
      var k := terms[j];
      var arg := (k.i2 as real * D.value + k.i3 as real * l_.value + k.i4 as real * l.value
                  + k.i5 as real * F.value) / 3600.0 + k.ph;
      var dArg := k.i2 as real * D.derivative + k.i3 as real * l_.derivative + k.i4 as real * l.derivative
                  + k.i5 as real * F.derivative;
      SecondaryTerm(fileIdx, k, args, trig, arg, dArg);
      SeriesSnoc(Secondary, fileIdx, terms, j, args, trig);
      value := value + k.a * trig.sin(Deg2Rad(arg, trig));
      derivative := derivative + k.a * trig.cos(Deg2Rad(arg, trig)) * Deg2Rad(dArg / 3600.0, trig);
    }
    assert terms[..|terms|] == terms;
  }
}
