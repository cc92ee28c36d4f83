/** The dispatcher: which evaluator serves a table, and which power of `t`
    multiplies its series.

    The 36 tables come in twelve groups of three (longitude, latitude,
    distance).  Group 0 is the main problem, groups 1-2 the figure of the
    Earth, groups 3-4 and 5-6 the two kinds of planetary perturbations and
    groups 7-11 the secondary corrections.  The series of the second group of
    each pair (2, 4, 6, 8) is multiplied by `t`, that of group 11 by `t^2`,
    and the rate follows by the product rule.  `FileSeries` states this per
    group; `CalcFile` is the evaluator's chain of index comparisons, proved to
    agree with it. */
module Dispatch {

  import opened Numerics
  import opened Records
  import opened Series

  /** The evaluator of group `q` (tables `3q + 1` to `3q + 3`). */
  function RuleOfGroup(q: nat): Rule {
    if q == 0 then MainProblem
    else if q <= 2 then EarthFigure
    else if q <= 4 then PlanetaryTable1
    else if q <= 6 then PlanetaryTable2
    else Secondary
  }

  /** The power of `t` that multiplies the series of group `q`. */
  function PowerOfGroup(q: nat): nat {
    if q == 2 || q == 4 || q == 6 || q == 8 then 1
    else if q == 11 then 2
    else 0
  }

  /** `t^n` for `n <= 2`, with its rate. */
  function PowerOfT(n: nat, t: real): Dual {
    if n == 0 then Constant(1.0)
    else if n == 1 then Variable(t)
    else Mul(Variable(t), Variable(t))
  }

  /** Every record of table `i` has the layout of that table. */
  predicate TableShaped(i: nat, table: seq<Record>) {
    forall j :: 0 <= j < |table| ==> Shaped(LayoutOf(i), table[j])
  }

  /** A table read with its own layout carries every field its evaluator reads. */
  lemma LayoutServesRule(i: nat, table: seq<Record>)
    requires i < TABLE_COUNT && TableShaped(i, table)
    ensures AllHaveKeys(RuleOfGroup(i / 3), table)
  {
    assert forall j :: 0 <= j < |table| ==> HasKeys(RuleOfGroup(i / 3), table[j]) by {
      forall j | 0 <= j < |table|
        ensures HasKeys(RuleOfGroup(i / 3), table[j])
      {
        assert Shaped(LayoutOf(i), table[j]);
      }
    }
  }

  /** The series of table `fileIdx` after its power of `t`; nothing past the
      last table. */
  function FileSeries(tables: seq<seq<Record>>, fileIdx: nat, t: real, trig: Trig): (r: Option<Dual>)
    requires fileIdx < TABLE_COUNT ==> fileIdx < |tables| && TableShaped(fileIdx, tables[fileIdx])
    ensures r.Some? <==> fileIdx < TABLE_COUNT
  {
    if fileIdx >= TABLE_COUNT then None
    else
      LayoutServesRule(fileIdx, tables[fileIdx]);
      var q := fileIdx / 3;
      Some(Mul(TableSeries(RuleOfGroup(q), fileIdx, tables[fileIdx], t, trig), PowerOfT(PowerOfGroup(q), t)))
  }

  /** The series of a table whose group has evaluator `rule` and power `n`. */
  lemma FileSeriesOfGroup(tables: seq<seq<Record>>, fileIdx: nat, t: real, trig: Trig, rule: Rule, n: nat)
    requires fileIdx < TABLE_COUNT && fileIdx < |tables| && TableShaped(fileIdx, tables[fileIdx])
    requires RuleOfGroup(fileIdx / 3) == rule && PowerOfGroup(fileIdx / 3) == n
    ensures AllHaveKeys(rule, tables[fileIdx])
    ensures FileSeries(tables, fileIdx, t, trig) == Some(Mul(TableSeries(rule, fileIdx, tables[fileIdx], t, trig), PowerOfT(n, t)))
  {
    LayoutServesRule(fileIdx, tables[fileIdx]);
  }

  // ---------------------------------------------------------------------
  // The groups as index ranges

  /** The tables whose series is multiplied by `t` are 7-9, 13-15, 19-21 and
      25-27 (zero-based 6-8, 12-14, 18-20, 24-26); by `t^2` tables 34-36. */
  lemma ScaledTables(i: nat)
    requires i < TABLE_COUNT
    ensures PowerOfGroup(i / 3) == 1 <==> (6 <= i < 9 || 12 <= i < 15 || 18 <= i < 21 || 24 <= i < 27)
    ensures PowerOfGroup(i / 3) == 2 <==> 33 <= i < 36
    ensures PowerOfGroup(i / 3) == 0 <==> (i < 6 || 9 <= i < 12 || 15 <= i < 18 || 21 <= i < 24 || 27 <= i < 33)
  {
  }

  /** Tables 1-3 go to the main problem, 4-9 to the figure of the Earth, 10-15
      and 16-21 to the planetary evaluators, 22-36 to the secondary one. */
  lemma RoutedTables(i: nat)
    requires i < TABLE_COUNT
    ensures RuleOfGroup(i / 3) == MainProblem <==> i < 3
    ensures RuleOfGroup(i / 3) == EarthFigure <==> 3 <= i < 9
    ensures RuleOfGroup(i / 3) == PlanetaryTable1 <==> 9 <= i < 15
    ensures RuleOfGroup(i / 3) == PlanetaryTable2 <==> 15 <= i < 21
    ensures RuleOfGroup(i / 3) == Secondary <==> 21 <= i
  {
  }

  // ---------------------------------------------------------------------
  // The post-scales in the evaluator's expressions

  /** Multiplying by `t^0` leaves a series unchanged. */
  lemma UnscaledIsProduct(v: real, d: real, t: real)
    ensures Mul(Dual(v, d), PowerOfT(0, t)) == Dual(v, d)
  {
  }

  /** `[v * t, d * t + v]` is the product rule for `(v, d) * t`. */
  lemma TimesTIsProduct(v: real, d: real, t: real)
    ensures Mul(Dual(v, d), PowerOfT(1, t)) == Dual(v * t, d * t + v)
  {
    assert v * 1.0 == v;
  }

  /** `[v * t^2, d * t^2 + v * 2 * t]` is the product rule for `(v, d) * t^2`. */
  lemma TimesTSquaredIsProduct(v: real, d: real, t: real)
    ensures Mul(Dual(v, d), PowerOfT(2, t)) == Dual(v * (t * t), d * (t * t) + v * 2.0 * t)
  {
    assert v * (1.0 * t + t * 1.0) == v * 2.0 * t;
  }

  // ---------------------------------------------------------------------
  // The dispatcher

  /** The evaluator's chain of comparisons on the table index, with the
      post-scales written as the evaluator writes them. */
  method CalcFile(tables: seq<seq<Record>>, fileIdx: nat, t: real, trig: Trig) returns (res: Option<Dual>)
    requires fileIdx < TABLE_COUNT ==> fileIdx < |tables| && TableShaped(fileIdx, tables[fileIdx])
    ensures res == FileSeries(tables, fileIdx, t, trig)
  {
    if fileIdx < TABLE_COUNT {
      RoutedTables(fileIdx);
      ScaledTables(fileIdx);
    }
    if fileIdx < 3 {
      FileSeriesOfGroup(tables, fileIdx, t, trig, MainProblem, 0);
      var v, d := Calc1To3(fileIdx, tables[fileIdx], t, trig);
      UnscaledIsProduct(v, d, t);
      res := Some(Dual(v, d));
    } else if fileIdx < 6 {
      FileSeriesOfGroup(tables, fileIdx, t, trig, EarthFigure, 0);
      var v, d := Calc4To9(fileIdx, tables[fileIdx], t, trig);
      UnscaledIsProduct(v, d, t);
      res := Some(Dual(v, d));
    } else if fileIdx < 9 {
      FileSeriesOfGroup(tables, fileIdx, t, trig, EarthFigure, 1);
      var v, d := Calc4To9(fileIdx, tables[fileIdx], t, trig);
      TimesTIsProduct(v, d, t);
      res := Some(Dual(v * t, d * t + v));
    } else if fileIdx < 12 {
      FileSeriesOfGroup(tables, fileIdx, t, trig, PlanetaryTable1, 0);
      var v, d := Calc10To15(fileIdx, tables[fileIdx], t, trig);
      UnscaledIsProduct(v, d, t);
      res := Some(Dual(v, d));
    } else if fileIdx < 15 {
      FileSeriesOfGroup(tables, fileIdx, t, trig, PlanetaryTable1, 1);
      var v, d := Calc10To15(fileIdx, tables[fileIdx], t, trig);
      TimesTIsProduct(v, d, t);
      res := Some(Dual(v * t, d * t + v));
    } else if fileIdx < 18 {
      FileSeriesOfGroup(tables, fileIdx, t, trig, PlanetaryTable2, 0);
      var v, d := Calc16To21(fileIdx, tables[fileIdx], t, trig);
      UnscaledIsProduct(v, d, t);
      res := Some(Dual(v, d));
    } else if fileIdx < 21 {
      FileSeriesOfGroup(tables, fileIdx, t, trig, PlanetaryTable2, 1);
      var v, d := Calc16To21(fileIdx, tables[fileIdx], t, trig);
      TimesTIsProduct(v, d, t);
      res := Some(Dual(v * t, d * t + v));
    } else if fileIdx < 24 {
      FileSeriesOfGroup(tables, fileIdx, t, trig, Secondary, 0);
      var v, d := Calc22To36(fileIdx, tables[fileIdx], t, trig);
      UnscaledIsProduct(v, d, t);
      res := Some(Dual(v, d));
    } else if fileIdx < 27 {
      FileSeriesOfGroup(tables, fileIdx, t, trig, Secondary, 1);
      var v, d := Calc22To36(fileIdx, tables[fileIdx], t, trig);
      TimesTIsProduct(v, d, t);
      res := Some(Dual(v * t, d * t + v));
    } else if fileIdx < 33 {
      FileSeriesOfGroup(tables, fileIdx, t, trig, Secondary, 0);
      var v, d := Calc22To36(fileIdx, tables[fileIdx], t, trig);
      UnscaledIsProduct(v, d, t);
      res := Some(Dual(v, d));
    } else if fileIdx < 36 {
      FileSeriesOfGroup(tables, fileIdx, t, trig, Secondary, 2);
      var v, d := Calc22To36(fileIdx, tables[fileIdx], t, trig);
      TimesTSquaredIsProduct(v, d, t);
      res := Some(Dual(v * (t * t), d * (t * t) + v * 2.0 * t));
    } else {
      res := None;
    }
  }
}
