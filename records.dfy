/** The coefficient records of the 36 tables and the fixed-column line format
    they are read from.

    Every data line starts with integer multipliers in consecutive 3-character
    columns; then come, depending on the table's layout, a phase and an
    amplitude as decimal fields.  Integers are read with the rules of Python's
    `int()` on text (surrounding whitespace, an optional sign, digits with
    single underscores between them), written out below as `ParseInt`; the
    record parser takes its integer and decimal readers as parameters, and the
    decimal reader stays a parameter throughout, since the model does not fix
    a floating-point syntax. */
module Records {

  import opened Numerics

  /** One term of a series.  Tables 1-3 carry four multipliers and an
      amplitude; tables 4-9 and 22-36 five multipliers, a phase and an
      amplitude; tables 10-21 eleven multipliers, a phase and an amplitude. */
  datatype Record =
    | MainTerm(i1: int, i2: int, i3: int, i4: int, a: real)
    | ShortTerm(i1: int, i2: int, i3: int, i4: int, i5: int, ph: real, a: real)
    | PlanetaryTerm(i1: int, i2: int, i3: int, i4: int, i5: int, i6: int, i7: int, i8: int,
                    i9: int, i10: int, i11: int, ph: real, a: real)

  /** The column layouts of the tables. */
  datatype Layout = MainLayout | ShortLayout | PlanetaryLayout

  /** The number of tables. */
  const TABLE_COUNT: nat := 36

  /** The layout of the table with zero-based index `i`. */
  function LayoutOf(i: nat): (l: Layout)
    ensures l == MainLayout <==> i < 3
    ensures l == PlanetaryLayout <==> 9 <= i < 21
    ensures l == ShortLayout <==> (3 <= i < 9 || 21 <= i)
  {
    if i < 3 then MainLayout
    else if i < 9 then ShortLayout
    else if i < 21 then PlanetaryLayout
    else ShortLayout
  }

  /** A record has the shape of a layout. */
  predicate Shaped(l: Layout, k: Record) {
    match l
    case MainLayout => k.MainTerm?
    case ShortLayout => k.ShortTerm?
    case PlanetaryLayout => k.PlanetaryTerm?
  }

  /** The number of integer multipliers of a layout. */
  function Arity(l: Layout): nat {
    match l
    case MainLayout => 4
    case ShortLayout => 5
    case PlanetaryLayout => 11
  }

  /** Every multiplier of a record, in column order. */
  function Multipliers(k: Record): (m: seq<int>)
    ensures |m| >= 4 && m[..4] == [k.i1, k.i2, k.i3, k.i4]
  {
    match k
    case MainTerm(i1, i2, i3, i4, _) => [i1, i2, i3, i4]
    case ShortTerm(i1, i2, i3, i4, i5, _, _) => [i1, i2, i3, i4, i5]
    case PlanetaryTerm(i1, i2, i3, i4, i5, i6, i7, i8, i9, i10, i11, _, _) =>
      [i1, i2, i3, i4, i5, i6, i7, i8, i9, i10, i11]
  }

  lemma MultipliersMatchLayout(l: Layout, k: Record)
    requires Shaped(l, k)
    ensures |Multipliers(k)| == Arity(l)
  {}

  // ---------------------------------------------------------------------
  // Text primitives

  /** Python slicing `line[lo:hi]`: both bounds are clamped to the length. */
  function Slice(line: string, lo: nat, hi: nat): (s: string)
    ensures |s| == if hi <= lo || |line| <= lo then 0 else (if hi <= |line| then hi else |line|) - lo
    ensures forall j :: 0 <= j < |s| ==> s[j] == line[lo + j]
  {
    var h := if hi <= |line| then hi else |line|;
    var l := if lo <= h then lo else h;
    line[l..h]
  }

  /** The whitespace that Python's `int()` skips around a number: the ASCII
      space and `\t\n\v\f\r`, and the non-ASCII characters for which
      `str.isspace` holds. */
  predicate IsSpace(c: char) {
    || (9 <= c as int <= 13) || c == ' '
    || c as int == 0x85 || c as int == 0xA0 || c as int == 0x1680
    || (0x2000 <= c as int <= 0x200A) || c as int == 0x2028 || c as int == 0x2029
    || c as int == 0x202F || c as int == 0x205F || c as int == 0x3000
  }

  predicate IsDigit(c: char) {
    '0' <= c <= '9'
  }

  function DigitValue(c: char): nat
    requires IsDigit(c)
  {
    (c as int - '0' as int) as nat
  }

  function TrimStart(s: string): (r: string)
    ensures |r| <= |s| && r == s[|s| - |r|..]
    ensures |r| > 0 ==> !IsSpace(r[0])
    ensures forall j :: 0 <= j < |s| - |r| ==> IsSpace(s[j])
    decreases |s|
  {
    if |s| > 0 && IsSpace(s[0]) then TrimStart(s[1..]) else s
  }

  function TrimEnd(s: string): (r: string)
    ensures |r| <= |s| && r == s[..|r|]
    ensures |r| > 0 ==> !IsSpace(r[|r| - 1])
    ensures forall j :: |r| <= j < |s| ==> IsSpace(s[j])
    decreases |s|
  {
    if |s| > 0 && IsSpace(s[|s| - 1]) then TrimEnd(s[..|s| - 1]) else s
  }

  /** The text with the whitespace on both ends removed. */
  function Strip(s: string): string {
    TrimEnd(TrimStart(s))
  }

  /** Digits, with single underscores allowed between two digits. */
  predicate IsDigitString(u: string) {
    && |u| > 0
    && IsDigit(u[0])
    && IsDigit(u[|u| - 1])
    && (forall j :: 0 <= j < |u| ==> IsDigit(u[j]) || u[j] == '_')
    && (forall j :: 0 <= j < |u| - 1 ==> !(u[j] == '_' && u[j + 1] == '_'))
  }

  /** The decimal value of the digits of `u`, underscores skipped. */
  function DigitsValue(u: string): nat
    requires forall j :: 0 <= j < |u| ==> IsDigit(u[j]) || u[j] == '_'
    decreases |u|
  {
    if |u| == 0 then 0
    else
      var n := |u| - 1;
      if u[n] == '_' then DigitsValue(u[..n]) else DigitsValue(u[..n]) * 10 + DigitValue(u[n])
  }

  /** The characters of `u` other than underscores, in order. */
  function WithoutUnderscores(u: string): string
    decreases |u|
  {
    if |u| == 0 then []
    else
      var n := |u| - 1;
      if u[n] == '_' then WithoutUnderscores(u[..n]) else WithoutUnderscores(u[..n]) + [u[n]]
  }

  /** `d` without its leading zeros, keeping at least one character. */
  function WithoutLeadingZeros(d: string): string
    decreases |d|
  {
    if |d| > 1 && d[0] == '0' then WithoutLeadingZeros(d[1..]) else d
  }

  /** The shortest spelling of the number a digit string stands for:
      underscores and leading zeros removed. */
  function Canonical(u: string): string {
    WithoutLeadingZeros(WithoutUnderscores(u))
  }

  /** Reads a digit string such as `0_42`: the number whose shortest
      decimal spelling is the string's canonical form. */
  function ParseUnsigned(u: string): (r: Option<nat>)
    ensures r.Some? <==> IsDigitString(u)
    ensures r.Some? ==> Decimal(r.value) == Canonical(u)
  {
    if IsDigitString(u) then
      DigitsReadCanonically(u);
      Some(DigitsValue(u))
    else None
  }

  /** A digit string reads as `n` exactly when its canonical form is
      `n`'s decimal spelling. */
  lemma ParseUnsignedReadsDecimal(u: string, n: nat)
    ensures ParseUnsigned(u) == Some(n) <==> IsDigitString(u) && Canonical(u) == Decimal(n)
  {
    if IsDigitString(u) {
      DecimalIsDigitString(n);
      DecimalIsDigitString(ParseUnsigned(u).value);
    }
  }

  /** What `int()` reads after stripping the whitespace: the text after an
      optional sign. */
  function Magnitude(u: string): string {
    if |u| > 0 && (u[0] == '-' || u[0] == '+') then u[1..] else u
  }

  /** Python's `int()` on a text, in base 10: `None` where it raises
      `ValueError`.  The text parses exactly when, stripped of whitespace and
      of an optional sign, it is a digit string; the magnitude is the number
      that the digits spell, and a nonzero result is negative exactly when
      the sign is `-`. */
  function ParseInt(s: string): (r: Option<int>)
    ensures r.Some? <==> IsDigitString(Magnitude(Strip(s)))
    ensures r.Some? ==> Decimal(if r.value < 0 then -r.value else r.value) == Canonical(Magnitude(Strip(s)))
    ensures r.Some? && r.value != 0 ==> |Strip(s)| > 0 && (r.value < 0 <==> Strip(s)[0] == '-')
  {
    var u := Strip(s);
    if |u| > 0 && u[0] == '-' then
      match ParseUnsigned(u[1..])
      case Some(n) => Some(-(n as int))
      case None => None
    else if |u| > 0 && u[0] == '+' then
      match ParseUnsigned(u[1..])
      case Some(n) => Some(n)
      case None => None
    else
      match ParseUnsigned(u)
      case Some(n) => Some(n)
      case None => None
  }

  /** A blank field is not a number: `int()` of whitespace raises. */
  lemma ParseIntRejectsBlank(s: string)
    requires forall j :: 0 <= j < |s| ==> IsSpace(s[j])
    ensures ParseInt(s).None?
  {
    assert TrimStart(s) == [];
  }

  // ---------------------------------------------------------------------
  // Writing integers, as the tables do: decimal, right-justified

  function DigitChar(d: nat): (c: char)
    requires d < 10
    ensures IsDigit(c) && DigitValue(c) == d
  {
    ('0' as int + d) as char
  }

  /** The shortest decimal representation of `n`. */
  function Decimal(n: nat): string
    decreases n
  {
    if n < 10 then [DigitChar(n)] else Decimal(n / 10) + [DigitChar(n % 10)]
  }

  /** `str(n)`: an optional minus sign and the decimal digits. */
  function Show(n: int): string {
    if n < 0 then "-" + Decimal(-n) else Decimal(n)
  }

  function Spaces(k: nat): (s: string)
    ensures |s| == k && forall j :: 0 <= j < k ==> s[j] == ' '
  {
    seq(k, j => ' ')
  }

  /** `s.rjust(w)`: `s` padded with spaces on the left to width `w`. */
  function RightJustify(s: string, w: nat): (r: string)
    ensures |r| == if |s| < w then w else |s|
  {
    if |s| < w then Spaces(w - |s|) + s else s
  }

  lemma {:induction false} DecimalIsDigitString(n: nat)
    ensures IsDigitString(Decimal(n))
    ensures forall j :: 0 <= j < |Decimal(n)| ==> IsDigit(Decimal(n)[j])
    ensures DigitsValue(Decimal(n)) == n
    decreases n
  {
    if n >= 10 {
      var u := Decimal(n / 10);
      DecimalIsDigitString(n / 10);
      var c := DigitChar(n % 10);
      assert Decimal(n) == u + [c];
      assert (u + [c])[..|u|] == u;
    }
  }

  /** Removing the underscores keeps the digits and their value. */
  lemma {:induction false} UnderscoresIgnored(u: string)
    requires forall j :: 0 <= j < |u| ==> IsDigit(u[j]) || u[j] == '_'
    ensures forall j :: 0 <= j < |WithoutUnderscores(u)| ==> IsDigit(WithoutUnderscores(u)[j])
    ensures DigitsValue(WithoutUnderscores(u)) == DigitsValue(u)
    decreases |u|
  {
    if |u| > 0 {
      var n := |u| - 1;
      var w := WithoutUnderscores(u[..n]);
      UnderscoresIgnored(u[..n]);
      if u[n] != '_' {
        assert (w + [u[n]])[..|w|] == w;
      }
    }
  }

  /** A leading zero adds nothing to the value. */
  lemma {:induction false} LeadingZeroIgnored(d: string)
    requires forall j :: 0 <= j < |d| ==> IsDigit(d[j])
    ensures DigitsValue(['0'] + d) == DigitsValue(d)
    decreases |d|
  {
    if |d| == 0 {
      assert (['0'] + d)[..0] == [];
    } else {
      var n := |d| - 1;
      LeadingZeroIgnored(d[..n]);
      assert (['0'] + d)[..|d|] == ['0'] + d[..n];
    }
  }

  /** Removing the leading zeros of a digit string keeps its value and leaves
      a single digit or a string that starts with a nonzero digit. */
  lemma {:induction false} LeadingZerosIgnored(d: string)
    requires |d| > 0 && forall j :: 0 <= j < |d| ==> IsDigit(d[j])
    ensures var w := WithoutLeadingZeros(d);
            && |w| > 0 && (|w| == 1 || w[0] != '0')
            && (forall j :: 0 <= j < |w| ==> IsDigit(w[j]))
            && DigitsValue(w) == DigitsValue(d)
    decreases |d|
  {
    if |d| > 1 && d[0] == '0' {
      LeadingZerosIgnored(d[1..]);
      LeadingZeroIgnored(d[1..]);
      assert ['0'] + d[1..] == d;
    }
  }

  /** A digit string that starts with a nonzero digit stands for a positive number. */
  lemma {:induction false} LeadingDigitPositive(v: string)
    requires |v| > 0 && v[0] != '0' && forall j :: 0 <= j < |v| ==> IsDigit(v[j])
    ensures DigitsValue(v) >= 1
    decreases |v|
  {
    if |v| > 1 {
      LeadingDigitPositive(v[..|v| - 1]);
    } else {
      assert v[..0] == [];
    }
  }

  /** A digit string without leading zeros is the decimal spelling of its value. */
  lemma {:induction false} CanonicalIsDecimal(w: string)
    requires |w| > 0 && (|w| == 1 || w[0] != '0') && forall j :: 0 <= j < |w| ==> IsDigit(w[j])
    ensures Decimal(DigitsValue(w)) == w
    decreases |w|
  {
    var n := |w| - 1;
    var v := w[..n];
    var d := DigitValue(w[n]);
    assert DigitChar(d) == w[n];
    if n == 0 {
      assert v == [];
      assert [w[n]] == w;
    } else {
      CanonicalIsDecimal(v);
      LeadingDigitPositive(v);
      var m := DigitsValue(v) * 10 + d;
      assert m / 10 == DigitsValue(v) && m % 10 == d;
      assert v + [w[n]] == w;
    }
  }

  /** The value of a digit string is the number its canonical form spells. */
  lemma DigitsReadCanonically(u: string)
    requires IsDigitString(u)
    ensures Decimal(DigitsValue(u)) == Canonical(u)
  {
    UnderscoresIgnored(u);
    var d := WithoutUnderscores(u);
    assert |d| > 0;
    LeadingZerosIgnored(d);
    CanonicalIsDecimal(WithoutLeadingZeros(d));
  }

  lemma {:induction false} TrimSpaces(k: nat, s: string)
    requires |s| > 0 && !IsSpace(s[0])
    ensures TrimStart(Spaces(k) + s) == s
    decreases k
  {
    if k > 0 {
      assert (Spaces(k) + s)[1..] == Spaces(k - 1) + s;
      TrimSpaces(k - 1, s);
    } else {
      assert Spaces(k) + s == s;
    }
  }

  lemma StripJustified(s: string, w: nat)
    requires |s| > 0 && !IsSpace(s[0]) && !IsSpace(s[|s| - 1])
    ensures Strip(RightJustify(s, w)) == s
  {
    if |s| < w {
      TrimSpaces(w - |s|, s);
    } else {
      TrimSpaces(0, s);
      assert Spaces(0) + s == s;
    }
  }

  lemma ShowShape(n: int)
    ensures |Show(n)| > 0
    ensures n < 0 ==> Show(n)[0] == '-' && Show(n)[1..] == Decimal(-n)
    ensures n >= 0 ==> Show(n) == Decimal(n) && IsDigit(Show(n)[0])
    ensures IsDigit(Show(n)[|Show(n)| - 1])
  {
    var m: nat := if n < 0 then -n else n;
    DecimalIsDigitString(m);
    if n < 0 {
      assert Show(n) == "-" + Decimal(m);
      assert Show(n)[|Show(n)| - 1] == Decimal(m)[|Decimal(m)| - 1];
    }
  }

  /** Reading back an integer written right-justified in any width gives the
      integer: `int(str(n).rjust(w)) == n`. */
  lemma ParseIntReadsShow(n: int, w: nat)
    ensures ParseInt(RightJustify(Show(n), w)) == Some(n)
  {
    var m: nat := if n < 0 then -n else n;
    DecimalIsDigitString(m);
    ShowShape(n);
    StripJustified(Show(n), w);
    var u := Strip(RightJustify(Show(n), w));
    if n < 0 {
      assert u[0] == '-' && u[1..] == Decimal(m);
      assert ParseUnsigned(u[1..]) == Some(m);
    } else {
      assert u == Decimal(m) && u[0] != '-' && u[0] != '+';
      assert ParseUnsigned(u) == Some(m);
    }
  }

  // ---------------------------------------------------------------------
  // The line format

  /** The `j`-th integer column: characters `3j` to `3j + 3`. */
  function IntColumn(line: string, j: nat): string {
    Slice(line, 3 * j, 3 * j + 3)
  }

  /** The columns of the phase field of a layout (unused for `MainLayout`). */
  function PhaseColumns(l: Layout): (nat, nat) {
    match l
    case MainLayout => (0, 0)
    case ShortLayout => (16, 25)
    case PlanetaryLayout => (34, 43)
  }

  /** The columns of the amplitude field of a layout. */
  function AmplitudeColumns(l: Layout): (nat, nat) {
    match l
    case MainLayout => (14, 27)
    case ShortLayout => (26, 35)
    case PlanetaryLayout => (44, 53)
  }

  /** Every field that the layout reads from the line is well formed, with
      `readInt` and `readFloat` as the readers of integer and decimal fields. */
  predicate ColumnsParse(l: Layout, line: string, readInt: string -> Option<int>, readFloat: string -> Option<real>) {
    && (forall j :: 0 <= j < Arity(l) ==> readInt(IntColumn(line, j)).Some?)
    && readFloat(Slice(line, AmplitudeColumns(l).0, AmplitudeColumns(l).1)).Some?
    && (l != MainLayout ==> readFloat(Slice(line, PhaseColumns(l).0, PhaseColumns(l).1)).Some?)
  }

  /** Parses one data line of table `i`, reading the columns of its layout with
      the readers `readInt` and `readFloat`: `None` where one of the fields is not a
      number.  The loader reads integers with `ParseInt`. */
  function ParseRecord(i: nat, line: string, readInt: string -> Option<int>, readFloat: string -> Option<real>): (r: Option<Record>)
    ensures r.Some? ==> Shaped(LayoutOf(i), r.value)
  {
    var i1, i2, i3, i4 := readInt(Slice(line, 0, 3)), readInt(Slice(line, 3, 6)), readInt(Slice(line, 6, 9)), readInt(Slice(line, 9, 12));
    var head := i1.Some? && i2.Some? && i3.Some? && i4.Some?;
    if i < 3 then
      var a := readFloat(Slice(line, 14, 27));
      if head && a.Some? then Some(MainTerm(i1.value, i2.value, i3.value, i4.value, a.value)) else None
    else if i < 9 then
      var i5, ph, a := readInt(Slice(line, 12, 15)), readFloat(Slice(line, 16, 25)), readFloat(Slice(line, 26, 35));
      if head && i5.Some? && ph.Some? && a.Some?
      then Some(ShortTerm(i1.value, i2.value, i3.value, i4.value, i5.value, ph.value, a.value))
      else None
    else if i < 21 then
      var i5, i6, i7, i8 := readInt(Slice(line, 12, 15)), readInt(Slice(line, 15, 18)), readInt(Slice(line, 18, 21)), readInt(Slice(line, 21, 24));
      var i9, i10, i11 := readInt(Slice(line, 24, 27)), readInt(Slice(line, 27, 30)), readInt(Slice(line, 30, 33));
      var ph, a := readFloat(Slice(line, 34, 43)), readFloat(Slice(line, 44, 53));
      if head && i5.Some? && i6.Some? && i7.Some? && i8.Some? && i9.Some? && i10.Some? && i11.Some? && ph.Some? && a.Some?
      then Some(PlanetaryTerm(i1.value, i2.value, i3.value, i4.value, i5.value, i6.value, i7.value, i8.value,
                              i9.value, i10.value, i11.value, ph.value, a.value))
      else None
    else
      var i5, ph, a := readInt(Slice(line, 12, 15)), readFloat(Slice(line, 16, 25)), readFloat(Slice(line, 26, 35));
      if head && i5.Some? && ph.Some? && a.Some?
      then Some(ShortTerm(i1.value, i2.value, i3.value, i4.value, i5.value, ph.value, a.value))
      else None
  }

  /** What a parsed record holds: its multipliers are the integers of the
      consecutive 3-character columns, as many as the layout has; its
      amplitude and phase are the decimal fields of the layout's columns; and
      parsing fails exactly when one of those fields is malformed. */
  lemma ParseRecordReadsColumns(i: nat, line: string, readInt: string -> Option<int>, readFloat: string -> Option<real>)
    ensures ParseRecord(i, line, readInt, readFloat).Some? <==> ColumnsParse(LayoutOf(i), line, readInt, readFloat)
    ensures ParseRecord(i, line, readInt, readFloat).Some? ==>
              Multipliers(ParseRecord(i, line, readInt, readFloat).value) == ColumnValues(LayoutOf(i), line, readInt)
    ensures ParseRecord(i, line, readInt, readFloat).Some? ==>
              Some(ParseRecord(i, line, readInt, readFloat).value.a) == readFloat(Slice(line, AmplitudeColumns(LayoutOf(i)).0, AmplitudeColumns(LayoutOf(i)).1))
    ensures ParseRecord(i, line, readInt, readFloat).Some? && LayoutOf(i) != MainLayout ==>
              Some(ParseRecord(i, line, readInt, readFloat).value.ph) == readFloat(Slice(line, PhaseColumns(LayoutOf(i)).0, PhaseColumns(LayoutOf(i)).1))
  {
    if i < 3 {
      MainColumns(i, line, readInt, readFloat);
    } else if 9 <= i < 21 {
      PlanetaryColumns(i, line, readInt, readFloat);
    } else {
      ShortColumns(i, line, readInt, readFloat);
    }
  }

  lemma MainColumns(i: nat, line: string, readInt: string -> Option<int>, readFloat: string -> Option<real>)
    requires i < 3
    ensures ParseRecord(i, line, readInt, readFloat).Some? <==> ColumnsParse(MainLayout, line, readInt, readFloat)
    ensures ParseRecord(i, line, readInt, readFloat).Some? ==>
              Multipliers(ParseRecord(i, line, readInt, readFloat).value) == ColumnValues(MainLayout, line, readInt)
  {
    IntColumns(line);
    assert forall j {:trigger IntColumn(line, j)} :: 0 <= j < 4 ==> j == 0 || j == 1 || j == 2 || j == 3;
  }

  lemma ShortColumns(i: nat, line: string, readInt: string -> Option<int>, readFloat: string -> Option<real>)
    requires 3 <= i < 9 || 21 <= i
    ensures ParseRecord(i, line, readInt, readFloat).Some? <==> ColumnsParse(ShortLayout, line, readInt, readFloat)
    ensures ParseRecord(i, line, readInt, readFloat).Some? ==>
              Multipliers(ParseRecord(i, line, readInt, readFloat).value) == ColumnValues(ShortLayout, line, readInt)
  {
    IntColumns(line);
    assert forall j {:trigger IntColumn(line, j)} :: 0 <= j < 5 ==> j == 0 || j == 1 || j == 2 || j == 3 || j == 4;
  }

  lemma PlanetaryColumns(i: nat, line: string, readInt: string -> Option<int>, readFloat: string -> Option<real>)
    requires 9 <= i < 21
    ensures ParseRecord(i, line, readInt, readFloat).Some? <==> ColumnsParse(PlanetaryLayout, line, readInt, readFloat)
    ensures ParseRecord(i, line, readInt, readFloat).Some? ==>
              Multipliers(ParseRecord(i, line, readInt, readFloat).value) == ColumnValues(PlanetaryLayout, line, readInt)
  {
    IntColumns(line);
    assert forall j {:trigger IntColumn(line, j)} :: 0 <= j < 11 ==>
      (j == 0 || j == 1 || j == 2 || j == 3 || j == 4 || j == 5 || j == 6 || j == 7 || j == 8 || j == 9 || j == 10);
  }

  /** The integers of the first `Arity(l)` columns (meaningful when they parse). */
  function ColumnValues(l: Layout, line: string, readInt: string -> Option<int>): (m: seq<int>)
    ensures |m| == Arity(l)
  {
    seq(Arity(l), j requires 0 <= j < Arity(l) =>
      match readInt(IntColumn(line, j)) case Some(v) => v case None => 0)
  }

  /** The integer columns are the slices the loader reads. */
  lemma IntColumns(line: string)
    ensures IntColumn(line, 0) == Slice(line, 0, 3) && IntColumn(line, 1) == Slice(line, 3, 6)
    ensures IntColumn(line, 2) == Slice(line, 6, 9) && IntColumn(line, 3) == Slice(line, 9, 12)
    ensures IntColumn(line, 4) == Slice(line, 12, 15) && IntColumn(line, 5) == Slice(line, 15, 18)
    ensures IntColumn(line, 6) == Slice(line, 18, 21) && IntColumn(line, 7) == Slice(line, 21, 24)
    ensures IntColumn(line, 8) == Slice(line, 24, 27) && IntColumn(line, 9) == Slice(line, 27, 30)
    ensures IntColumn(line, 10) == Slice(line, 30, 33)
  {}

  /** A line that ends before the last integer column of its table's layout
      is rejected, whatever the decimal reader does. */
  lemma ShortLineRejected(i: nat, line: string, readFloat: string -> Option<real>)
    requires |line| <= 3 * (Arity(LayoutOf(i)) - 1)
    ensures ParseRecord(i, line, ParseInt, readFloat).None?
  {
    var last := Arity(LayoutOf(i)) - 1;
    ParseIntRejectsBlank(IntColumn(line, last));
    ParseRecordReadsColumns(i, line, ParseInt, readFloat);
  }
}
