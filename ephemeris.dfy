/** The module's state and its two public operations: loading the 36 tables
    and evaluating the Moon's state vector at an ephemeris time.

    The tables are read from 36 text files, of which the first line is a
    header and every further line a record in its table's column layout.  The
    files are given here as their lines, keyed by table index (0-based; the
    file of table `i` is the `i + 1`-th).  A file that cannot be opened and a
    line with a field that is not a number both stop the load; the tables read
    up to then stay in the store, the last of them possibly incomplete.  A
    store that has been loaded at all is evaluated; a table missing from it
    stops the evaluation at the first index the evaluator asks for. */
module Ephemeris {

  import opened Numerics
  import opened Records
  import opened Dispatch
  import opened Assembly

  // ---------------------------------------------------------------------
  // Reading one table

  /** The data lines of a file: every line after the header. */
  function DataLines(lines: seq<string>): (data: seq<string>)
    ensures |data| == if |lines| == 0 then 0 else |lines| - 1
    ensures forall j :: 0 <= j < |data| ==> data[j] == lines[j + 1]
  {
    if |lines| == 0 then [] else lines[1..]
  }

  /** The records read from data lines, and the index of the data line that
      stopped the reading, if one did. */
  datatype TableRead = TableRead(records: seq<Record>, failure: Option<nat>)

  /** The parsers of the data lines, by table: integers with `ParseInt`,
      decimals with `readFloat`. */
  function LineParsers(readFloat: string -> Option<real>): nat -> string -> Option<Record> {
    i => line => ParseRecord(i, line, ParseInt, readFloat)
  }

  /** Data lines read in order with `parse` until the first line that does not
      parse.  Every record read is the parse of its own line, none is skipped,
      and a failure names the first line that does not parse. */
  function ReadLines(data: seq<string>, parse: string -> Option<Record>): (r: TableRead)
    ensures |r.records| <= |data|
    ensures forall m :: 0 <= m < |r.records| ==> parse(data[m]) == Some(r.records[m])
    ensures r.failure.None? ==> |r.records| == |data|
    ensures r.failure.Some? ==> r.failure.value == |r.records| < |data| && parse(data[|r.records|]).None?
    decreases |data|
  {
    if |data| == 0 then TableRead([], None)
    else
      var prev := ReadLines(data[..|data| - 1], parse);
      if prev.failure.Some? then prev
      else
        match parse(data[|data| - 1])
        case None => TableRead(prev.records, Some(|data| - 1))
        case Some(k) => TableRead(prev.records + [k], None)
  }

  /** Every record a parser returns for table `i` has the layout of table `i`. */
  ghost predicate ParsersShaped(parse: nat -> string -> Option<Record>) {
    forall i: nat, line: string :: parse(i)(line).Some? ==> Shaped(LayoutOf(i), parse(i)(line).value)
  }

  /** The loader's parsers return records of their table's layout. */
  lemma LineParsersShaped(readFloat: string -> Option<real>)
    ensures ParsersShaped(LineParsers(readFloat))
  {
  }

  /** A table read from its own lines has its own layout. */
  lemma ReadLinesShaped(i: nat, data: seq<string>, parse: nat -> string -> Option<Record>)
    requires ParsersShaped(parse)
    ensures TableShaped(i, ReadLines(data, parse(i)).records)
  {
    var r := ReadLines(data, parse(i));
    forall m | 0 <= m < |r.records|
      ensures Shaped(LayoutOf(i), r.records[m])
    {
      assert parse(i)(data[m]) == Some(r.records[m]);
    }
  }

  /** Reading stops at the first line that does not parse. */
  lemma {:induction false} ReadLinesStops(data: seq<string>, j: nat, parse: string -> Option<Record>)
    requires j < |data|
    requires ReadLines(data[..j], parse).failure.None?
    requires parse(data[j]).None?
    ensures ReadLines(data, parse) == TableRead(ReadLines(data[..j], parse).records, Some(j))
    decreases |data|
  {
    if j < |data| - 1 {
      ReadLinesStops(data[..|data| - 1], j, parse);
      assert data[..|data| - 1][..j] == data[..j];
    } else {
      assert data[..|data| - 1] == data[..j];
    }
  }

  /** A line that parses adds its record to those of the lines before it. */
  lemma ReadLinesExtends(data: seq<string>, j: nat, parse: string -> Option<Record>, records: seq<Record>, k: Record)
    requires j < |data|
    requires ReadLines(data[..j], parse) == TableRead(records, None)
    requires parse(data[j]) == Some(k)
    ensures ReadLines(data[..j + 1], parse) == TableRead(records + [k], None)
  {
    assert data[..j + 1][..j] == data[..j];
  }

  // ---------------------------------------------------------------------
  // Reading the store

  /** Why a load stopped: the file of a table is missing, or a line of it (its
      0-based index in the file, the header being line 0) has a field that is
      not a number. */
  datatype LoadError = MissingFile(table: nat) | BadNumber(table: nat, line: nat)

  /** The tables a load leaves behind and the error that stopped it, if any. */
  datatype Store = Store(tables: seq<seq<Record>>, error: Option<LoadError>)

  /** The table an error is about. */
  function ErrorTable(e: LoadError): nat {
    match e
    case MissingFile(table) => table
    case BadNumber(table, _) => table
  }

  /** The load of the first `n` tables.  A table's slot is added before its
      file is opened, so an error at table `e` leaves `e + 1` tables, the last
      one holding the records read before the error. */
  function LoadUpTo(files: map<nat, seq<string>>, parse: nat -> string -> Option<Record>, n: nat): (s: Store)
    ensures |s.tables| <= n
    ensures s.error.None? ==> |s.tables| == n
    ensures s.error.Some? ==> |s.tables| == ErrorTable(s.error.value) + 1
    decreases n
  {
    if n == 0 then Store([], None)
    else
      var prev := LoadUpTo(files, parse, n - 1);
      if prev.error.Some? then prev
      else if n - 1 !in files then Store(prev.tables + [[]], Some(MissingFile(n - 1)))
      else
        var r := ReadLines(DataLines(files[n - 1]), parse(n - 1));
        Store(prev.tables + [r.records], if r.failure.Some? then Some(BadNumber(n - 1, r.failure.value + 1)) else None)
  }

  /** The load of all the tables. */
  function Load(files: map<nat, seq<string>>, readFloat: string -> Option<real>): (s: Store)
    ensures forall i :: 0 <= i < |s.tables| ==> TableShaped(i, s.tables[i])
  {
    LineParsersShaped(readFloat);
    LoadedTablesShaped(files, LineParsers(readFloat), TABLE_COUNT);
    LoadUpTo(files, LineParsers(readFloat), TABLE_COUNT)
  }

  /** Whether table `i` reads completely from the files. */
  predicate TableReads(files: map<nat, seq<string>>, parse: nat -> string -> Option<Record>, i: nat) {
    i in files && ReadLines(DataLines(files[i]), parse(i)).failure.None?
  }

  /** A load of `n` tables succeeds exactly when each of them reads
      completely. */
  lemma {:induction false} LoadUpToSucceeds(files: map<nat, seq<string>>, parse: nat -> string -> Option<Record>, n: nat)
    ensures LoadUpTo(files, parse, n).error.None? <==> forall i :: 0 <= i < n ==> TableReads(files, parse, i)
  {
    if n > 0 {
      LoadUpToSucceeds(files, parse, n - 1);
      LoadStepSucceeds(files, parse, n);
      assert (forall i :: 0 <= i < n ==> TableReads(files, parse, i)) <==>
             (forall i :: 0 <= i < n - 1 ==> TableReads(files, parse, i)) && TableReads(files, parse, n - 1);
    }
  }

  /** One more table keeps a load successful exactly when that table reads
      completely. */
  lemma LoadStepSucceeds(files: map<nat, seq<string>>, parse: nat -> string -> Option<Record>, n: nat)
    requires n > 0
    ensures LoadUpTo(files, parse, n).error.None? <==>
            LoadUpTo(files, parse, n - 1).error.None? && TableReads(files, parse, n - 1)
  {
  }

  /** After a successful load of `n` tables, table `i` holds the records of
      all the data lines of its file. */
  lemma {:induction false} LoadUpToContents(files: map<nat, seq<string>>, parse: nat -> string -> Option<Record>, n: nat, i: nat)
    requires LoadUpTo(files, parse, n).error.None? && i < n
    ensures i in files && LoadUpTo(files, parse, n).tables[i] == ReadLines(DataLines(files[i]), parse(i)).records
  {
    var prev := LoadUpTo(files, parse, n - 1);
    assert prev.error.None?;
    if i < n - 1 {
      LoadUpToContents(files, parse, n - 1, i);
      assert LoadUpTo(files, parse, n).tables[i] == prev.tables[i];
    }
  }

  /** Every table a load leaves behind, the incomplete one included, has its
      own layout. */
  lemma {:induction false} LoadedTablesShaped(files: map<nat, seq<string>>, parse: nat -> string -> Option<Record>, n: nat)
    requires ParsersShaped(parse)
    ensures forall i :: 0 <= i < |LoadUpTo(files, parse, n).tables| ==> TableShaped(i, LoadUpTo(files, parse, n).tables[i])
  {
    if n > 0 {
      LoadedTablesShaped(files, parse, n - 1);
      var prev := LoadUpTo(files, parse, n - 1);
      var tables := LoadUpTo(files, parse, n).tables;
      if prev.error.None? {
        var last: seq<Record> := [];
        if n - 1 in files {
          last := ReadLines(DataLines(files[n - 1]), parse(n - 1)).records;
          ReadLinesShaped(n - 1, DataLines(files[n - 1]), parse);
        }
        assert tables == prev.tables + [last];
        forall i | 0 <= i < |tables|
          ensures TableShaped(i, tables[i])
        {
          if i < n - 1 {
            assert tables[i] == prev.tables[i];
          }
        }
      }
    }
  }

  /** A load stops at its first error: loading more tables changes nothing. */
  lemma {:induction false} ErrorIsFinal(files: map<nat, seq<string>>, parse: nat -> string -> Option<Record>, n: nat, m: nat)
    requires n <= m && LoadUpTo(files, parse, n).error.Some?
    ensures LoadUpTo(files, parse, m) == LoadUpTo(files, parse, n)
    decreases m - n
  {
    if n < m {
      ErrorIsFinal(files, parse, n, m - 1);
    }
  }

  /** After a successful load there are 36 tables, and table `i` has one
      record per line of its file after the header: no data line is dropped. */
  lemma NoDataLineDropped(files: map<nat, seq<string>>, readFloat: string -> Option<real>, i: nat)
    requires Load(files, readFloat).error.None? && i < TABLE_COUNT
    ensures |Load(files, readFloat).tables| == TABLE_COUNT
    ensures i in files && |Load(files, readFloat).tables[i]| == if |files[i]| == 0 then 0 else |files[i]| - 1
  {
    LoadUpToSucceeds(files, LineParsers(readFloat), TABLE_COUNT);
    LoadUpToContents(files, LineParsers(readFloat), TABLE_COUNT, i);
    assert TableReads(files, LineParsers(readFloat), i);
    assert ReadLines(DataLines(files[i]), LineParsers(readFloat)(i)).failure.None?;
  }

  // ---------------------------------------------------------------------
  // The state of the module

  /** The answer of an evaluation: the state vector, or one of the two ways it
      fails. */
  datatype Answer = Ok(state: State) | NotLoaded | TableMissing(table: nat)

  /** Julian centuries since J2000 from seconds since J2000. */
  function Centuries(et: real): real {
    et / 86400.0 / 36525.0
  }

  /** What an evaluation at `et` answers for a store: nothing before any load,
      the first missing table when the store is incomplete, else the state
      derived from the position at `Centuries(et)`. */
  function StateAt(loaded: bool, tables: seq<seq<Record>>, et: real, trig: Trig): (a: Answer)
    requires forall i :: 0 <= i < |tables| && i < TABLE_COUNT ==> TableShaped(i, tables[i])
    ensures a.NotLoaded? <==> !loaded
    ensures a.TableMissing? <==> loaded && |tables| < TABLE_COUNT
    ensures a.TableMissing? ==> a.table == |tables|
  {
    if !loaded then NotLoaded
    else if |tables| < TABLE_COUNT then TableMissing(|tables|)
    else Ok(ToCartesian(Position(tables, Centuries(et), trig), trig))
  }

  /** A successful load answers every evaluation with a state; a load that
      stopped at table `e` before the last answers with table `e + 1` missing,
      and one that stopped at the last table still answers with a state. */
  lemma LoadThenEvaluate(files: map<nat, seq<string>>, readFloat: string -> Option<real>, et: real, trig: Trig)
    ensures var s := Load(files, readFloat);
            (s.error.None? ==> StateAt(true, s.tables, et, trig).Ok?) &&
            (s.error.Some? && ErrorTable(s.error.value) + 1 < TABLE_COUNT ==>
               StateAt(true, s.tables, et, trig) == TableMissing(ErrorTable(s.error.value) + 1)) &&
            (s.error.Some? && ErrorTable(s.error.value) + 1 == TABLE_COUNT ==> StateAt(true, s.tables, et, trig).Ok?)
  {
  }

  /** The module's store: `loaded` once any load has started, and the tables
      read so far. */
  class Ephemeris {
    var loaded: bool
    var tables: seq<seq<Record>>

    /** At most 36 tables, each in its own layout; nothing before a load. */
    predicate Valid()
      reads this
    {
      && |tables| <= TABLE_COUNT
      && (forall i :: 0 <= i < |tables| ==> TableShaped(i, tables[i]))
      && (!loaded ==> tables == [])
    }

    /** The state before any load. */
    constructor()
      ensures Valid() && !loaded && tables == []
    {
      loaded := false;
      tables := [];
    }

    /** Loads the 36 tables from `files`, reading decimal fields with
        `readFloat`: the store becomes what `Load` describes, including the
        partial store an error leaves, and the error is returned. */
    method ReadFiles(files: map<nat, seq<string>>, readFloat: string -> Option<real>) returns (err: Option<LoadError>)
      modifies this
      ensures Valid() && loaded
      ensures tables == Load(files, readFloat).tables && err == Load(files, readFloat).error
    {
      loaded := true;
      tables := [];
      err := None;
      var parse := LineParsers(readFloat);
      var i := 0;
      while i < TABLE_COUNT && err.None?
        invariant i <= TABLE_COUNT && loaded
        invariant LoadUpTo(files, parse, i) == Store(tables, err)
      {
        err := ReadNext(files, parse, i);
        i := i + 1;
      }
      if err.Some? {
        ErrorIsFinal(files, parse, i, TABLE_COUNT);
      }
      LoadFitsStore(files, readFloat, tables);
    }

    /** One pass of the loader: adds the slot of table `i`, then reads its
        file into it with the parser of table `i`. */
    method ReadNext(files: map<nat, seq<string>>, parse: nat -> string -> Option<Record>, i: nat) returns (err: Option<LoadError>)
      modifies this
      requires LoadUpTo(files, parse, i) == Store(tables, None)
      ensures loaded == old(loaded)
      ensures LoadUpTo(files, parse, i + 1) == Store(tables, err)
    {
      ghost var before := tables;
      tables := tables + [[]];
      if i !in files {
        return Some(MissingFile(i));
      }
      var bad := ReadTable(i, files[i], parse(i));
      LoadsTable(files, parse, i, before, tables);
      if bad.Some? {
        return Some(BadNumber(i, bad.value));
      }
      return None;
    }

    /** Reads the data lines of table `i` into its slot, which is empty, one
        record per line after the header, parsing each with `parse`, until a
        line does not parse; returns that line's index in the file. */
    method ReadTable(i: nat, lines: seq<string>, parse: string -> Option<Record>) returns (bad: Option<nat>)
      modifies this
      requires |tables| == i + 1 && tables[i] == []
      ensures loaded == old(loaded)
      ensures |tables| == i + 1 && tables[..i] == old(tables)[..i]
      ensures var r := ReadLines(DataLines(lines), parse);
              tables[i] == r.records && bad == if r.failure.Some? then Some(r.failure.value + 1) else None
    {
      ghost var data := DataLines(lines);
      var isFirstLine := true;
      for j := 0 to |lines|
        invariant loaded == old(loaded)
        invariant |tables| == i + 1 && tables[..i] == old(tables)[..i]
        invariant isFirstLine <==> j == 0
        invariant j > 0 ==> ReadLines(data[..j - 1], parse) == TableRead(tables[i], None)
        invariant j == 0 ==> tables[i] == []
      {
        if isFirstLine {
          isFirstLine := false;
          continue;
        }
        var k := parse(lines[j]);
        if k.None? {
          ReadLinesStops(data, j - 1, parse);
          return Some(j);
        }
        ReadLinesExtends(data, j - 1, parse, tables[i], k.value);
        tables := tables[i := tables[i] + [k.value]];
      }
      if |lines| > 0 {
        assert data[..|lines| - 1] == data;
      }
      return None;
    }

    /** The state vector at ephemeris time `et` (seconds past J2000): position
        in the units of the distance series, velocity per second. */
    method GetState(et: real, trig: Trig) returns (a: Answer)
      requires Valid()
      ensures a == StateAt(loaded, tables, et, trig)
    {
      if !loaded {
        return NotLoaded;
      }
      if |tables| < TABLE_COUNT {
        return TableMissing(|tables|);
      }
      var t := et / 86400.0 / 36525.0;
      assert t == Centuries(et);
      var model := CalcAll(tables, t, trig);
      a := Ok(ToCartesian(model, trig));
    }
  }

  /** The tables of a load are at most 36, each in its own layout. */
  lemma LoadFitsStore(files: map<nat, seq<string>>, readFloat: string -> Option<real>, tables: seq<seq<Record>>)
    requires tables == Load(files, readFloat).tables
    ensures |tables| <= TABLE_COUNT && forall i :: 0 <= i < |tables| ==> TableShaped(i, tables[i])
  {
  }

  /** The store after table `i` has been read into the slot added after the
      tables before it. */
  lemma LoadsTable(files: map<nat, seq<string>>, parse: nat -> string -> Option<Record>, i: nat,
                   before: seq<seq<Record>>, tables: seq<seq<Record>>)
    requires i in files && LoadUpTo(files, parse, i) == Store(before, None)
    requires |tables| == i + 1 && tables[..i] == before && tables[i] == ReadLines(DataLines(files[i]), parse(i)).records
    ensures var r := ReadLines(DataLines(files[i]), parse(i));
            LoadUpTo(files, parse, i + 1) ==
            Store(tables, if r.failure.Some? then Some(BadNumber(i, r.failure.value + 1)) else None)
  {
    SplitLast(tables);
  }

  lemma SplitLast<T>(s: seq<T>)
    requires |s| > 0
    ensures s == s[..|s| - 1] + [s[|s| - 1]]
  {
  }
}
