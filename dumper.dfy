/** dumper.go: the `Dumper` settings, the per-table script (`scriptTable`
    with `scriptSequences` and `scriptPrimaryKeys`), and the two chunked
    runs `DumpDatabase` and `DumpToCSV`. The goroutines of a chunk are run
    one after the other here; the order in which they finish, and so the
    order of their writes, is any ordering of the chunk. */
module Dumper {
  import opened Common
  import opened Text
  import opened Template
  import opened Schema

  // ---------------------------------------------------------------------
  // NewDumper

  datatype Dumper = Dumper(connectionString: string, parallels: int, dumpVersion: string)

  /** The thread count used when the caller asks for none. */
  const DefaultParallels := 50

  /** The version recorded when the latest tag cannot be fetched. */
  const UnknownVersion := "unknown"

  /** `NewDumper`, given what fetching the latest tag produced. */
  function NewDumper(connectionString: string, threads: int, fetchedVersion: Result<string>): (d: Dumper)
    ensures d.connectionString == connectionString
    ensures d.parallels >= 1
    ensures threads > 0 ==> d.parallels == threads
    ensures threads <= 0 ==> d.parallels == DefaultParallels
    ensures fetchedVersion.Ok? ==> d.dumpVersion == fetchedVersion.value
    ensures fetchedVersion.Err? ==> d.dumpVersion == UnknownVersion
  {
    var version := if fetchedVersion.Ok? then fetchedVersion.value else UnknownVersion;
    var parallels := if threads <= 0 then DefaultParallels else threads;
    Dumper(connectionString, parallels, version)
  }

  // ---------------------------------------------------------------------
  // slices.Chunk

  /** The concatenation of a list of lists. */
  function Flatten<T>(cs: seq<seq<T>>): seq<T>
  {
    if |cs| == 0 then [] else cs[0] + Flatten(cs[1..])
  }

  lemma {:induction false} FlattenSnoc<T>(cs: seq<seq<T>>, c: seq<T>)
    ensures Flatten(cs + [c]) == Flatten(cs) + c
  {
    if |cs| == 0 {
      assert Flatten([c]) == c + Flatten([c][1..]);
    } else {
      assert (cs + [c])[1..] == cs[1..] + [c];
      FlattenSnoc(cs[1..], c);
    }
  }

  /** `slices.Chunk(s, n)`: consecutive pieces of `n` elements, the last
      one possibly shorter; no pieces for an empty list. `slices.Chunk`
      panics when `n` is below 1. */
  function Chunks<T>(s: seq<T>, n: nat): (cs: seq<seq<T>>)
    requires n >= 1
    ensures Flatten(cs) == s
    ensures forall i :: 0 <= i < |cs| ==> 0 < |cs[i]| <= n
    ensures forall i :: 0 <= i < |cs| - 1 ==> |cs[i]| == n
    ensures |s| == 0 <==> |cs| == 0
    decreases |s|
  {
    if |s| == 0 then []
    else if |s| <= n then
      assert Flatten([s]) == s + Flatten([s][1..]);
      [s]
    else
      var rest := Chunks(s[n..], n);
      var cs := [s[..n]] + rest;
      assert cs[1..] == rest;
      assert s == s[..n] + s[n..];
      cs
  }

  // ---------------------------------------------------------------------
  // scriptSequences

  /** One row of the sequence query: seq_creation, seq_owned and
      col_default, each possibly NULL. */
  datatype SequenceRow = SequenceRow(seqCreation: Option<string>, seqOwned: Option<string>, colDefault: Option<string>)

  /** All three columns scan into Go `string`s, so none may be NULL. */
  predicate SequenceScans(row: SequenceRow)
  {
    row.seqCreation.Some? && row.seqOwned.Some? && row.colDefault.Some?
  }

  /** The lines written for the sequence rows: per row, the creation
      statement and then the column default; seq_owned is not used. */
  function SequenceLines(rows: seq<SequenceRow>): (ls: seq<string>)
    requires forall k :: 0 <= k < |rows| ==> SequenceScans(rows[k])
    ensures |ls| == 2 * |rows|
  {
    if |rows| == 0 then []
    else
      var last := rows[|rows| - 1];
      assert SequenceScans(last);
      SequenceLines(rows[..|rows| - 1]) + [last.seqCreation.value, last.colDefault.value]
  }

  /** Line 2k is row k's creation statement and line 2k + 1 its column
      default. */
  lemma {:induction false} SequenceLinesAt(rows: seq<SequenceRow>, k: nat)
    requires forall k :: 0 <= k < |rows| ==> SequenceScans(rows[k])
    requires k < |rows|
    ensures SequenceLines(rows)[2 * k] == rows[k].seqCreation.value
    ensures SequenceLines(rows)[2 * k + 1] == rows[k].colDefault.value
  {
    var init := rows[..|rows| - 1];
    if k < |rows| - 1 {
      SequenceLinesAt(init, k);
    }
  }

  const ScanSequenceContext := "error scanning sequence information"
  const IterateSequencesContext := "error iterating over sequences"

  /** What `scriptSequences` returns for the sequence query `q` of a table:
      the query error, the first scan error, the iteration error, or every
      row's two lines, each ended by a newline. */
  function SequencesScript(tableName: string, q: Query<SequenceRow>): Result<string>
  {
    match q
    case Failed(cause) =>
      Err(Wrapped("error querying sequences for table " + tableName, DriverError(cause)))
    case Rows(_, rows, iterErr) =>
      if !(forall k :: 0 <= k < |rows| ==> SequenceScans(rows[k])) then
        Err(Wrapped(ScanSequenceContext, NullIntoString))
      else if iterErr.Some? then
        Err(Wrapped(IterateSequencesContext, DriverError(iterErr.value)))
      else Ok(Terminated(SequenceLines(rows)))
  }

  method ScriptSequences(tableName: string, q: Query<SequenceRow>) returns (r: Result<string>)
    ensures r == SequencesScript(tableName, q)
  {
    if q.Failed? {
      return Err(Wrapped("error querying sequences for table " + tableName, DriverError(q.cause)));
    }
    var rows := q.rows;
    var sequencesSQL := "";
    var i := 0;
    while i < |rows|
      invariant 0 <= i <= |rows|
      invariant forall k :: 0 <= k < i ==> SequenceScans(rows[k])
      invariant sequencesSQL == Terminated(SequenceLines(rows[..i]))
    {
      var row := rows[i];
      if row.seqCreation.None? || row.seqOwned.None? || row.colDefault.None? {
        assert !SequenceScans(rows[i]);
        return Err(Wrapped(ScanSequenceContext, NullIntoString));
      }
      var seqCreation, colDefault := row.seqCreation.value, row.colDefault.value;
      SequenceStep(rows, i);
      sequencesSQL := sequencesSQL + (seqCreation + "\n" + colDefault + "\n");
      i := i + 1;
    }
    TakeAll(rows);
    assert forall k :: 0 <= k < |rows| ==> SequenceScans(rows[k]);
    if q.iterErr.Some? {
      return Err(Wrapped(IterateSequencesContext, DriverError(q.iterErr.value)));
    }
    return Ok(sequencesSQL);
  }

  lemma {:induction false} SequenceStep(rows: seq<SequenceRow>, i: nat)
    requires i < |rows| && forall k :: 0 <= k <= i ==> SequenceScans(rows[k])
    ensures Terminated(SequenceLines(rows[..i + 1])) ==
      Terminated(SequenceLines(rows[..i])) + (rows[i].seqCreation.value + "\n" + rows[i].colDefault.value + "\n")
  {
    var seqCreation, colDefault := rows[i].seqCreation.value, rows[i].colDefault.value;
    TakeSnoc(rows, i);
    var before := SequenceLines(rows[..i]);
    assert rows[..i + 1][..i] == rows[..i];
    assert SequenceLines(rows[..i + 1]) == before + [seqCreation] + [colDefault];
    TerminatedSnoc(before, seqCreation);
    TerminatedSnoc(before + [seqCreation], colDefault);
    Associative(Terminated(before) + seqCreation, "\n", colDefault + "\n");
    Associative(Terminated(before), seqCreation, "\n" + (colDefault + "\n"));
  }

  /** Two sequence rows that differ only in the text of seq_owned write the
      same lines. */
  predicate SameButOwned(a: SequenceRow, b: SequenceRow)
  {
    a.seqCreation == b.seqCreation && a.colDefault == b.colDefault &&
    a.seqOwned.Some? == b.seqOwned.Some?
  }

  /** The seq_owned text never reaches the script; only whether it is NULL
      matters (a NULL there fails the scan). */
  lemma {:induction false} SequencesIgnoreOwned(tableName: string, q: Query<SequenceRow>, rows': seq<SequenceRow>)
    requires q.Rows? && |rows'| == |q.rows|
    requires forall k :: 0 <= k < |rows'| ==> SameButOwned(q.rows[k], rows'[k])
    ensures SequencesScript(tableName, q.(rows := rows')) == SequencesScript(tableName, q)
  {
    if forall k :: 0 <= k < |rows'| ==> SequenceScans(rows'[k]) {
      SequenceLinesSame(q.rows, rows');
    }
  }

  lemma {:induction false} SequenceLinesSame(a: seq<SequenceRow>, b: seq<SequenceRow>)
    requires |a| == |b|
    requires forall k :: 0 <= k < |a| ==> SequenceScans(a[k]) && SameButOwned(a[k], b[k])
    ensures forall k :: 0 <= k < |b| ==> SequenceScans(b[k])
    ensures SequenceLines(a) == SequenceLines(b)
  {
    if |a| > 0 {
      SequenceLinesSame(a[..|a| - 1], b[..|b| - 1]);
    }
  }

  /** A NULL seq_owned fails the whole script, whatever else the rows
      hold. */
  lemma {:induction false} NullOwnedFails(tableName: string, q: Query<SequenceRow>, k: nat)
    requires q.Rows? && k < |q.rows| && q.rows[k].seqOwned.None?
    ensures SequencesScript(tableName, q) == Err(Wrapped(ScanSequenceContext, NullIntoString))
  {
    assert !SequenceScans(q.rows[k]);
  }

  lemma {:induction false} SequenceLinesSingle(rows: seq<SequenceRow>)
    requires forall k :: 0 <= k < |rows| ==>
      (SequenceScans(rows[k]) && '\n' !in rows[k].seqCreation.value && '\n' !in rows[k].colDefault.value)
    ensures forall j :: 0 <= j < |SequenceLines(rows)| ==> '\n' !in SequenceLines(rows)[j]
  {
    if |rows| > 0 {
      SequenceLinesSingle(rows[..|rows| - 1]);
    }
  }

  /** Read back, a successful sequence script is two lines per row, the
      creation statement and then the column default, in row order, and an
      empty remainder; no rows give the empty text. */
  lemma {:induction false} SequencesReadBack(tableName: string, q: Query<SequenceRow>)
    requires SequencesScript(tableName, q).Ok?
    requires forall k :: 0 <= k < |q.rows| ==>
      (q.rows[k].seqCreation.Some? && q.rows[k].colDefault.Some? &&
       '\n' !in q.rows[k].seqCreation.value && '\n' !in q.rows[k].colDefault.value)
    ensures |q.rows| == 0 ==> SequencesScript(tableName, q).value == ""
    ensures var ls := Lines(SequencesScript(tableName, q).value);
      && |ls| == 2 * |q.rows| + 1 && ls[2 * |q.rows|] == ""
      && forall k :: 0 <= k < |q.rows| ==>
           ls[2 * k] == q.rows[k].seqCreation.value && ls[2 * k + 1] == q.rows[k].colDefault.value
  {
    var lines := SequenceLines(q.rows);
    SequenceLinesSingle(q.rows);
    TerminatedLines(lines);
    forall k | 0 <= k < |q.rows|
      ensures lines[2 * k] == q.rows[k].seqCreation.value && lines[2 * k + 1] == q.rows[k].colDefault.value
    {
      SequenceLinesAt(q.rows, k);
    }
  }

  // ---------------------------------------------------------------------
  // scriptPrimaryKeys

  /** One row of the primary-key query: constraint_name and
      constraint_def, each possibly NULL. */
  datatype KeyRow = KeyRow(constraintName: Option<string>, constraintDef: Option<string>)

  predicate KeyScans(row: KeyRow)
  {
    row.constraintName.Some? && row.constraintDef.Some?
  }

  function AlterLine(tableName: string, constraintName: string, constraintDef: string): string
  {
    "ALTER TABLE public." + tableName + " ADD CONSTRAINT " + constraintName + " " + constraintDef + ";"
  }

  /** A constraint line gives back its definition verbatim: it is what
      stands between the fixed prefix and the final semicolon. */
  lemma {:induction false} AlterLineParts(tableName: string, constraintName: string, constraintDef: string)
    ensures var line, p := AlterLine(tableName, constraintName, constraintDef),
                           "ALTER TABLE public." + tableName + " ADD CONSTRAINT " + constraintName + " ";
      && |line| == |p| + |constraintDef| + 1
      && line[..|p|] == p && line[|p|..|line| - 1] == constraintDef && line[|line| - 1] == ';'
  {
  }

  function KeyLine(tableName: string, row: KeyRow): string
    requires KeyScans(row)
  {
    AlterLine(tableName, row.constraintName.value, row.constraintDef.value)
  }

  /** One line per key row, in row order. */
  function KeyLines(tableName: string, rows: seq<KeyRow>): (ls: seq<string>)
    requires forall k :: 0 <= k < |rows| ==> KeyScans(rows[k])
    ensures |ls| == |rows|
    ensures forall k :: 0 <= k < |rows| ==>
      ls[k] == KeyLine(tableName, rows[k])
  {
    if |rows| == 0 then []
    else
      KeyLines(tableName, rows[..|rows| - 1]) +
      [KeyLine(tableName, rows[|rows| - 1])]
  }

  const ScanKeyContext := "error scanning primary key information"
  const IterateKeysContext := "error iterating over primary keys"

  /** What `scriptPrimaryKeys` returns for the key query `q` of a table. */
  function PrimaryKeysScript(tableName: string, q: Query<KeyRow>): Result<string>
  {
    match q
    case Failed(cause) =>
      Err(Wrapped("error querying primary keys for table " + tableName, DriverError(cause)))
    case Rows(_, rows, iterErr) =>
      if !(forall k :: 0 <= k < |rows| ==> KeyScans(rows[k])) then
        Err(Wrapped(ScanKeyContext, NullIntoString))
      else if iterErr.Some? then
        Err(Wrapped(IterateKeysContext, DriverError(iterErr.value)))
      else Ok(Terminated(KeyLines(tableName, rows)))
  }

  method ScriptPrimaryKeys(tableName: string, q: Query<KeyRow>) returns (r: Result<string>)
    ensures r == PrimaryKeysScript(tableName, q)
  {
    if q.Failed? {
      return Err(Wrapped("error querying primary keys for table " + tableName, DriverError(q.cause)));
    }
    var rows := q.rows;
    var pksSQL := "";
    var i := 0;
    while i < |rows|
      invariant 0 <= i <= |rows|
      invariant forall k :: 0 <= k < i ==> KeyScans(rows[k])
      invariant pksSQL == Terminated(KeyLines(tableName, rows[..i]))
    {
      var row := rows[i];
      if row.constraintName.None? || row.constraintDef.None? {
        assert !KeyScans(rows[i]);
        return Err(Wrapped(ScanKeyContext, NullIntoString));
      }
      var constraintName, constraintDef := row.constraintName.value, row.constraintDef.value;
      assert rows[..i + 1][..i] == rows[..i];
      var line := AlterLine(tableName, constraintName, constraintDef);
      KeyStep(tableName, rows, i);
      pksSQL := pksSQL + line + "\n";
      i := i + 1;
    }
    assert rows[..i] == rows;
    assert forall k :: 0 <= k < |rows| ==> KeyScans(rows[k]);
    if q.iterErr.Some? {
      return Err(Wrapped(IterateKeysContext, DriverError(q.iterErr.value)));
    }
    return Ok(pksSQL);
  }

  lemma {:induction false} KeyStep(tableName: string, rows: seq<KeyRow>, i: nat)
    requires i < |rows| && forall k :: 0 <= k <= i ==> KeyScans(rows[k])
    ensures Terminated(KeyLines(tableName, rows[..i + 1])) ==
      Terminated(KeyLines(tableName, rows[..i])) + KeyLine(tableName, rows[i]) + "\n"
  {
    assert rows[..i + 1][..i] == rows[..i];
    TerminatedSnoc(KeyLines(tableName, rows[..i]), KeyLine(tableName, rows[i]));
  }

  /** Read back, a successful key script is one constraint line per row,
      in row order, and an empty remainder. */
  lemma {:induction false} PrimaryKeysReadBack(tableName: string, q: Query<KeyRow>)
    requires PrimaryKeysScript(tableName, q).Ok?
    requires '\n' !in tableName
    requires forall k :: 0 <= k < |q.rows| ==>
      (q.rows[k].constraintName.Some? && q.rows[k].constraintDef.Some? &&
       '\n' !in q.rows[k].constraintName.value && '\n' !in q.rows[k].constraintDef.value)
    ensures Lines(PrimaryKeysScript(tableName, q).value) == KeyLines(tableName, q.rows) + [""]
  {
    var ls := KeyLines(tableName, q.rows);
    forall k | 0 <= k < |ls| ensures '\n' !in ls[k] {
      AlterLineSingle(tableName, q.rows[k].constraintName.value, q.rows[k].constraintDef.value);
    }
    TerminatedLines(ls);
  }

  lemma {:induction false} AlterLineSingle(tableName: string, constraintName: string, constraintDef: string)
    requires '\n' !in tableName && '\n' !in constraintName && '\n' !in constraintDef
    ensures '\n' !in AlterLine(tableName, constraintName, constraintDef)
  {
  }

  // ---------------------------------------------------------------------
  // scriptTable

  /** The four catalog and data queries `scriptTable` runs for one table. */
  datatype TableQueries = TableQueries(
    columns: Query<ColumnRow>,
    sequences: Query<SequenceRow>,
    primaryKeys: Query<KeyRow>,
    data: Query<seq<Option<string>>>)

  /** What `scriptTable` returns: the CREATE TABLE statement, the sequence
      script, the key script and the COPY block, each followed by a blank
      line, or the first step's error wrapped with the table name. */
  function TableScript(tableName: string, q: TableQueries): Result<string>
  {
    var create := CreateTableStatement(tableName, q.columns);
    if create.Err? then Err(Wrapped("error creating table statement for " + tableName, create.error))
    else
      var sequences := SequencesScript(tableName, q.sequences);
      if sequences.Err? then Err(Wrapped("error scripting sequences for table " + tableName, sequences.error))
      else
        var keys := PrimaryKeysScript(tableName, q.primaryKeys);
        if keys.Err? then Err(Wrapped("error scripting primary keys for table " + tableName, keys.error))
        else
          var copy := TableDataCopyFormat(tableName, q.data);
          if copy.Err? then Err(Wrapped("error generating COPY statement for table " + tableName, copy.error))
          else Ok(create.value + "\n\n" + sequences.value + "\n\n" + keys.value + "\n\n" + copy.value + "\n\n")
  }

  method ScriptTable(tableName: string, q: TableQueries) returns (r: Result<string>)
    ensures r == TableScript(tableName, q)
  {
    var buffer := "";
    var createStmt := GetCreateTableStatement(tableName, q.columns);
    if createStmt.Err? {
      return Err(Wrapped("error creating table statement for " + tableName, createStmt.error));
    }
    buffer := buffer + createStmt.value + "\n\n";
    var seqStmts := ScriptSequences(tableName, q.sequences);
    if seqStmts.Err? {
      return Err(Wrapped("error scripting sequences for table " + tableName, seqStmts.error));
    }
    buffer := buffer + seqStmts.value + "\n\n";
    var pkStmt := ScriptPrimaryKeys(tableName, q.primaryKeys);
    if pkStmt.Err? {
      return Err(Wrapped("error scripting primary keys for table " + tableName, pkStmt.error));
    }
    buffer := buffer + pkStmt.value + "\n\n";
    var copyStmt := GetTableDataCopyFormat(tableName, q.data);
    if copyStmt.Err? {
      return Err(Wrapped("error generating COPY statement for table " + tableName, copyStmt.error));
    }
    buffer := buffer + copyStmt.value + "\n\n";
    assert buffer == createStmt.value + "\n\n" + seqStmts.value + "\n\n" + pkStmt.value + "\n\n" + copyStmt.value + "\n\n";
    return Ok(buffer);
  }

  /** The script succeeds exactly when all four steps do. */
  lemma {:induction false} TableScriptOk(tableName: string, q: TableQueries)
    ensures TableScript(tableName, q).Ok? <==>
      && CreateTableStatement(tableName, q.columns).Ok?
      && SequencesScript(tableName, q.sequences).Ok?
      && PrimaryKeysScript(tableName, q.primaryKeys).Ok?
      && TableDataCopyFormat(tableName, q.data).Ok?
  {
  }

  /** Once a step fails, the queries of the later steps make no difference:
      they are never run. */
  lemma {:induction false} TableScriptStops(tableName: string, a: TableQueries, b: TableQueries)
    requires a.columns == b.columns
    ensures CreateTableStatement(tableName, a.columns).Err? ==>
      TableScript(tableName, a) == TableScript(tableName, b)
    ensures (a.sequences == b.sequences && SequencesScript(tableName, a.sequences).Err?) ==>
      TableScript(tableName, a) == TableScript(tableName, b)
    ensures (a.sequences == b.sequences && a.primaryKeys == b.primaryKeys &&
             PrimaryKeysScript(tableName, a.primaryKeys).Err?) ==>
      TableScript(tableName, a) == TableScript(tableName, b)
  {
  }

  /** A successful script opens with the CREATE TABLE statement and ends
      with the COPY terminator line and two blank lines' worth of
      newlines. */
  lemma {:induction false} TableScriptFraming(tableName: string, q: TableQueries)
    requires TableScript(tableName, q).Ok?
    ensures var body, create := TableScript(tableName, q).value, CreateTableStatement(tableName, q.columns).value;
      && |body| >= |create| + 2 && body[..|create| + 2] == create + "\n\n"
      && |body| >= 5 && body[|body| - 5..] == "\\.\n\n\n"
  {
    var create, sequences := CreateTableStatement(tableName, q.columns).value, SequencesScript(tableName, q.sequences).value;
    var keys, copy := PrimaryKeysScript(tableName, q.primaryKeys).value, TableDataCopyFormat(tableName, q.data).value;
    assert TableScript(tableName, q).value == create + "\n\n" + sequences + "\n\n" + keys + "\n\n" + copy + "\n\n";
    assert copy == CopyBlock(tableName, q.data.columns, q.data.rows);
    CopyBlockFraming(tableName, q.data.columns, q.data.rows);
    PartsFraming(create, sequences, keys, copy);
  }

  lemma {:induction false} PartsFraming(create: string, sequences: string, keys: string, copy: string)
    requires |copy| >= 3 && copy[|copy| - 3..] == "\\.\n"
    ensures var body := create + "\n\n" + sequences + "\n\n" + keys + "\n\n" + copy + "\n\n";
      && |body| >= |create| + 2 && body[..|create| + 2] == create + "\n\n"
      && |body| >= 5 && body[|body| - 5..] == "\\.\n\n\n"
  {
    var body := create + "\n\n" + sequences + "\n\n" + keys + "\n\n" + copy + "\n\n";
    assert body[|body| - 5..] == copy[|copy| - 3..] + "\n\n";
  }

  // ---------------------------------------------------------------------
  // DumpDatabase

  /** The orders in which the jobs of each chunk finish: for every chunk,
      some ordering of its tables. */
  predicate Arrangement(orders: seq<seq<string>>, chunks: seq<seq<string>>)
  {
    |orders| == |chunks| && forall i :: 0 <= i < |chunks| ==> multiset(orders[i]) == multiset(chunks[i])
  }

  lemma {:induction false} FlattenArrangement(orders: seq<seq<string>>, chunks: seq<seq<string>>)
    requires Arrangement(orders, chunks)
    ensures multiset(Flatten(orders)) == multiset(Flatten(chunks))
  {
    if |chunks| > 0 {
      assert Arrangement(orders[1..], chunks[1..]) by {
        forall i | 0 <= i < |chunks| - 1 ensures multiset(orders[1..][i]) == multiset(chunks[1..][i]) {
          assert orders[1..][i] == orders[i + 1] && chunks[1..][i] == chunks[i + 1];
        }
      }
      FlattenArrangement(orders[1..], chunks[1..]);
    }
  }

  /** The orderings of one-table chunks are the chunks themselves. */
  lemma {:induction false} SingletonArrangement(orders: seq<seq<string>>, chunks: seq<seq<string>>)
    requires Arrangement(orders, chunks)
    requires forall i :: 0 <= i < |chunks| ==> |chunks[i]| == 1
    ensures orders == chunks
  {
    forall i | 0 <= i < |chunks| ensures orders[i] == chunks[i] {
      assert |multiset(orders[i])| == |multiset(chunks[i])|;
      assert orders[i][0] in multiset(chunks[i]);
      assert chunks[i] == [chunks[i][0]];
    }
  }

  /** The per-table job of `DumpDatabase`. */
  function ScriptFor(queriesOf: string -> TableQueries): string -> Result<string>
  {
    t => TableScript(t, queriesOf(t))
  }

  /** What a table adds to the database dump: its script, or nothing when
      the script fails. */
  function Body(tableName: string, render: string -> Result<string>): string
  {
    match render(tableName)
    case Ok(body) => body
    case Err(_) => ""
  }

  /** The bodies of the tables, in the order given. */
  function Bodies(tables: seq<string>, render: string -> Result<string>): string
  {
    if |tables| == 0 then ""
    else Bodies(tables[..|tables| - 1], render) + Body(tables[|tables| - 1], render)
  }

  lemma {:induction false} BodiesAppend(a: seq<string>, b: seq<string>, render: string -> Result<string>)
    ensures Bodies(a + b, render) == Bodies(a, render) + Bodies(b, render)
    decreases |b|
  {
    if |b| > 0 {
      var b' := b[..|b| - 1];
      assert (a + b)[..|a + b| - 1] == a + b';
      BodiesAppend(a, b', render);
    } else {
      assert a + b == a;
    }
  }

  /** A table whose script fails leaves no trace: the dump is the one of
      the other tables. */
  lemma {:induction false} FailingTableAddsNothing(a: seq<string>, t: string, b: seq<string>, render: string -> Result<string>)
    requires render(t).Err?
    ensures Bodies(a + [t] + b, render) == Bodies(a + b, render)
  {
    BodiesAppend(a + [t], b, render);
    BodiesAppend(a, [t], render);
    BodiesAppend(a, b, render);
    BodiesSingle(t, render);
    var ba, bb := Bodies(a, render), Bodies(b, render);
    assert Bodies(a + [t], render) == ba + "";
    assert ba + "" == ba;
  }

  lemma {:induction false} BodiesSingle(t: string, render: string -> Result<string>)
    ensures Bodies([t], render) == Body(t, render)
  {
    assert [t][..0] == [];
  }

  /** When every table's script fails, nothing is written between header
      and footer. */
  lemma {:induction false} AllFailingGivesEmptyDump(tables: seq<string>, render: string -> Result<string>)
    requires forall k :: 0 <= k < |tables| ==> render(tables[k]).Err?
    ensures Bodies(tables, render) == ""
  {
    if |tables| > 0 {
      AllFailingGivesEmptyDump(tables[..|tables| - 1], render);
    }
  }

  /** The thread count and versions the header shows, and the time taken
      when the run starts (the footer repeats it). */
  function RunInfo(d: Dumper, serverVersion: string, startTime: string): DumpInfo
  {
    DumpInfo(d.dumpVersion, serverVersion, startTime, d.parallels)
  }

  /** Every chunking the run may go through: any ordering of every chunk
      (nothing to order when the table list could not be read). */
  predicate ValidRun(tables: Result<seq<string>>, parallels: nat, orders: seq<seq<string>>)
    requires parallels >= 1
  {
    tables.Ok? ==> Arrangement(orders, Chunks(tables.value, parallels))
  }

  /** What `DumpDatabase` writes and returns when the chunks' jobs finish
      in the orders `orders`: the header, every table's body in that
      order, and the footer; the run fails only before the chunks. */
  function DatabaseDump(info: DumpInfo, openErr: Option<string>, createErr: Option<string>,
                        tables: Result<seq<string>>, queriesOf: string -> TableQueries,
                        orders: seq<seq<string>>): WriteOutcome
  {
    if openErr.Some? then WriteOutcome("", Some(DriverError(openErr.value)))
    else if createErr.Some? then WriteOutcome("", Some(DriverError(createErr.value)))
    else if tables.Err? then WriteOutcome(WriteHeader(info), Some(tables.error))
    else WriteOutcome(WriteHeader(info) + Bodies(Flatten(orders), ScriptFor(queriesOf)) + WriteFooter(info), None)
  }

  method DumpDatabase(d: Dumper, openErr: Option<string>, createErr: Option<string>,
                      serverVersion: string, startTime: string,
                      tables: Result<seq<string>>, queriesOf: string -> TableQueries)
    returns (written: string, err: Option<Error>)
    requires d.parallels >= 1
    ensures exists orders ::
      && ValidRun(tables, d.parallels, orders)
      && WriteOutcome(written, err) ==
         DatabaseDump(RunInfo(d, serverVersion, startTime), openErr, createErr, tables, queriesOf, orders)
  {
    ghost var none := if tables.Ok? then Chunks(tables.value, d.parallels) else [];
    assert ValidRun(tables, d.parallels, none);
    var info := DumpInfo(d.dumpVersion, serverVersion, startTime, d.parallels);
    assert info == RunInfo(d, serverVersion, startTime);
    if openErr.Some? {
      written, err := "", Some(DriverError(openErr.value));
      assert WriteOutcome(written, err) == DatabaseDump(info, openErr, createErr, tables, queriesOf, none);
      return;
    }
    if createErr.Some? {
      written, err := "", Some(DriverError(createErr.value));
      assert WriteOutcome(written, err) == DatabaseDump(info, openErr, createErr, tables, queriesOf, none);
      return;
    }
    var header := WriteHeader(info);
    if tables.Err? {
      written, err := header, Some(tables.error);
      assert WriteOutcome(written, err) == DatabaseDump(info, openErr, createErr, tables, queriesOf, none);
      return;
    }
    var chunks := Chunks(tables.value, d.parallels);
    ghost var orders;
    var bodies;
    orders, bodies := WriteChunks(chunks, queriesOf);
    assert ValidRun(tables, d.parallels, orders);
    written, err := header + bodies + WriteFooter(info), None;
    assert WriteOutcome(written, err) == DatabaseDump(info, openErr, createErr, tables, queriesOf, orders);
  }

  /** The chunks one after the other: a chunk's jobs all finish before the
      next chunk starts. */
  method WriteChunks(chunks: seq<seq<string>>, queriesOf: string -> TableQueries)
    returns (ghost orders: seq<seq<string>>, bodies: string)
    ensures Arrangement(orders, chunks)
    ensures bodies == Bodies(Flatten(orders), ScriptFor(queriesOf))
  {
    ghost var render := ScriptFor(queriesOf);
    orders := [];
    bodies := "";
    var i := 0;
    while i < |chunks|
      invariant 0 <= i <= |chunks|
      invariant Arrangement(orders, chunks[..i])
      invariant bodies == Bodies(Flatten(orders), render)
    {
      var order, text := WriteChunk(chunks[i], queriesOf);
      FlattenSnoc(orders, order);
      BodiesAppend(Flatten(orders), order, render);
      ArrangementSnoc(orders, chunks[..i], order, chunks[i]);
      TakeSnoc(chunks, i);
      bodies := bodies + text;
      orders := orders + [order];
      i := i + 1;
    }
    TakeAll(chunks);
  }

  lemma {:induction false} ArrangementSnoc(orders: seq<seq<string>>, chunks: seq<seq<string>>,
                                           order: seq<string>, chunk: seq<string>)
    requires Arrangement(orders, chunks) && multiset(order) == multiset(chunk)
    ensures Arrangement(orders + [order], chunks + [chunk])
  {
    var os, cs := orders + [order], chunks + [chunk];
    forall i | 0 <= i < |cs| ensures multiset(os[i]) == multiset(cs[i]) {
      if i < |chunks| {
        assert os[i] == orders[i] && cs[i] == chunks[i];
      }
    }
  }

  /** The jobs of one chunk: each table is scripted and, when that
      succeeds, its script is written under the lock. The jobs finish in
      some order `order` of the chunk; `text` is what they write. */
  method WriteChunk(chunk: seq<string>, queriesOf: string -> TableQueries)
    returns (order: seq<string>, text: string)
    ensures multiset(order) == multiset(chunk)
    ensures text == Bodies(order, ScriptFor(queriesOf))
  {
    order :| multiset(order) == multiset(chunk);
    text := "";
    var j := 0;
    while j < |order|
      invariant 0 <= j <= |order|
      invariant text == Bodies(order[..j], ScriptFor(queriesOf))
    {
      assert order[..j + 1][..j] == order[..j];
      var str := ScriptTable(order[j], queriesOf(order[j]));
      assert str == ScriptFor(queriesOf)(order[j]);
      if str.Ok? {
        text := text + str.value;
      }
      j := j + 1;
    }
    assert order[..j] == order;
  }

  /** In a run that gets past the table list, every table is scripted
      exactly once: the finishing order is a reordering of the table list,
      whatever fails. */
  lemma {:induction false} RunCoversTables(tables: seq<string>, parallels: nat, orders: seq<seq<string>>)
    requires parallels >= 1
    requires ValidRun(Ok(tables), parallels, orders)
    ensures multiset(Flatten(orders)) == multiset(tables)
  {
    FlattenArrangement(orders, Chunks(tables, parallels));
  }

  /** With one thread the tables are written in list order. */
  lemma {:induction false} SingleThreadKeepsOrder(tables: seq<string>, orders: seq<seq<string>>)
    requires ValidRun(Ok(tables), 1, orders)
    ensures Flatten(orders) == tables
  {
    SingletonArrangement(orders, Chunks(tables, 1));
  }

  /** Once the table list is read, the run succeeds whatever the tables'
      scripts do, and what lies between header and footer is the bodies of
      the tables in finishing order. */
  lemma {:induction false} DatabaseDumpSucceeds(info: DumpInfo, tables: seq<string>, queriesOf: string -> TableQueries,
                             orders: seq<seq<string>>)
    ensures var out := DatabaseDump(info, None, None, Ok(tables), queriesOf, orders);
      && out.err.None?
      && |out.written| == |WriteHeader(info)| + |Bodies(Flatten(orders), ScriptFor(queriesOf))| + |WriteFooter(info)|
      && out.written[..|WriteHeader(info)|] == WriteHeader(info)
      && out.written[|out.written| - |WriteFooter(info)|..] == WriteFooter(info)
  {
    var h, m, f := WriteHeader(info), Bodies(Flatten(orders), ScriptFor(queriesOf)), WriteFooter(info);
    assert DatabaseDump(info, None, None, Ok(tables), queriesOf, orders) == WriteOutcome(h + m + f, None);
    PrefixSuffix(h, m, f);
  }

  lemma {:induction false} PrefixSuffix<T>(a: seq<T>, b: seq<T>, c: seq<T>)
    ensures var w := a + b + c;
      |w| == |a| + |b| + |c| && w[..|a|] == a && w[|w| - |c|..] == c
  {
    var w := a + b + c;
    assert w[..|a|] == a;
    assert w[|w| - |c|..] == c;
  }

  // ---------------------------------------------------------------------
  // DumpToCSV

  datatype CsvOutcome = CsvOutcome(paths: seq<string>, err: Option<Error>)

  /** The error the chunk's group reports: the first one returned, in
      finishing order. */
  function ChunkFailure(order: seq<string>, job: string -> Option<Error>): Option<Error>
  {
    if |order| == 0 then None
    else
      var prev := ChunkFailure(order[..|order| - 1], job);
      if prev.Some? then prev else job(order[|order| - 1])
  }

  /** The paths the chunk's successful jobs append, in finishing order. */
  function ChunkPaths(order: seq<string>, job: string -> Option<Error>, pathOf: string -> string): seq<string>
  {
    if |order| == 0 then []
    else
      var last := order[|order| - 1];
      ChunkPaths(order[..|order| - 1], job, pathOf) + (if job(last).None? then [pathOf(last)] else [])
  }

  /** The CSV run over chunks that finish in the orders `orders`: each
      chunk runs completely; the first chunk with an error ends the run
      with that error and no paths. */
  function CsvRun(orders: seq<seq<string>>, job: string -> Option<Error>, pathOf: string -> string): CsvOutcome
  {
    if |orders| == 0 then CsvOutcome([], None)
    else
      var prev := CsvRun(orders[..|orders| - 1], job, pathOf);
      var last := orders[|orders| - 1];
      if prev.err.Some? then prev
      else if ChunkFailure(last, job).Some? then CsvOutcome([], ChunkFailure(last, job))
      else CsvOutcome(prev.paths + ChunkPaths(last, job, pathOf), None)
  }

  function CsvDump(openErr: Option<string>, orders: seq<seq<string>>,
                   job: string -> Option<Error>, pathOf: string -> string): CsvOutcome
  {
    if openErr.Some? then CsvOutcome([], Some(DriverError(openErr.value)))
    else CsvRun(orders, job, pathOf)
  }

  /** `DumpToCSV`. The per-table job (reading the table, creating its file,
      writing the records) is `job`, and `pathOf` the file path it
      writes. */
  method DumpToCSV(d: Dumper, openErr: Option<string>, tables: seq<string>,
                   job: string -> Option<Error>, pathOf: string -> string)
    returns (paths: seq<string>, err: Option<Error>)
    requires d.parallels >= 1
    ensures exists orders ::
      && Arrangement(orders, Chunks(tables, d.parallels))
      && CsvOutcome(paths, err) == CsvDump(openErr, orders, job, pathOf)
  {
    var chunks := Chunks(tables, d.parallels);
    if openErr.Some? {
      paths, err := [], Some(DriverError(openErr.value));
      assert Arrangement(chunks, chunks);
      assert CsvOutcome(paths, err) == CsvDump(openErr, chunks, job, pathOf);
      return;
    }
    ghost var orders;
    orders, paths, err := RunChunks(chunks, job, pathOf);
    assert CsvOutcome(paths, err) == CsvDump(openErr, orders, job, pathOf);
  }

  /** The chunks' groups one after the other, up to the first group that
      reports an error. The chunks never reached are given their listed
      order in `orders`: they make no difference to the outcome. */
  method RunChunks(chunks: seq<seq<string>>, job: string -> Option<Error>, pathOf: string -> string)
    returns (ghost orders: seq<seq<string>>, paths: seq<string>, err: Option<Error>)
    ensures Arrangement(orders, chunks)
    ensures CsvOutcome(paths, err) == CsvRun(orders, job, pathOf)
  {
    paths := [];
    orders := [];
    var i := 0;
    while i < |chunks|
      invariant 0 <= i <= |chunks|
      invariant Arrangement(orders, chunks[..i])
      invariant CsvRun(orders, job, pathOf) == CsvOutcome(paths, None)
    {
      var order, added, groupErr := RunChunk(chunks[i], job, pathOf);
      if groupErr.Some? {
        CsvAbort(orders, order, chunks, job, pathOf);
        orders := orders + [order] + chunks[i + 1..];
        paths, err := [], groupErr;
        return;
      }
      ghost var next := orders + [order];
      assert next[..|next| - 1] == orders;
      assert CsvRun(next, job, pathOf) == CsvOutcome(paths + added, None);
      ArrangementSnoc(orders, chunks[..i], order, chunks[i]);
      TakeSnoc(chunks, i);
      paths := paths + added;
      orders := next;
      i := i + 1;
    }
    TakeAll(chunks);
    err := None;
  }

  /** A failing chunk after chunks that succeeded ends the run with its
      error, however the remaining chunks would have finished. */
  lemma {:induction false} CsvAbort(orders: seq<seq<string>>, order: seq<string>, chunks: seq<seq<string>>,
                 job: string -> Option<Error>, pathOf: string -> string)
    requires |orders| < |chunks|
    requires Arrangement(orders, chunks[..|orders|])
    requires multiset(order) == multiset(chunks[|orders|])
    requires CsvRun(orders, job, pathOf).err.None? && ChunkFailure(order, job).Some?
    ensures var arranged := orders + [order] + chunks[|orders| + 1..];
      && Arrangement(arranged, chunks)
      && CsvRun(arranged, job, pathOf) == CsvOutcome([], ChunkFailure(order, job))
  {
    var i := |orders|;
    var arranged := orders + [order] + chunks[i + 1..];
    ExtendArrangement(orders, order, chunks);
    assert arranged[..i] == orders && arranged[i] == order;
    CsvRunStops(arranged, i, job, pathOf);
  }

  lemma {:induction false} ExtendArrangement(orders: seq<seq<string>>, order: seq<string>, chunks: seq<seq<string>>)
    requires |orders| < |chunks|
    requires Arrangement(orders, chunks[..|orders|])
    requires multiset(order) == multiset(chunks[|orders|])
    ensures Arrangement(orders + [order] + chunks[|orders| + 1..], chunks)
  {
    var i := |orders|;
    var arranged := orders + [order] + chunks[i + 1..];
    forall k | 0 <= k < |chunks| ensures multiset(arranged[k]) == multiset(chunks[k]) {
      if k < i {
        assert arranged[k] == orders[k] && chunks[..i][k] == chunks[k];
      } else if k > i {
        assert arranged[k] == chunks[k];
      }
    }
  }

  /** One chunk's group: every job runs; the successful ones append their
      paths in finishing order `order`, and the group reports the first
      error returned. */
  method RunChunk(chunk: seq<string>, job: string -> Option<Error>, pathOf: string -> string)
    returns (order: seq<string>, added: seq<string>, groupErr: Option<Error>)
    ensures multiset(order) == multiset(chunk)
    ensures groupErr == ChunkFailure(order, job)
    ensures added == ChunkPaths(order, job, pathOf)
  {
    order :| multiset(order) == multiset(chunk);
    groupErr, added := None, [];
    var j := 0;
    while j < |order|
      invariant 0 <= j <= |order|
      invariant groupErr == ChunkFailure(order[..j], job)
      invariant added == ChunkPaths(order[..j], job, pathOf)
    {
      assert order[..j + 1][..j] == order[..j];
      var result := job(order[j]);
      if result.None? {
        added := added + [pathOf(order[j])];
      } else if groupErr.None? {
        groupErr := result;
      }
      j := j + 1;
    }
    assert order[..j] == order;
  }

  /** The first chunk with an error decides the run: the chunks after it
      make no difference (they are never started), and the error is the
      first one that chunk returned. */
  lemma {:induction false} CsvRunStops(orders: seq<seq<string>>, k: nat, job: string -> Option<Error>,
                                       pathOf: string -> string)
    requires k < |orders| && ChunkFailure(orders[k], job).Some?
    requires CsvRun(orders[..k], job, pathOf).err.None?
    ensures CsvRun(orders, job, pathOf) == CsvRun(orders[..k + 1], job, pathOf)
      == CsvOutcome([], ChunkFailure(orders[k], job))
    decreases |orders|
  {
    assert orders[..k + 1][..k] == orders[..k];
    if |orders| > k + 1 {
      var init := orders[..|orders| - 1];
      assert init[..k] == orders[..k] && init[..k + 1] == orders[..k + 1];
      CsvRunStops(init, k, job, pathOf);
    } else {
      assert orders[..k + 1] == orders;
    }
  }

  /** A chunk reports an error exactly when one of its jobs fails; when
      none does, every job appends its path. */
  lemma {:induction false} ChunkFailureIff(order: seq<string>, job: string -> Option<Error>, pathOf: string -> string)
    ensures ChunkFailure(order, job).Some? <==> exists j :: 0 <= j < |order| && job(order[j]).Some?
    ensures ChunkFailure(order, job).None? ==> ChunkPaths(order, job, pathOf) == PathsOf(order, pathOf)
  {
    if |order| > 0 {
      var init := order[..|order| - 1];
      ChunkFailureIff(init, job, pathOf);
      assert forall j :: 0 <= j < |init| ==> init[j] == order[j];
      if ChunkFailure(order, job).Some? && ChunkFailure(init, job).Some? {
        var j :| 0 <= j < |init| && job(init[j]).Some?;
        assert job(order[j]).Some?;
      }
    }
  }

  function PathsOf(tables: seq<string>, pathOf: string -> string): (ps: seq<string>)
    ensures |ps| == |tables| && forall k :: 0 <= k < |tables| ==> ps[k] == pathOf(tables[k])
  {
    if |tables| == 0 then [] else PathsOf(tables[..|tables| - 1], pathOf) + [pathOf(tables[|tables| - 1])]
  }

  /** The CSV run fails exactly when some job fails, and then returns no
      paths; otherwise it returns one path per table, in finishing order. */
  lemma {:induction false} CsvRunOutcome(orders: seq<seq<string>>, job: string -> Option<Error>, pathOf: string -> string)
    ensures var out := CsvRun(orders, job, pathOf);
      && (out.err.Some? <==> exists t :: t in Flatten(orders) && job(t).Some?)
      && (out.err.Some? ==> out.paths == [])
      && (out.err.None? ==> out.paths == PathsOf(Flatten(orders), pathOf))
  {
    if |orders| > 0 {
      var init, last := orders[..|orders| - 1], orders[|orders| - 1];
      var prev, flat := CsvRun(init, job, pathOf), Flatten(init);
      CsvRunOutcome(init, job, pathOf);
      ChunkFailureIff(last, job, pathOf);
      assert orders == init + [last];
      FlattenSnoc(init, last);
      MemberOfAppend(flat, last, job);
      var before := exists t :: t in flat && job(t).Some?;
      var inLast := exists j :: 0 <= j < |last| && job(last[j]).Some?;
      var any := exists t :: t in Flatten(orders) && job(t).Some?;
      assert any == (before || inLast);
      assert prev.err.Some? == before;
      assert ChunkFailure(last, job).Some? == inLast;
      if prev.err.None? && ChunkFailure(last, job).None? {
        PathsOfAppend(flat, last, pathOf);
        assert CsvRun(orders, job, pathOf) == CsvOutcome(prev.paths + ChunkPaths(last, job, pathOf), None);
      }
    }
  }

  /** Some element of `a + b` fails exactly when one of `a` or one of `b`
      does. */
  lemma {:induction false} MemberOfAppend(a: seq<string>, b: seq<string>, job: string -> Option<Error>)
    ensures (exists t :: t in a + b && job(t).Some?) <==>
      (exists t :: t in a && job(t).Some?) || (exists j :: 0 <= j < |b| && job(b[j]).Some?)
  {
    if exists t :: t in a + b && job(t).Some? {
      var t :| t in a + b && job(t).Some?;
      if t !in a {
        var j :| 0 <= j < |b| && b[j] == t;
      }
    }
    if exists j :: 0 <= j < |b| && job(b[j]).Some? {
      var j :| 0 <= j < |b| && job(b[j]).Some?;
      assert b[j] in a + b;
    }
  }

  lemma {:induction false} PathsOfAppend(a: seq<string>, b: seq<string>, pathOf: string -> string)
    ensures PathsOf(a + b, pathOf) == PathsOf(a, pathOf) + PathsOf(b, pathOf)
  {
  }

  /** In terms of the table list: `DumpToCSV` fails exactly when some
      table's job fails; on success it returns the path of every table
      once, in some order. */
  lemma {:induction false} CsvDumpOutcome(tables: seq<string>, parallels: nat, orders: seq<seq<string>>,
                       job: string -> Option<Error>, pathOf: string -> string)
    requires parallels >= 1
    requires Arrangement(orders, Chunks(tables, parallels))
    ensures var out := CsvDump(None, orders, job, pathOf);
      && (out.err.Some? <==> exists k :: 0 <= k < |tables| && job(tables[k]).Some?)
      && (out.err.Some? ==> out.paths == [])
      && (out.err.None? ==> out.paths == PathsOf(Flatten(orders), pathOf)
                            && multiset(Flatten(orders)) == multiset(tables))
  {
    CsvRunOutcome(orders, job, pathOf);
    FlattenArrangement(orders, Chunks(tables, parallels));
    var flat := Flatten(orders);
    if exists t :: t in flat && job(t).Some? {
      var t :| t in flat && job(t).Some?;
      assert t in multiset(flat);
      assert t in multiset(tables);
      var k :| 0 <= k < |tables| && tables[k] == t;
    }
    if exists k :: 0 <= k < |tables| && job(tables[k]).Some? {
      var k :| 0 <= k < |tables| && job(tables[k]).Some?;
      assert tables[k] in multiset(tables);
      assert tables[k] in multiset(flat);
    }
  }
}
