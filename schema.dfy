/** schema.go: the table list of the public schema, the CREATE TABLE
    statement rebuilt from `information_schema.columns`, the COPY block
    rebuilt from `SELECT *`, and `dumpSchema`, which writes one CREATE
    TABLE per table. Query results are inputs. */
module Schema {
  import opened Common
  import opened Text

  // ---------------------------------------------------------------------
  // getTables (single-argument form)

  /** The names `getTables` collects, in row order: scanning a NULL name
      into a `string` fails, and an iteration error is never asked for. */
  function PublicTables(q: Query<Option<string>>): (r: Result<seq<string>>)
    ensures q.Failed? ==> r == Err(DriverError(q.cause))
    ensures q.Rows? ==> (r.Ok? <==> forall k :: 0 <= k < |q.rows| ==> q.rows[k].Some?)
    ensures r.Ok? ==> (|r.value| == |q.rows| &&
      forall k :: 0 <= k < |q.rows| ==> q.rows[k] == Some(r.value[k]))
  {
    match q
    case Failed(cause) => Err(DriverError(cause))
    case Rows(_, rows, _) =>
      if forall k :: 0 <= k < |rows| ==> rows[k].Some?
      then Ok(seq(|rows|, k requires 0 <= k < |rows| => rows[k].value))
      else Err(NullIntoString)
  }

  method GetTables(q: Query<Option<string>>) returns (r: Result<seq<string>>)
    ensures r == PublicTables(q)
  {
    if q.Failed? {
      return Err(DriverError(q.cause));
    }
    var rows := q.rows;
    var tables: seq<string> := [];
    var i := 0;
    while i < |rows|
      invariant 0 <= i <= |rows|
      invariant |tables| == i
      invariant forall k :: 0 <= k < i ==> rows[k] == Some(tables[k])
    {
      var name := ScanString(rows[i]);
      if name.Err? {
        return Err(name.error);
      }
      tables := tables + [name.value];
      i := i + 1;
    }
    assert tables == seq(|rows|, k requires 0 <= k < |rows| => rows[k].value);
    return Ok(tables);
  }

  // ---------------------------------------------------------------------
  // getCreateTableStatement

  /** One row of the column query: column_name, data_type and
      character_maximum_length, each possibly NULL. */
  datatype ColumnRow = ColumnRow(name: Option<string>, dataType: Option<string>, maxLength: Option<int>)

  /** Name and type scan into `string`s, so both must be non-NULL; the
      length scans into a `*int` and may be NULL. */
  predicate Scannable(row: ColumnRow)
  {
    row.name.Some? && row.dataType.Some?
  }

  /** `name type`, followed by `(len)` exactly when the length is
      present. */
  function ColumnDefinition(name: string, dataType: string, maxLength: Option<int>): (r: string)
    ensures var n := |name| + 1 + |dataType|;
      && |r| >= n && r[..n] == name + " " + dataType
      && (maxLength.Some? <==> |r| > n)
      && (maxLength.Some? ==> r[n..] == "(" + Decimal(maxLength.value) + ")")
  {
    var def := name + " " + dataType;
    match maxLength
    case None => def
    case Some(len) => def + "(" + Decimal(len) + ")"
  }

  function RowDefinition(row: ColumnRow): string
    requires Scannable(row)
  {
    ColumnDefinition(row.name.value, row.dataType.value, row.maxLength)
  }

  /** One definition per column row, in row order. */
  function Definitions(rows: seq<ColumnRow>): (defs: seq<string>)
    requires forall k :: 0 <= k < |rows| ==> Scannable(rows[k])
    ensures |defs| == |rows|
    ensures forall k :: 0 <= k < |rows| ==> defs[k] == RowDefinition(rows[k])
  {
    if |rows| == 0 then []
    else Definitions(rows[..|rows| - 1]) + [RowDefinition(rows[|rows| - 1])]
  }

  function CreateTableText(tableName: string, defs: seq<string>): string
  {
    "CREATE TABLE " + tableName + " (" + "\n" + "    " + Join(defs, ",\n    ") + "\n" + ");"
  }

  /** What `getCreateTableStatement` returns for the column query `q`: the
      query's own error, a scan error for a NULL name or type, or the
      statement. A failure in the middle of the iteration is never checked
      for, so the columns delivered so far make the statement. */
  function CreateTableStatement(tableName: string, q: Query<ColumnRow>): Result<string>
  {
    match q
    case Failed(cause) => Err(DriverError(cause))
    case Rows(_, rows, _) =>
      if forall k :: 0 <= k < |rows| ==> Scannable(rows[k])
      then Ok(CreateTableText(tableName, Definitions(rows)))
      else Err(NullIntoString)
  }

  method GetCreateTableStatement(tableName: string, q: Query<ColumnRow>) returns (r: Result<string>)
    ensures r == CreateTableStatement(tableName, q)
  {
    if q.Failed? {
      return Err(DriverError(q.cause));
    }
    var rows := q.rows;
    var columns: seq<string> := [];
    var i := 0;
    while i < |rows|
      invariant 0 <= i <= |rows|
      invariant forall k :: 0 <= k < i ==> Scannable(rows[k])
      invariant columns == Definitions(rows[..i])
    {
      var row := rows[i];
      if row.name.None? || row.dataType.None? {
        return Err(NullIntoString);
      }
      var columnDef := ColumnDefinition(row.name.value, row.dataType.value, row.maxLength);
      assert rows[..i + 1][..i] == rows[..i];
      columns := columns + [columnDef];
      i := i + 1;
    }
    assert rows[..i] == rows;
    return Ok(CreateTableText(tableName, columns));
  }

  /** The body lines of a CREATE TABLE: each definition indented by four
      spaces, a comma after every definition but the last; no columns leave
      one line of four spaces. */
  function IndentedDefinitions(defs: seq<string>): (ls: seq<string>)
    ensures |ls| == if |defs| == 0 then 1 else |defs|
    ensures |defs| == 0 ==> ls == ["    "]
    ensures forall k :: 0 <= k < |defs| ==>
      ls[k] == "    " + defs[k] + (if k < |defs| - 1 then "," else "")
  {
    if |defs| == 0 then ["    "]
    else if |defs| == 1 then ["    " + defs[0]]
    else ["    " + defs[0] + ","] + IndentedDefinitions(defs[1..])
  }

  lemma {:induction false} IndentJoin(defs: seq<string>)
    ensures "    " + Join(defs, ",\n    ") == Join(IndentedDefinitions(defs), "\n")
  {
    if |defs| >= 2 {
      var rest := defs[1..];
      IndentJoin(rest);
      var x := "    " + defs[0] + ",";
      var ls := IndentedDefinitions(defs);
      assert ls == [x] + IndentedDefinitions(rest);
      assert ls[1..] == IndentedDefinitions(rest);
      assert "    " + Join(defs, ",\n    ") == x + "\n" + ("    " + Join(rest, ",\n    "));
    }
  }

  /** A CREATE TABLE statement is its lines joined by newlines. */
  lemma {:induction false} CreateTableJoin(tableName: string, defs: seq<string>)
    ensures CreateTableText(tableName, defs) ==
      Join(["CREATE TABLE " + tableName + " ("] + IndentedDefinitions(defs) + [");"], "\n")
  {
    var head := "CREATE TABLE " + tableName + " (";
    var body := IndentedDefinitions(defs);
    IndentJoin(defs);
    JoinFramed(head, body, ");");
    Associative(head + "\n", "    ", Join(defs, ",\n    "));
  }

  /** A first line, a run of lines and a last line, joined by newlines. */
  lemma {:induction false} JoinFramed(head: string, body: seq<string>, tail: string)
    requires |body| > 0
    ensures Join([head] + body + [tail], "\n") == head + "\n" + Join(body, "\n") + "\n" + tail
  {
    JoinAppend([head], body, "\n");
    JoinAppend([head] + body, [tail], "\n");
  }

  /** Read line by line, a CREATE TABLE statement is the opening line, one
      line per column in column order with no comma after the last, and
      the closing line; names and types are assumed to be single lines. */
  lemma {:induction false} CreateTableLines(tableName: string, defs: seq<string>)
    requires '\n' !in tableName
    requires forall k :: 0 <= k < |defs| ==> '\n' !in defs[k]
    ensures Lines(CreateTableText(tableName, defs)) ==
      ["CREATE TABLE " + tableName + " ("] + IndentedDefinitions(defs) + [");"]
  {
    var all := ["CREATE TABLE " + tableName + " ("] + IndentedDefinitions(defs) + [");"];
    CreateTableSingleLines(tableName, defs);
    CreateTableJoin(tableName, defs);
    SplitJoin(all, '\n');
  }

  lemma {:induction false} CreateTableSingleLines(tableName: string, defs: seq<string>)
    requires '\n' !in tableName
    requires forall k :: 0 <= k < |defs| ==> '\n' !in defs[k]
    ensures var all := ["CREATE TABLE " + tableName + " ("] + IndentedDefinitions(defs) + [");"];
      forall k :: 0 <= k < |all| ==> '\n' !in all[k]
  {
    var body := IndentedDefinitions(defs);
    var all := ["CREATE TABLE " + tableName + " ("] + body + [");"];
    forall k | 0 <= k < |all| ensures '\n' !in all[k] {
      if 0 < k < |all| - 1 {
        assert all[k] == body[k - 1];
      }
    }
  }

  /** A column query whose every row scans gives as many column lines as
      rows, in row order. */
  lemma {:induction false} CreateTableFromRows(tableName: string, q: Query<ColumnRow>)
    requires q.Rows? && forall k :: 0 <= k < |q.rows| ==> Scannable(q.rows[k])
    requires '\n' !in tableName
    requires forall k :: 0 <= k < |q.rows| ==> '\n' !in RowDefinition(q.rows[k])
    ensures CreateTableStatement(tableName, q).Ok?
    ensures var ls := Lines(CreateTableStatement(tableName, q).value);
      && |ls| == 2 + (if |q.rows| == 0 then 1 else |q.rows|)
      && forall k :: 0 <= k < |q.rows| ==>
           ls[k + 1] == "    " + RowDefinition(q.rows[k]) + (if k < |q.rows| - 1 then "," else "")
  {
    var defs := Definitions(q.rows);
    CreateTableLines(tableName, defs);
    var ls := Lines(CreateTableText(tableName, defs));
    forall k | 0 <= k < |q.rows|
      ensures ls[k + 1] == "    " + RowDefinition(q.rows[k]) + (if k < |q.rows| - 1 then "," else "")
    {
      assert ls[k + 1] == IndentedDefinitions(defs)[k];
    }
  }

  // ---------------------------------------------------------------------
  // getTableDataCopyFormat

  /** `string(value)` of a `sql.RawBytes`: a NULL is the empty string. */
  function CopyField(v: Option<string>): string
  {
    match v
    case None => ""
    case Some(s) => s
  }

  function CopyFields(row: seq<Option<string>>): (fs: seq<string>)
    ensures |fs| == |row|
    ensures forall k :: 0 <= k < |row| ==> fs[k] == CopyField(row[k])
  {
    if |row| == 0 then [] else CopyFields(row[..|row| - 1]) + [CopyField(row[|row| - 1])]
  }

  /** One data line without its newline: the values joined by tabs. */
  function CopyRow(row: seq<Option<string>>): string
  {
    Join(CopyFields(row), "\t")
  }

  function CopyRows(rows: seq<seq<Option<string>>>): (ls: seq<string>)
    ensures |ls| == |rows|
    ensures forall k :: 0 <= k < |rows| ==> ls[k] == CopyRow(rows[k])
  {
    if |rows| == 0 then [] else CopyRows(rows[..|rows| - 1]) + [CopyRow(rows[|rows| - 1])]
  }

  function CopyHeader(tableName: string, columns: seq<string>): string
  {
    "COPY " + tableName + " (" + Join(columns, ", ") + ") FROM stdin;"
  }

  const CopyTerminator := "\\."

  /** The COPY block: header line, one line per row, terminator line, each
      ended by a newline. */
  function CopyBlock(tableName: string, columns: seq<string>, rows: seq<seq<Option<string>>>): string
  {
    Terminated([CopyHeader(tableName, columns)] + CopyRows(rows) + [CopyTerminator])
  }

  /** The first row whose width differs from the column count (or the row
      count when there is none). */
  function FirstMismatch<V>(rows: seq<seq<V>>, width: nat): (i: nat)
    ensures i <= |rows|
    ensures forall k :: 0 <= k < i ==> |rows[k]| == width
    ensures i < |rows| ==> |rows[i]| != width
  {
    if |rows| == 0 then 0
    else if |rows[0]| != width then 0
    else 1 + FirstMismatch(rows[1..], width)
  }

  /** What `getTableDataCopyFormat` returns for the data query `q`. Each row
      is scanned into a buffer of one `RawBytes` per column, which fails
      when the row's width is not the column count; the iteration error is
      never asked for. */
  function TableDataCopyFormat(tableName: string, q: Query<seq<Option<string>>>): Result<string>
  {
    match q
    case Failed(cause) => Err(DriverError(cause))
    case Rows(columns, rows, _) =>
      var i := FirstMismatch(rows, |columns|);
      if i < |rows| then Err(ColumnCountMismatch(|rows[i]|, |columns|))
      else Ok(CopyBlock(tableName, columns, rows))
  }

  /** Writing one more row line extends the block built so far. */
  lemma {:induction false} CopyStep(header: string, rows: seq<seq<Option<string>>>, i: nat)
    requires i < |rows|
    ensures Terminated([header] + CopyRows(rows[..i + 1])) ==
      Terminated([header] + CopyRows(rows[..i])) + CopyRow(rows[i]) + "\n"
  {
    assert rows[..i + 1][..i] == rows[..i];
    assert [header] + CopyRows(rows[..i + 1]) == ([header] + CopyRows(rows[..i])) + [CopyRow(rows[i])];
    TerminatedSnoc([header] + CopyRows(rows[..i]), CopyRow(rows[i]));
  }

  lemma {:induction false} CopyStart(header: string, rows: seq<seq<Option<string>>>)
    ensures Terminated([header] + CopyRows(rows[..0])) == header + "\n"
  {
    assert [header] + CopyRows(rows[..0]) == [header];
  }

  lemma {:induction false} CopyFinish(tableName: string, columns: seq<string>, rows: seq<seq<Option<string>>>)
    ensures Terminated([CopyHeader(tableName, columns)] + CopyRows(rows)) + CopyTerminator + "\n" ==
      CopyBlock(tableName, columns, rows)
  {
    TerminatedSnoc([CopyHeader(tableName, columns)] + CopyRows(rows), CopyTerminator);
  }

  /** A row of the wrong width after rows of the right one is the first
      mismatch. */
  lemma {:induction false} FirstMismatchAt<V>(rows: seq<seq<V>>, width: nat, i: nat)
    requires i < |rows| && |rows[i]| != width
    requires forall k :: 0 <= k < i ==> |rows[k]| == width
    ensures FirstMismatch(rows, width) == i
  {
  }

  /** The inner loop of `getTableDataCopyFormat`: each scanned value as
      text, then the texts joined by tabs. */
  method RowLine(values: seq<Option<string>>) returns (line: string)
    ensures line == CopyRow(values)
  {
    var valueStrings: seq<string> := [];
    var j := 0;
    while j < |values|
      invariant 0 <= j <= |values|
      invariant valueStrings == CopyFields(values[..j])
    {
      assert values[..j + 1][..j] == values[..j];
      valueStrings := valueStrings + [CopyField(values[j])];
      j := j + 1;
    }
    assert values[..j] == values;
    line := Join(valueStrings, "\t");
  }

  method GetTableDataCopyFormat(tableName: string, q: Query<seq<Option<string>>>) returns (r: Result<string>)
    ensures r == TableDataCopyFormat(tableName, q)
  {
    if q.Failed? {
      return Err(DriverError(q.cause));
    }
    var columns, rows := q.columns, q.rows;
    var header := CopyHeader(tableName, columns);
    var output := header + "\n";
    CopyStart(header, rows);
    var i := 0;
    while i < |rows|
      invariant 0 <= i <= |rows|
      invariant forall k :: 0 <= k < i ==> |rows[k]| == |columns|
      invariant output == Terminated([header] + CopyRows(rows[..i]))
    {
      var values := rows[i];
      if |values| != |columns| {
        FirstMismatchAt(rows, |columns|, i);
        return Err(ColumnCountMismatch(|values|, |columns|));
      }
      var line := RowLine(values);
      CopyStep(header, rows, i);
      output := output + line + "\n";
      i := i + 1;
    }
    assert rows[..i] == rows;
    CopyFinish(tableName, columns, rows);
    output := output + CopyTerminator + "\n";
    return Ok(output);
  }

  /** The block opens with its header line and ends with the terminator
      line, also when there are no rows. */
  lemma {:induction false} CopyBlockFraming(tableName: string, columns: seq<string>, rows: seq<seq<Option<string>>>)
    ensures var b, h := CopyBlock(tableName, columns, rows), CopyHeader(tableName, columns) + "\n";
      && |b| >= |h| + 3
      && b[..|h|] == h
      && b[|b| - 3..] == "\\.\n"
      && (rows == [] ==> b == h + "\\.\n")
  {
    var h := CopyHeader(tableName, columns);
    TerminatedAppend([h], CopyRows(rows) + [CopyTerminator]);
    TerminatedAppend(CopyRows(rows), [CopyTerminator]);
    assert [h] + CopyRows(rows) + [CopyTerminator] == [h] + (CopyRows(rows) + [CopyTerminator]);
    assert Terminated([h]) == h + "\n";
    assert Terminated([CopyTerminator]) == "\\.\n";
  }

  /** A row line splits at tabs back into the row's values when no value
      holds a tab or newline (a row of no values reads back as one empty
      value). */
  lemma {:induction false} CopyRowReadBack(row: seq<Option<string>>)
    requires forall j :: 0 <= j < |row| ==> '\n' !in CopyField(row[j]) && '\t' !in CopyField(row[j])
    ensures '\n' !in CopyRow(row)
    ensures |row| > 0 ==> Split(CopyRow(row), '\t') == CopyFields(row)
  {
    var fs := CopyFields(row);
    assert forall j :: 0 <= j < |fs| ==> '\n' !in fs[j] && '\t' !in fs[j] by {
      forall j | 0 <= j < |fs| ensures '\n' !in fs[j] && '\t' !in fs[j] {
        assert fs[j] == CopyField(row[j]);
      }
    }
    if |fs| == 0 {
      assert CopyRow(row) == "";
    } else {
      JoinHasNo(fs, "\t", '\n');
      SplitJoin(fs, '\t');
    }
  }

  lemma {:induction false} FramedSingleLines(first: string, middle: seq<string>, last: string)
    requires '\n' !in first && '\n' !in last
    requires forall k :: 0 <= k < |middle| ==> '\n' !in middle[k]
    ensures var all := [first] + middle + [last];
      forall k :: 0 <= k < |all| ==> '\n' !in all[k]
  {
    var all := [first] + middle + [last];
    forall k | 0 <= k < |all| ensures '\n' !in all[k] {
      if 0 < k < |all| - 1 {
        assert all[k] == middle[k - 1];
      }
    }
  }

  /** Read back, newline-terminated lines made of a first line, a run of
      lines and a last line give back those lines. */
  lemma {:induction false} FramedLines(first: string, middle: seq<string>, last: string)
    requires '\n' !in first && '\n' !in last
    requires forall k :: 0 <= k < |middle| ==> '\n' !in middle[k]
    ensures Lines(Terminated([first] + middle + [last])) == [first] + middle + [last] + [""]
  {
    FramedSingleLines(first, middle, last);
    TerminatedLines([first] + middle + [last]);
  }

  lemma {:induction false} CopyHeaderSingleLine(tableName: string, columns: seq<string>)
    requires '\n' !in tableName
    requires forall k :: 0 <= k < |columns| ==> '\n' !in columns[k]
    ensures '\n' !in CopyHeader(tableName, columns)
  {
    JoinHasNo(columns, ", ", '\n');
  }

  lemma {:induction false} CopyBlockLines(tableName: string, columns: seq<string>, rows: seq<seq<Option<string>>>)
    requires '\n' !in CopyHeader(tableName, columns)
    requires forall k :: 0 <= k < |rows| ==> '\n' !in CopyRow(rows[k])
    ensures Lines(CopyBlock(tableName, columns, rows)) ==
      [CopyHeader(tableName, columns)] + CopyRows(rows) + [CopyTerminator] + [""]
  {
    var header, middle := CopyHeader(tableName, columns), CopyRows(rows);
    assert forall k :: 0 <= k < |middle| ==> '\n' !in middle[k] by {
      forall k | 0 <= k < |middle| ensures '\n' !in middle[k] {
        assert middle[k] == CopyRow(rows[k]);
      }
    }
    assert '\n' !in CopyTerminator;
    FramedLines(header, middle, CopyTerminator);
    assert CopyBlock(tableName, columns, rows) == Terminated([header] + middle + [CopyTerminator]);
  }

  /** Read back, a COPY block is its header line, one line per row, the
      terminator line and nothing after the last newline; splitting a row
      line at tabs gives back the row's values, with NULL read as the empty
      text. This holds when no value, name or column holds a newline and no
      value holds a tab. */
  lemma {:induction false} CopyBlockReadBack(tableName: string, columns: seq<string>, rows: seq<seq<Option<string>>>)
    requires '\n' !in tableName
    requires forall k :: 0 <= k < |columns| ==> '\n' !in columns[k]
    requires forall k, j :: 0 <= k < |rows| && 0 <= j < |rows[k]| ==>
      '\n' !in CopyField(rows[k][j]) && '\t' !in CopyField(rows[k][j])
    ensures var ls := Lines(CopyBlock(tableName, columns, rows));
      && ls == [CopyHeader(tableName, columns)] + CopyRows(rows) + [CopyTerminator] + [""]
      && forall k :: 0 <= k < |rows| && |rows[k]| > 0 ==> Split(ls[k + 1], '\t') == CopyFields(rows[k])
  {
    forall k | 0 <= k < |rows|
      ensures '\n' !in CopyRow(rows[k])
      ensures |rows[k]| > 0 ==> Split(CopyRow(rows[k]), '\t') == CopyFields(rows[k])
    {
      CopyRowReadBack(rows[k]);
    }
    CopyHeaderSingleLine(tableName, columns);
    CopyBlockLines(tableName, columns, rows);
    var ls, middle := Lines(CopyBlock(tableName, columns, rows)), CopyRows(rows);
    forall k | 0 <= k < |rows| ensures ls[k + 1] == CopyRow(rows[k]) {
      assert ls[k + 1] == middle[k];
    }
  }

  /** A NULL and an empty text give the same COPY block: writing any NULL
      of any block as the empty text changes nothing. */
  lemma {:induction false} CopyNullLooksEmpty(tableName: string, columns: seq<string>,
                                              rows: seq<seq<Option<string>>>, k: nat, j: nat)
    requires k < |rows| && j < |rows[k]| && rows[k][j] == None
    ensures CopyBlock(tableName, columns, rows[k := rows[k][j := Some("")]]) == CopyBlock(tableName, columns, rows)
  {
    var rows' := rows[k := rows[k][j := Some("")]];
    assert CopyFields(rows'[k]) == CopyFields(rows[k]);
    assert CopyRows(rows') == CopyRows(rows);
  }

  /** A row line splits at tabs back into the row's values exactly when no
      value holds a tab. */
  lemma {:induction false} CopyRowSplitIff(row: seq<Option<string>>)
    requires |row| > 0
    ensures Split(CopyRow(row), '\t') == CopyFields(row) <==>
      forall j :: 0 <= j < |row| ==> '\t' !in CopyField(row[j])
  {
    var fs := CopyFields(row);
    if forall j :: 0 <= j < |row| ==> '\t' !in CopyField(row[j]) {
      assert forall j :: 0 <= j < |fs| ==> '\t' !in fs[j];
      SplitJoin(fs, '\t');
    } else {
      var j :| 0 <= j < |row| && '\t' in CopyField(row[j]);
      CopyRowTabBreaksReadBack(row, j);
    }
  }

  /** A tab inside any value breaks the read-back: the line no longer
      splits into the row's values. */
  lemma {:induction false} CopyRowTabBreaksReadBack(row: seq<Option<string>>, j: nat)
    requires j < |row| && '\t' in CopyField(row[j])
    ensures Split(CopyRow(row), '\t') != CopyFields(row)
  {
    SplitPiecesHaveNo(CopyRow(row), '\t');
    assert CopyFields(row)[j] == CopyField(row[j]);
    if Split(CopyRow(row), '\t') == CopyFields(row) {
      assert j < |Split(CopyRow(row), '\t')|;
      assert '\t' !in Split(CopyRow(row), '\t')[j];
    }
  }

  /** A newline inside any value breaks the read-back of the block: its
      lines are no longer the header, one line per row and the
      terminator. */
  lemma {:induction false} CopyNewlineBreaksLines(tableName: string, columns: seq<string>,
                                                  rows: seq<seq<Option<string>>>, k: nat, j: nat)
    requires k < |rows| && j < |rows[k]| && '\n' in CopyField(rows[k][j])
    ensures Lines(CopyBlock(tableName, columns, rows)) !=
      [CopyHeader(tableName, columns)] + CopyRows(rows) + [CopyTerminator] + [""]
  {
    var block := CopyBlock(tableName, columns, rows);
    var expected := [CopyHeader(tableName, columns)] + CopyRows(rows) + [CopyTerminator] + [""];
    SplitPiecesHaveNo(block, '\n');
    assert CopyFields(rows[k])[j] == CopyField(rows[k][j]);
    JoinKeeps(CopyFields(rows[k]), "\t", j, '\n');
    assert expected[k + 1] == CopyRow(rows[k]);
    if Split(block, '\n') == expected {
      assert k + 1 < |Split(block, '\n')|;
      assert '\n' !in Split(block, '\n')[k + 1];
    }
  }

  /** A tab inside a value is written as it is, so a one-value row and a
      two-value row can give the same line. */
  lemma {:induction false} CopyTabInValueIsAmbiguous()
    ensures CopyRow([Some("a\tb")]) == CopyRow([Some("a"), Some("b")])
  {
    assert CopyFields([Some("a\tb")]) == ["a\tb"];
    assert CopyFields([Some("a"), Some("b")]) == ["a", "b"];
  }

  // ---------------------------------------------------------------------
  // dumpSchema

  /** What `dumpSchema` writes and returns, given the table list and the
      column query of every table: each table's statement followed by a
      blank line, in table order, stopping at the first failure. */
  function SchemaFile(tables: Result<seq<string>>, createErr: Option<string>,
                      columnsOf: string -> Query<ColumnRow>): WriteOutcome
  {
    if tables.Err? then WriteOutcome("", Some(tables.error))
    else if createErr.Some? then WriteOutcome("", Some(DriverError(createErr.value)))
    else WriteEach(tables.value, CreateFor(columnsOf))
  }

  /** The per-table step of `dumpSchema`. */
  function CreateFor(columnsOf: string -> Query<ColumnRow>): string -> Result<string>
  {
    t => CreateTableStatement(t, columnsOf(t))
  }

  method DumpSchema(tablesQuery: Query<Option<string>>, createErr: Option<string>,
                    columnsOf: string -> Query<ColumnRow>)
    returns (written: string, err: Option<Error>)
    ensures WriteOutcome(written, err) == SchemaFile(PublicTables(tablesQuery), createErr, columnsOf)
  {
    var tables := GetTables(tablesQuery);
    if tables.Err? {
      return "", Some(tables.error);
    }
    if createErr.Some? {
      return "", Some(DriverError(createErr.value));
    }
    var names := tables.value;
    ghost var render := CreateFor(columnsOf);
    written, err := "", None;
    var i := 0;
    while i < |names|
      invariant 0 <= i <= |names|
      invariant WriteEach(names[..i], render) == WriteOutcome(written, None)
    {
      assert names[..i + 1][..i] == names[..i];
      var createStmt := GetCreateTableStatement(names[i], columnsOf(names[i]));
      if createStmt.Err? {
        WriteEachStops(names[..i + 1], names[i + 1..], render);
        assert names[..i + 1] + names[i + 1..] == names;
        return written, Some(createStmt.error);
      }
      written := written + createStmt.value + "\n\n";
      i := i + 1;
    }
    assert names[..i] == names;
  }
}
