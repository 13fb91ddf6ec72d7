/** data.go: `getTableData`, which renders every row of `SELECT * FROM
    <table>` as an INSERT statement, and `dumpData`, which writes the INSERT
    text of every public table. Query results are inputs. */
module Data {
  import opened Common
  import opened Text
  import opened Schema

  /** What `Scan` stores in an `interface{}` destination: nil for a NULL,
      the bytes of a text-like value, or another Go value, represented here
      by the text `%v` prints for it. */
  datatype DbValue = Null | Bytes(text: string) | Other(formatted: string)

  /** The text a non-NULL value is written with, between the quotes. */
  function Payload(v: DbValue): string
    requires !v.Null?
  {
    match v
    case Bytes(text) => text
    case Other(formatted) => formatted
  }

  /** The SQL text of one value: NULL unquoted, anything else between single
      quotes, with quotes inside the value left as they are. */
  function SqlLiteral(v: DbValue): string
  {
    match v
    case Null => "NULL"
    case Bytes(text) => "'" + text + "'"
    case Other(formatted) => "'" + formatted + "'"
  }

  /** Two values are written alike exactly when both are NULL or both are
      non-NULL with the same text: a NULL is never confused with the text
      "NULL", but the kind of a non-NULL value is not recorded. */
  lemma {:induction false} SqlLiteralSame(a: DbValue, b: DbValue)
    ensures SqlLiteral(a) == SqlLiteral(b) <==>
      (a.Null? && b.Null?) || (!a.Null? && !b.Null? && Payload(a) == Payload(b))
  {
    QuotedLiteral(a);
    QuotedLiteral(b);
    if SqlLiteral(a) == SqlLiteral(b) && !a.Null? && !b.Null? {
      var s := SqlLiteral(a);
      assert Payload(a) == s[1..|s| - 1];
    }
  }

  /** A non-NULL value is written as its text between single quotes. */
  lemma {:induction false} QuotedLiteral(v: DbValue)
    ensures v.Null? <==> SqlLiteral(v)[0] != '\''
    ensures !v.Null? ==> SqlLiteral(v) == "'" + Payload(v) + "'"
  {
  }

  /** The value strings of one buffer, in column order. */
  function ValueStrings(values: seq<DbValue>): (vs: seq<string>)
    ensures |vs| == |values|
    ensures forall k :: 0 <= k < |values| ==> vs[k] == SqlLiteral(values[k])
  {
    if |values| == 0 then []
    else ValueStrings(values[..|values| - 1]) + [SqlLiteral(values[|values| - 1])]
  }

  function InsertStatement(tableName: string, columns: seq<string>, values: seq<DbValue>): string
  {
    "INSERT INTO " + tableName + " (" + Join(columns, ", ") + ") VALUES (" +
    Join(ValueStrings(values), ", ") + ");"
  }

  /** The buffer of `len(columns)` destinations before the first row: every
      entry nil. */
  function NullBuffer(width: nat): (b: seq<DbValue>)
    ensures |b| == width && forall k :: 0 <= k < width ==> b[k] == Null
  {
    seq(width, _ => Null)
  }

  /** The buffer after `rows.Scan` of one row. Scan refuses a row whose
      width is not the buffer's before it stores anything, and its error is
      ignored, so the buffer then keeps the previous row's values. */
  function ScanRow(buffer: seq<DbValue>, row: seq<DbValue>): seq<DbValue>
  {
    if |row| == |buffer| then row else buffer
  }

  /** The buffer after the given rows have been scanned, one after the
      other. */
  function BufferAfter(width: nat, rows: seq<seq<DbValue>>): (b: seq<DbValue>)
    ensures |b| == width
  {
    if |rows| == 0 then NullBuffer(width)
    else ScanRow(BufferAfter(width, rows[..|rows| - 1]), rows[|rows| - 1])
  }

  /** One INSERT statement per row delivered, rendered from the buffer as
      it stands after that row's Scan. */
  function Statements(tableName: string, columns: seq<string>, rows: seq<seq<DbValue>>): (ss: seq<string>)
    ensures |ss| == |rows|
  {
    if |rows| == 0 then []
    else
      Statements(tableName, columns, rows[..|rows| - 1]) +
      [InsertStatement(tableName, columns, BufferAfter(|columns|, rows))]
  }

  /** What `getTableData` returns for the data query `q`: the query's own
      error, or the statements joined by newlines. Neither a Scan error nor
      an iteration error is ever reported. */
  function TableData(tableName: string, q: Query<seq<DbValue>>): Result<string>
  {
    match q
    case Failed(cause) => Err(DriverError(cause))
    case Rows(columns, rows, _) => Ok(Join(Statements(tableName, columns, rows), "\n"))
  }

  /** The inner loop of `getTableData`: the SQL text of each buffered
      value, in column order. */
  method RenderValues(values: seq<DbValue>) returns (valueStrings: seq<string>)
    ensures valueStrings == ValueStrings(values)
  {
    valueStrings := [];
    var j := 0;
    while j < |values|
      invariant 0 <= j <= |values|
      invariant valueStrings == ValueStrings(values[..j])
    {
      assert values[..j + 1][..j] == values[..j];
      valueStrings := valueStrings + [SqlLiteral(values[j])];
      j := j + 1;
    }
    assert values[..j] == values;
  }

  method GetTableData(tableName: string, q: Query<seq<DbValue>>) returns (r: Result<string>)
    ensures r == TableData(tableName, q)
  {
    if q.Failed? {
      return Err(DriverError(q.cause));
    }
    var columns, rows := q.columns, q.rows;
    var values := NullBuffer(|columns|);
    var insertStatements: seq<string> := [];
    var i := 0;
    while i < |rows|
      invariant 0 <= i <= |rows|
      invariant values == BufferAfter(|columns|, rows[..i])
      invariant insertStatements == Statements(tableName, columns, rows[..i])
    {
      assert rows[..i + 1][..i] == rows[..i];
      if |rows[i]| == |values| {
        values := rows[i];
      }
      var valueStrings := RenderValues(values);
      var stmt := "INSERT INTO " + tableName + " (" + Join(columns, ", ") + ") VALUES (" +
        Join(valueStrings, ", ") + ");";
      insertStatements := insertStatements + [stmt];
      i := i + 1;
    }
    assert rows[..i] == rows;
    return Ok(Join(insertStatements, "\n"));
  }

  /** The buffer after a run of rows of the right width is the last row;
      before any row it is all NULL. */
  lemma {:induction false} BufferAfterWellFormed(width: nat, rows: seq<seq<DbValue>>)
    requires forall k :: 0 <= k < |rows| ==> |rows[k]| == width
    ensures |rows| > 0 ==> BufferAfter(width, rows) == rows[|rows| - 1]
  {
  }

  /** When every row has one value per column, statement k renders row k. */
  lemma {:induction false} StatementsOfWellFormedRows(tableName: string, columns: seq<string>, rows: seq<seq<DbValue>>)
    requires forall k :: 0 <= k < |rows| ==> |rows[k]| == |columns|
    ensures forall k :: 0 <= k < |rows| ==>
      Statements(tableName, columns, rows)[k] == InsertStatement(tableName, columns, rows[k])
  {
    if |rows| > 0 {
      var init, n := rows[..|rows| - 1], |rows| - 1;
      StatementsOfWellFormedRows(tableName, columns, init);
      BufferAfterWellFormed(|columns|, rows);
      var ss, before := Statements(tableName, columns, rows), Statements(tableName, columns, init);
      assert ss == before + [InsertStatement(tableName, columns, rows[n])];
      forall k | 0 <= k < |rows| ensures ss[k] == InsertStatement(tableName, columns, rows[k]) {
        if k < n {
          assert ss[k] == before[k] && init[k] == rows[k];
        }
      }
    }
  }

  /** A row of the wrong width repeats the statement of the row before it,
      and as the first row it gives a statement of NULLs. */
  lemma {:induction false} StaleRowRepeats(tableName: string, columns: seq<string>, rows: seq<seq<DbValue>>, i: nat)
    requires i < |rows| && |rows[i]| != |columns|
    ensures var ss := Statements(tableName, columns, rows);
      if i == 0 then ss[0] == InsertStatement(tableName, columns, NullBuffer(|columns|))
      else ss[i] == ss[i - 1]
  {
    var before := BufferAfter(|columns|, rows[..i]);
    StatementAt(tableName, columns, rows, i);
    assert rows[..i + 1][..i] == rows[..i];
    assert BufferAfter(|columns|, rows[..i + 1]) == ScanRow(before, rows[i]) == before;
    if i > 0 {
      StatementAt(tableName, columns, rows, i - 1);
    }
  }

  /** Statement i is rendered from the buffer after the first i + 1 rows. */
  lemma {:induction false} StatementAt(tableName: string, columns: seq<string>, rows: seq<seq<DbValue>>, i: nat)
    requires i < |rows|
    ensures Statements(tableName, columns, rows)[i] ==
      InsertStatement(tableName, columns, BufferAfter(|columns|, rows[..i + 1]))
    decreases |rows|
  {
    var init := rows[..|rows| - 1];
    if i < |rows| - 1 {
      StatementAt(tableName, columns, init, i);
      assert init[..i + 1] == rows[..i + 1];
    } else {
      assert rows[..i + 1] == rows;
    }
  }

  /** No non-NULL value's text holds a newline. */
  predicate SingleLineValues(values: seq<DbValue>)
  {
    forall j :: 0 <= j < |values| && !values[j].Null? ==> '\n' !in Payload(values[j])
  }

  lemma {:induction false} BufferSingleLine(width: nat, rows: seq<seq<DbValue>>)
    requires forall k :: 0 <= k < |rows| ==> SingleLineValues(rows[k])
    ensures SingleLineValues(BufferAfter(width, rows))
  {
    if |rows| > 0 {
      BufferSingleLine(width, rows[..|rows| - 1]);
    }
  }

  lemma {:induction false} InsertSingleLine(tableName: string, columns: seq<string>, values: seq<DbValue>)
    requires '\n' !in tableName
    requires forall k :: 0 <= k < |columns| ==> '\n' !in columns[k]
    requires SingleLineValues(values)
    ensures '\n' !in InsertStatement(tableName, columns, values)
  {
    var vs := ValueStrings(values);
    forall j | 0 <= j < |vs| ensures '\n' !in vs[j] {
      assert vs[j] == SqlLiteral(values[j]);
      if !values[j].Null? {
        QuotedLiteral(values[j]);
      }
    }
    var cs, vj := Join(columns, ", "), Join(vs, ", ");
    JoinHasNo(columns, ", ", '\n');
    JoinHasNo(vs, ", ", '\n');
    assert '\n' !in "INSERT INTO " && '\n' !in ") VALUES (";
    assert InsertStatement(tableName, columns, values) ==
      "INSERT INTO " + tableName + " (" + cs + ") VALUES (" + vj + ");";
  }

  /** Read back line by line, the text of a non-empty result set is one
      statement per row, as long as no name, column or value text holds a
      newline; an empty result set gives the empty text. */
  lemma {:induction false} TableDataLines(tableName: string, q: Query<seq<DbValue>>)
    requires q.Rows?
    requires '\n' !in tableName
    requires forall k :: 0 <= k < |q.columns| ==> '\n' !in q.columns[k]
    requires forall k :: 0 <= k < |q.rows| ==> SingleLineValues(q.rows[k])
    ensures |q.rows| == 0 ==> TableData(tableName, q) == Ok("")
    ensures |q.rows| > 0 ==> Lines(TableData(tableName, q).value) == Statements(tableName, q.columns, q.rows)
  {
    var ss := Statements(tableName, q.columns, q.rows);
    if |q.rows| > 0 {
      forall k | 0 <= k < |ss| ensures '\n' !in ss[k] {
        StatementAt(tableName, q.columns, q.rows, k);
        var prefix := q.rows[..k + 1];
        assert forall j :: 0 <= j < |prefix| ==> SingleLineValues(prefix[j]) by {
          forall j | 0 <= j < |prefix| ensures SingleLineValues(prefix[j]) {
            assert prefix[j] == q.rows[j];
          }
        }
        BufferSingleLine(|q.columns|, prefix);
        InsertSingleLine(tableName, q.columns, BufferAfter(|q.columns|, prefix));
      }
      SplitJoin(ss, '\n');
    }
  }

  /** A quote inside a text value is not doubled, so a one-value row and a
      two-value row can give the same statement. */
  lemma {:induction false} UnescapedQuoteIsAmbiguous(tableName: string, columns: seq<string>)
    ensures InsertStatement(tableName, columns, [Bytes("a', 'b")]) ==
      InsertStatement(tableName, columns, [Bytes("a"), Bytes("b")])
  {
    var one, two := [Bytes("a', 'b")], [Bytes("a"), Bytes("b")];
    var vs1, vs2 := ValueStrings(one), ValueStrings(two);
    assert vs1[0] == SqlLiteral(one[0]) == "'a', 'b'";
    assert vs2[0] == SqlLiteral(two[0]) == "'a'";
    assert vs2[1] == SqlLiteral(two[1]) == "'b'";
    assert Join(vs1, ", ") == "'a', 'b'";
    assert Join(vs2, ", ") == "'a'" + ", " + Join(vs2[1..], ", ");
  }

  // ---------------------------------------------------------------------
  // dumpData

  /** The per-table step of `dumpData`. */
  function DataFor(dataOf: string -> Query<seq<DbValue>>): string -> Result<string>
  {
    t => TableData(t, dataOf(t))
  }

  /** What `dumpData` writes and returns: the INSERT text of each table
      followed by a blank line, in table order, stopping at the first table
      whose query fails. */
  function DataFile(tables: Result<seq<string>>, createErr: Option<string>,
                    dataOf: string -> Query<seq<DbValue>>): WriteOutcome
  {
    if tables.Err? then WriteOutcome("", Some(tables.error))
    else if createErr.Some? then WriteOutcome("", Some(DriverError(createErr.value)))
    else WriteEach(tables.value, DataFor(dataOf))
  }

  method DumpData(tablesQuery: Query<Option<string>>, createErr: Option<string>,
                  dataOf: string -> Query<seq<DbValue>>)
    returns (written: string, err: Option<Error>)
    ensures WriteOutcome(written, err) == DataFile(PublicTables(tablesQuery), createErr, dataOf)
  {
    var tables := GetTables(tablesQuery);
    if tables.Err? {
      return "", Some(tables.error);
    }
    if createErr.Some? {
      return "", Some(DriverError(createErr.value));
    }
    var names := tables.value;
    ghost var render := DataFor(dataOf);
    written, err := "", None;
    var i := 0;
    while i < |names|
      invariant 0 <= i <= |names|
      invariant WriteEach(names[..i], render) == WriteOutcome(written, None)
    {
      assert names[..i + 1][..i] == names[..i];
      var dataStmt := GetTableData(names[i], dataOf(names[i]));
      if dataStmt.Err? {
        WriteEachStops(names[..i + 1], names[i + 1..], render);
        assert names[..i + 1] + names[i + 1..] == names;
        return written, Some(dataStmt.error);
      }
      written := written + dataStmt.value + "\n\n";
      i := i + 1;
    }
    assert names[..i] == names;
  }

  /** Once the table list and the file are in hand, `dumpData` fails exactly
      when some table's data query fails, and then with the first such
      query's error. */
  lemma {:induction false} DataFileFails(tables: seq<string>, dataOf: string -> Query<seq<DbValue>>)
    ensures var out := DataFile(Ok(tables), None, dataOf);
      && (out.err.Some? <==> exists k :: 0 <= k < |tables| && dataOf(tables[k]).Failed?)
      && forall k :: (0 <= k < |tables| && dataOf(tables[k]).Failed? &&
                      (forall j :: 0 <= j < k ==> dataOf(tables[j]).Rows?)) ==>
           out.err == Some(DriverError(dataOf(tables[k]).cause))
  {
    var render := DataFor(dataOf);
    WriteEachSucceeds(tables, render);
    assert forall k :: 0 <= k < |tables| ==> (render(tables[k]).Ok? <==> dataOf(tables[k]).Rows?);
    forall k | 0 <= k < |tables| && dataOf(tables[k]).Failed? &&
           (forall j :: 0 <= j < k ==> dataOf(tables[j]).Rows?)
      ensures DataFile(Ok(tables), None, dataOf).err == Some(DriverError(dataOf(tables[k]).cause))
    {
      WriteEachFirstError(tables, render, k);
    }
  }
}
