/** dump.go: the sequential dump of a `Data` value. `Dump` fills in the
    packet-size default, begins a read-only transaction, reads the server
    version, writes the header, lists the tables that are not ignored,
    dumps each table in order, and writes the footer; the transaction is
    rolled back on every return once it has begun. The server's answers
    are inputs; a ghost trace records the order of the steps. */
module Dump {
  import opened Common
  import opened Text

  const Version := "1.0.0"
  const DefaultMaxAllowedPacket := 4194304

  /** The `headerTmpl` template executed with the tool and server
      versions: its four lines, each ended by a newline. */
  function HeaderText(serverVersion: string): string
  {
    Terminated(HeaderLines(serverVersion))
  }

  /** The header's third line: "-- " and a rule of 54 dashes. */
  const HalfRule := "---------------------------"
  const RuleLine := "-- " + HalfRule + HalfRule

  lemma {:induction false} RuleLineSingle()
    ensures |RuleLine| == 57 && '\n' !in RuleLine
  {
  }

  /** The `footerTmpl` template executed with the completion time. */
  function FooterText(completeTime: string): string
  {
    FooterLine(completeTime) + "\n"
  }

  function FooterLine(completeTime: string): string
  {
    "-- Dump completed on " + completeTime
  }

  /** The comment `dumpTable` writes before a table's data step. */
  function SchemaComment(name: string): string
  {
    SchemaLine(name) + "\n"
  }

  function SchemaLine(name: string): string
  {
    "-- Schema for table " + name
  }

  /** The schema comment lines of some tables, in order. */
  function SchemaLines(tables: seq<Table>): (ls: seq<string>)
    ensures |ls| == |tables| && forall k :: 0 <= k < |tables| ==> ls[k] == SchemaLine(tables[k].name)
  {
    if |tables| == 0 then [] else SchemaLines(tables[..|tables| - 1]) + [SchemaLine(tables[|tables| - 1].name)]
  }

  /** A listed table: its name and whether it is a view. */
  datatype Table = Table(name: string, isView: bool)

  /** The steps of a run that reach the server or the output. */
  datatype Event =
    | BeginTx                // the read-only transaction is begun
    | ShowVersion            // SHOW server_version
    | HeaderOut              // the header template is written
    | QueryTables            // the pg_tables query
    | CopyTable(name: string) // COPY <table> TO STDOUT
    | FooterOut              // the footer template is written
    | RollbackTx             // the deferred rollback

  datatype TxState = NoTx | Open | RolledBack

  /** What the server answers during one run. */
  datatype Server = Server(
    beginErr: Option<string>,
    serverVersion: Result<string>,
    tableQuery: Query<Option<string>>,
    copyFails: map<string, string>)

  // ---------------------------------------------------------------------
  // Specification of getTables and of the run

  /** The names that are not ignored, in catalog order. */
  function Unignored(names: seq<string>, ignore: seq<string>): (r: seq<string>)
  {
    if |names| == 0 then []
    else
      var last := names[|names| - 1];
      Unignored(names[..|names| - 1], ignore) + (if last in ignore then [] else [last])
  }

  /** A listed name is exactly a catalog name that is not ignored. */
  lemma {:induction false} UnignoredMembers(names: seq<string>, ignore: seq<string>, x: string)
    ensures x in Unignored(names, ignore) <==> x in names && x !in ignore
  {
    if |names| > 0 {
      var init := names[..|names| - 1];
      UnignoredMembers(init, ignore, x);
      assert names == init + [names[|names| - 1]];
    }
  }

  /** The filter keeps order: filtering two runs of names one after the
      other is filtering each. */
  lemma {:induction false} UnignoredAppend(a: seq<string>, b: seq<string>, ignore: seq<string>)
    ensures Unignored(a + b, ignore) == Unignored(a, ignore) + Unignored(b, ignore)
    decreases |b|
  {
    if |b| > 0 {
      var b' := b[..|b| - 1];
      assert (a + b)[..|a + b| - 1] == a + b';
      UnignoredAppend(a, b', ignore);
    } else {
      assert a + b == a;
    }
  }

  function AsTables(names: seq<string>): (ts: seq<Table>)
    ensures |ts| == |names|
    ensures forall k :: 0 <= k < |names| ==> ts[k] == Table(names[k], false)
  {
    if |names| == 0 then [] else AsTables(names[..|names| - 1]) + [Table(names[|names| - 1], false)]
  }

  /** One more catalog row adds its table unless it is ignored. */
  lemma {:induction false} ListStep(names: seq<string>, name: string, ignore: seq<string>)
    ensures AsTables(Unignored(names + [name], ignore))
         == AsTables(Unignored(names, ignore)) + (if name in ignore then [] else [Table(name, false)])
  {
    assert (names + [name])[..|names|] == names;
    var u := Unignored(names, ignore);
    if name !in ignore {
      assert AsTables(u + [name])[..|u|] == AsTables(u);
    }
  }

  datatype Listing = Listing(tables: seq<Table>, err: Option<Error>)

  /** The names a scan of every row gives, or nothing when some row is
      NULL (scanning NULL into a Go `string` fails). */
  function ScanNames(rows: seq<Option<string>>): (r: Option<seq<string>>)
    ensures r.Some? <==> forall k :: 0 <= k < |rows| ==> rows[k].Some?
    ensures r.Some? ==> |r.value| == |rows| && forall k :: 0 <= k < |rows| ==> rows[k] == Some(r.value[k])
  {
    if |rows| == 0 then Some([])
    else
      var init := ScanNames(rows[..|rows| - 1]);
      var last := rows[|rows| - 1];
      if init.None? || last.None? then None else Some(init.value + [last.value])
  }

  /** What `getTables` returns: the query error or the first scan error
      with no tables, or the tables that are not ignored together with the
      iteration error, if any. */
  function ListTables(ignore: seq<string>, q: Query<Option<string>>): Listing
  {
    match q
    case Failed(cause) => Listing([], Some(DriverError(cause)))
    case Rows(_, rows, iterErr) =>
      match ScanNames(rows)
      case None => Listing([], Some(NullIntoString))
      case Some(names) =>
        Listing(AsTables(Unignored(names, ignore)),
                if iterErr.Some? then Some(DriverError(iterErr.value)) else None)
  }

  lemma {:induction false} ListingOfNull(ignore: seq<string>, q: Query<Option<string>>, i: nat)
    requires q.Rows? && i < |q.rows| && q.rows[i].None?
    ensures ListTables(ignore, q) == Listing([], Some(NullIntoString))
  {
    assert ScanNames(q.rows).None?;
  }

  lemma {:induction false} ListingOfNames(ignore: seq<string>, q: Query<Option<string>>, names: seq<string>)
    requires q.Rows? && |names| == |q.rows|
    requires forall k :: 0 <= k < |names| ==> q.rows[k] == Some(names[k])
    ensures ListTables(ignore, q)
         == Listing(AsTables(Unignored(names, ignore)),
                    if q.iterErr.Some? then Some(DriverError(q.iterErr.value)) else None)
  {
    var r := ScanNames(q.rows);
    assert r.Some?;
    assert r.value == names;
  }

  /** `getTables` never lists a view, and never an ignored name. */
  lemma {:induction false} ListedTablesAreNotIgnored(ignore: seq<string>, q: Query<Option<string>>)
    ensures var ts := ListTables(ignore, q).tables;
      forall k :: 0 <= k < |ts| ==> !ts[k].isView && ts[k].name !in ignore
  {
    if q.Rows? && ScanNames(q.rows).Some? {
      var listed := Unignored(ScanNames(q.rows).value, ignore);
      forall k | 0 <= k < |listed| ensures listed[k] !in ignore {
        UnignoredMembers(ScanNames(q.rows).value, ignore, listed[k]);
      }
    }
  }

  /** A record of what some steps wrote, returned and did. */
  datatype Run = Run(written: string, err: Option<Error>, events: seq<Event>)

  /** What `dumpTable` does for one table. */
  function TableStep(t: Table, copyFails: map<string, string>): Run
  {
    if t.isView then Run("", None, [])
    else
      Run(SchemaComment(t.name),
          if t.name in copyFails then Some(DriverError(copyFails[t.name])) else None,
          [CopyTable(t.name)])
  }

  /** The table loop of `Dump`: each table in order, stopping at the first
      error. */
  function TablesRun(tables: seq<Table>, copyFails: map<string, string>): Run
  {
    if |tables| == 0 then Run("", None, [])
    else
      var prev := TablesRun(tables[..|tables| - 1], copyFails);
      if prev.err.Some? then prev
      else
        var step := TableStep(tables[|tables| - 1], copyFails);
        Run(prev.written + step.written, step.err, prev.events + step.events)
  }

  /** What the part of `Dump` between the begin and the deferred rollback
      writes, returns and does against `server`, when the object's error
      field holds `pending` and the footer time is `completeTime`. */
  function TxRun(ignore: seq<string>, pending: Option<Error>, server: Server, completeTime: string): Run
  {
    if server.serverVersion.Err? then Run("", Some(server.serverVersion.error), [ShowVersion])
    else
      var header := HeaderText(server.serverVersion.value);
      var listing := ListTables(ignore, server.tableQuery);
      if listing.err.Some? then Run(header, listing.err, [ShowVersion, HeaderOut, QueryTables])
      else
        var body := TablesRun(listing.tables, server.copyFails);
        var events := [ShowVersion, HeaderOut, QueryTables] + body.events;
        if body.err.Some? then Run(header + body.written, body.err, events)
        else if pending.Some? then Run(header + body.written, pending, events)
        else Run(header + body.written + FooterText(completeTime), None, events + [FooterOut])
  }

  /** What `Dump` writes, returns and does: nothing but the attempt when
      the transaction cannot begin; otherwise the transaction's part,
      followed by the rollback on whatever return. */
  function DumpRun(ignore: seq<string>, pending: Option<Error>, server: Server, completeTime: string): Run
  {
    if server.beginErr.Some? then Run("", Some(DriverError(server.beginErr.value)), [BeginTx])
    else
      var tx := TxRun(ignore, pending, server, completeTime);
      Run(tx.written, tx.err, [BeginTx] + tx.events + [RollbackTx])
  }

  /** One more table, after tables that all succeeded, adds its own step. */
  lemma {:induction false} TablesRunStep(tables: seq<Table>, i: nat, copyFails: map<string, string>)
    requires i < |tables| && TablesRun(tables[..i], copyFails).err.None?
    ensures var prev := TablesRun(tables[..i], copyFails);
      var step := TableStep(tables[i], copyFails);
      TablesRun(tables[..i + 1], copyFails) == Run(prev.written + step.written, step.err, prev.events + step.events)
  {
    assert tables[..i + 1][..i] == tables[..i];
  }

  /** Once a table has failed, no later table is dumped. */
  lemma {:induction false} TablesRunStops(tables: seq<Table>, j: nat, copyFails: map<string, string>)
    requires j <= |tables|
    requires TablesRun(tables[..j], copyFails).err.Some?
    ensures TablesRun(tables, copyFails) == TablesRun(tables[..j], copyFails)
    decreases |tables|
  {
    if j < |tables| {
      var init := tables[..|tables| - 1];
      assert init[..j] == tables[..j];
      TablesRunStops(init, j, copyFails);
    } else {
      assert tables[..j] == tables;
    }
  }

  /** One COPY per table, in order. */
  function CopySteps(tables: seq<Table>): (es: seq<Event>)
    ensures |es| == |tables| && forall k :: 0 <= k < |tables| ==> es[k] == CopyTable(tables[k].name)
  {
    if |tables| == 0 then [] else CopySteps(tables[..|tables| - 1]) + [CopyTable(tables[|tables| - 1].name)]
  }

  /** When no table fails, every table is dumped in the listed order: one
      schema comment and one COPY per table that is not a view. */
  lemma {:induction false} TablesRunSucceeds(tables: seq<Table>, copyFails: map<string, string>)
    requires forall k :: 0 <= k < |tables| ==> !tables[k].isView && tables[k].name !in copyFails
    ensures var run := TablesRun(tables, copyFails);
      && run.err.None?
      && run.events == CopySteps(tables)
      && run.written == Terminated(SchemaLines(tables))
  {
    if |tables| > 0 {
      var init := tables[..|tables| - 1];
      TablesRunSucceeds(init, copyFails);
      var prev := TablesRun(init, copyFails);
      var t := tables[|tables| - 1];
      assert TablesRun(tables, copyFails) == Run(prev.written + SchemaComment(t.name), None, prev.events + [CopyTable(t.name)]);
      assert CopySteps(tables) == CopySteps(init) + [CopyTable(t.name)];
      assert SchemaLines(tables) == SchemaLines(init) + [SchemaLine(t.name)];
      TerminatedSnoc(SchemaLines(init), SchemaLine(t.name));
    }
  }

  /** The first failing table decides the error: the tables before it are
      dumped, it contributes its schema comment and COPY, and nothing after
      it runs. */
  lemma {:induction false} TablesRunFirstError(tables: seq<Table>, copyFails: map<string, string>, j: nat)
    requires j < |tables| && !tables[j].isView && tables[j].name in copyFails
    requires forall k :: 0 <= k < j ==> !tables[k].isView && tables[k].name !in copyFails
    ensures var run := TablesRun(tables, copyFails);
      var before := TablesRun(tables[..j], copyFails);
      && run.err == Some(DriverError(copyFails[tables[j].name]))
      && run.written == before.written + SchemaComment(tables[j].name)
      && run.events == before.events + [CopyTable(tables[j].name)]
  {
    var p := tables[..j + 1];
    assert p[..j] == tables[..j];
    TablesRunSucceeds(tables[..j], copyFails);
    TablesRunStops(tables, j + 1, copyFails);
  }

  /** Every run starts by beginning the transaction. */
  lemma {:induction false} RunBeginsTransaction(ignore: seq<string>, pending: Option<Error>, server: Server, completeTime: string)
    ensures var events := DumpRun(ignore, pending, server, completeTime).events;
      |events| > 0 && events[0] == BeginTx
  {
  }

  /** The rollback is deferred only once the begin has succeeded. */
  lemma {:induction false} RollbackOnlyAfterBegin(ignore: seq<string>, pending: Option<Error>, server: Server, completeTime: string)
    ensures RollbackTx in DumpRun(ignore, pending, server, completeTime).events <==> server.beginErr.None?
  {
  }

  /** After a successful begin, the rollback is the very last step and
      happens nowhere else. */
  lemma {:induction false} RollbackIsLast(ignore: seq<string>, pending: Option<Error>, server: Server, completeTime: string)
    requires server.beginErr.None?
    ensures var events := DumpRun(ignore, pending, server, completeTime).events;
      events[|events| - 1] == RollbackTx && RollbackTx !in events[..|events| - 1]
  {
    TxRunHasNoTransactionSteps(ignore, pending, server, completeTime);
    EndsWithRollback([BeginTx] + TxRun(ignore, pending, server, completeTime).events);
  }

  /** Inside the transaction, neither a begin nor a rollback is issued. */
  lemma {:induction false} TxRunHasNoTransactionSteps(ignore: seq<string>, pending: Option<Error>, server: Server, completeTime: string)
    ensures var events := TxRun(ignore, pending, server, completeTime).events;
      BeginTx !in events && RollbackTx !in events
  {
    var listing := ListTables(ignore, server.tableQuery);
    if server.serverVersion.Ok? && listing.err.None? {
      TablesRunCopiesOnly(listing.tables, server.copyFails);
    }
  }

  lemma {:induction false} EndsWithRollback(pre: seq<Event>)
    requires RollbackTx !in pre
    ensures var events := pre + [RollbackTx];
      RollbackTx in events && events[|events| - 1] == RollbackTx && RollbackTx !in events[..|events| - 1]
  {
    assert (pre + [RollbackTx])[..|pre|] == pre;
  }

  /** The table loop only issues COPY steps. */
  lemma {:induction false} TablesRunCopiesOnly(tables: seq<Table>, copyFails: map<string, string>)
    ensures forall e :: e in TablesRun(tables, copyFails).events ==> e.CopyTable?
  {
    if |tables| > 0 {
      TablesRunCopiesOnly(tables[..|tables| - 1], copyFails);
    }
  }

  /** The footer is written exactly when the dump succeeds, and then after
      the header and every table. */
  lemma {:induction false} FooterIffSuccess(ignore: seq<string>, pending: Option<Error>, server: Server, completeTime: string)
    ensures var run := DumpRun(ignore, pending, server, completeTime);
      && (FooterOut in run.events <==> run.err.None?)
      && (run.err.None? ==> run.written == HeaderText(server.serverVersion.value)
                              + TablesRun(ListTables(ignore, server.tableQuery).tables, server.copyFails).written
                              + FooterText(completeTime))
  {
    if server.beginErr.None? {
      var tx := TxRun(ignore, pending, server, completeTime);
      TxFooterIffSuccess(ignore, pending, server, completeTime);
      assert FooterOut in [BeginTx] + tx.events + [RollbackTx] <==> FooterOut in tx.events;
    }
  }

  lemma {:induction false} TxFooterIffSuccess(ignore: seq<string>, pending: Option<Error>, server: Server, completeTime: string)
    ensures var run := TxRun(ignore, pending, server, completeTime);
      && (FooterOut in run.events <==> run.err.None?)
      && (run.err.None? ==> run.written == HeaderText(server.serverVersion.value)
                              + TablesRun(ListTables(ignore, server.tableQuery).tables, server.copyFails).written
                              + FooterText(completeTime))
  {
    var listing := ListTables(ignore, server.tableQuery);
    if server.serverVersion.Ok? && listing.err.None? {
      var body := TablesRun(listing.tables, server.copyFails);
      TablesRunCopiesOnly(listing.tables, server.copyFails);
      var events := [ShowVersion, HeaderOut, QueryTables] + body.events;
      assert FooterOut !in events;
    }
  }

  /** A successful dump of tables whose copies all succeed is exactly the
      header's lines, one schema comment per listed table in catalog order,
      and the footer line, each ended by a newline; with single-line names,
      versions and times, every one of them is a single line, so the text
      reads back line by line (`Text.TerminatedLines`). */
  lemma {:induction false} DumpLines(ignore: seq<string>, server: Server, completeTime: string)
    requires server.beginErr.None? && server.serverVersion.Ok?
    requires var listing := ListTables(ignore, server.tableQuery);
      && listing.err.None?
      && forall k :: 0 <= k < |listing.tables| ==> listing.tables[k].name !in server.copyFails
    ensures var ts := ListTables(ignore, server.tableQuery).tables;
      DumpRun(ignore, None, server, completeTime).written
      == Terminated(HeaderLines(server.serverVersion.value) + SchemaLines(ts) + [FooterLine(completeTime)])
  {
    var v, ts := server.serverVersion.value, ListTables(ignore, server.tableQuery).tables;
    ListedTablesAreNotIgnored(ignore, server.tableQuery);
    TablesRunSucceeds(ts, server.copyFails);
    var body := TablesRun(ts, server.copyFails);
    assert TxRun(ignore, None, server, completeTime).written == HeaderText(v) + body.written + FooterText(completeTime);
    FooterIsTerminated(completeTime);
    TerminatedThree(HeaderLines(server.serverVersion.value), SchemaLines(ts), [FooterLine(completeTime)]);
  }

  lemma {:induction false} FooterIsTerminated(completeTime: string)
    ensures FooterText(completeTime) == Terminated([FooterLine(completeTime)])
  {
    TerminatedSnoc([], FooterLine(completeTime));
    assert [] + [FooterLine(completeTime)] == [FooterLine(completeTime)];
  }

  lemma {:induction false} TerminatedThree(a: seq<string>, b: seq<string>, c: seq<string>)
    ensures Terminated(a + b + c) == Terminated(a) + Terminated(b) + Terminated(c)
  {
    TerminatedAppend(a, b);
    TerminatedAppend(a + b, c);
  }

  /** Each line of the dump is a single line when the version, the table
      names and the time are. */
  lemma {:induction false} DumpLinesSingle(serverVersion: string, ts: seq<Table>, completeTime: string)
    requires '\n' !in serverVersion && '\n' !in completeTime
    requires forall k :: 0 <= k < |ts| ==> '\n' !in ts[k].name
    ensures var ls := HeaderLines(serverVersion) + SchemaLines(ts) + [FooterLine(completeTime)];
      forall k :: 0 <= k < |ls| ==> '\n' !in ls[k]
  {
    FooterLineSingle(completeTime);
    forall k | 0 <= k < |ts| ensures '\n' !in SchemaLine(ts[k].name) {
      SchemaLineSingle(ts[k].name);
    }
  }

  lemma {:induction false} SchemaLineSingle(name: string)
    requires '\n' !in name
    ensures '\n' !in SchemaLine(name)
  {
  }

  lemma {:induction false} FooterLineSingle(completeTime: string)
    requires '\n' !in completeTime
    ensures '\n' !in FooterLine(completeTime)
  {
  }

  /** The four header lines. */
  function HeaderLines(serverVersion: string): (ls: seq<string>)
    ensures |ls| == 4 && ls[0] == "-- Go PostgreSQL Dump " + Version
    ensures '\n' !in serverVersion ==> forall k :: 0 <= k < |ls| ==> '\n' !in ls[k]
  {
    var ls := ["-- Go PostgreSQL Dump " + Version,
               "--",
               RuleLine,
               "-- Server version\t" + serverVersion];
    assert '\n' !in ls[0];
    assert '\n' !in ls[1];
    RuleLineSingle();
    assert '\n' !in serverVersion ==> '\n' !in ls[3];
    ls
  }

  /** Read back, the header's first line names the tool version and its
      fourth the server version, whatever (single-line) version the server
      reported. */
  lemma {:induction false} HeaderReadBack(serverVersion: string)
    requires '\n' !in serverVersion
    ensures var ls := Lines(HeaderText(serverVersion));
      |ls| == 5 && ls[0] == "-- Go PostgreSQL Dump 1.0.0" && ls[3] == "-- Server version\t" + serverVersion && ls[4] == ""
  {
    TerminatedLines(HeaderLines(serverVersion));
  }

  // ---------------------------------------------------------------------
  // Data

  class Data {
    /** Everything written to `Out` so far. */
    var out: string
    var ignoreTables: seq<string>
    var maxAllowedPacket: int
    var tx: TxState
    var templatesReady: bool
    var err: Option<Error>
    ghost var trace: seq<Event>

    constructor(ignoreTables: seq<string>, maxAllowedPacket: int)
      ensures this.ignoreTables == ignoreTables && this.maxAllowedPacket == maxAllowedPacket
      ensures out == "" && tx == NoTx && !templatesReady && err == None && trace == []
    {
      this.ignoreTables := ignoreTables;
      this.maxAllowedPacket := maxAllowedPacket;
      out := "";
      tx := NoTx;
      templatesReady := false;
      err := None;
      trace := [];
    }

    /** `isIgnoredTable`: a linear search of the ignore list. */
    method IsIgnoredTable(name: string) returns (b: bool)
      ensures b <==> name in ignoreTables
    {
      var i := 0;
      while i < |ignoreTables|
        invariant 0 <= i <= |ignoreTables|
        invariant name !in ignoreTables[..i]
      {
        if ignoreTables[i] == name {
          return true;
        }
        assert ignoreTables[..i + 1] == ignoreTables[..i] + [ignoreTables[i]];
        i := i + 1;
      }
      assert ignoreTables[..i] == ignoreTables;
      return false;
    }

    /** `getTables`, on the open transaction. */
    method GetTables(q: Query<Option<string>>) returns (tables: seq<Table>, e: Option<Error>)
      requires tx == Open
      ensures Listing(tables, e) == ListTables(ignoreTables, q)
    {
      if q.Failed? {
        return [], Some(DriverError(q.cause));
      }
      var rows := q.rows;
      ghost var names: seq<string> := [];
      tables := [];
      var i := 0;
      while i < |rows|
        invariant 0 <= i <= |rows|
        invariant |names| == i && forall k :: 0 <= k < i ==> rows[k] == Some(names[k])
        invariant tables == AsTables(Unignored(names, ignoreTables))
      {
        if rows[i].None? {
          ListingOfNull(ignoreTables, q, i);
          return [], Some(NullIntoString);
        }
        var name := rows[i].value;
        var ignored := IsIgnoredTable(name);
        ListStep(names, name, ignoreTables);
        if !ignored {
          tables := tables + [Table(name, false)];
        }
        names := names + [name];
        i := i + 1;
      }
      e := if q.iterErr.Some? then Some(DriverError(q.iterErr.value)) else None;
      ListingOfNames(ignoreTables, q, names);
    }

    method Begin(server: Server) returns (e: Option<Error>)
      modifies this`tx, this`trace
      ensures tx == (if server.beginErr.Some? then NoTx else Open)
      ensures e == (if server.beginErr.Some? then Some(DriverError(server.beginErr.value)) else None)
      ensures trace == old(trace) + [BeginTx]
    {
      trace := trace + [BeginTx];
      if server.beginErr.Some? {
        tx := NoTx;
        return Some(DriverError(server.beginErr.value));
      }
      tx := Open;
      return None;
    }

    /** `rollback`: a transaction that was begun is rolled back (its own
        error is dropped by the deferred call). */
    method Rollback()
      modifies this`tx, this`trace
      ensures tx == (if old(tx) == NoTx then NoTx else RolledBack)
      ensures trace == old(trace) + [RollbackTx]
    {
      trace := trace + [RollbackTx];
      if tx != NoTx {
        tx := RolledBack;
      }
    }

    /** `dumpTable`: nothing for a view; otherwise the schema comment, then
        the data step, whose error is returned. */
    method DumpTable(t: Table, copyFails: map<string, string>) returns (e: Option<Error>)
      modifies this`out, this`trace
      ensures var step := TableStep(t, copyFails);
        out == old(out) + step.written && e == step.err && trace == old(trace) + step.events
    {
      if t.isView {
        return None;
      }
      out := out + SchemaComment(t.name);
      trace := trace + [CopyTable(t.name)];
      if t.name in copyFails {
        return Some(DriverError(copyFails[t.name]));
      }
      return None;
    }

    /** The table loop of `Dump`: each table in turn, returning at the
        first error. */
    method DumpTables(tables: seq<Table>, copyFails: map<string, string>) returns (e: Option<Error>)
      modifies this`out, this`trace
      ensures var body := TablesRun(tables, copyFails);
        out == old(out) + body.written && e == body.err && trace == old(trace) + body.events
    {
      var i := 0;
      ghost var done := Run("", None, []);
      while i < |tables|
        invariant 0 <= i <= |tables|
        invariant done == TablesRun(tables[..i], copyFails) && done.err.None?
        invariant out == old(out) + done.written && trace == old(trace) + done.events
      {
        TablesRunStep(tables, i, copyFails);
        ghost var step := TableStep(tables[i], copyFails);
        e := DumpTable(tables[i], copyFails);
        Associative(old(out), done.written, step.written);
        Associative(old(trace), done.events, step.events);
        done := Run(done.written + step.written, step.err, done.events + step.events);
        if e.Some? {
          TablesRunStops(tables, i + 1, copyFails);
          return;
        }
        i := i + 1;
      }
      assert tables[..i] == tables;
      e := None;
    }

    /** The part of `Dump` that runs inside the open transaction: the
        server version, the header, the table list, each table, the error
        field and the footer, returning at the first error. */
    method DumpInTx(server: Server, completeTime: string) returns (e: Option<Error>)
      requires tx == Open
      modifies this`out, this`trace
      ensures var run := TxRun(ignoreTables, err, server, completeTime);
        out == old(out) + run.written && e == run.err && trace == old(trace) + run.events
    {
      trace := trace + [ShowVersion];
      if server.serverVersion.Err? {
        return Some(server.serverVersion.error);
      }
      var header := HeaderText(server.serverVersion.value);
      out := out + header;
      trace := trace + [HeaderOut];
      var tables, listErr := GetTables(server.tableQuery);
      trace := trace + [QueryTables];
      ghost var steps := [ShowVersion, HeaderOut, QueryTables];
      assert trace == old(trace) + steps by {
        Associative(old(trace), [ShowVersion], [HeaderOut]);
        Associative(old(trace), [ShowVersion] + [HeaderOut], [QueryTables]);
      }
      if listErr.Some? {
        return listErr;
      }
      ghost var body := TablesRun(tables, server.copyFails);
      e := DumpTables(tables, server.copyFails);
      Associative(old(out), header, body.written);
      Associative(old(trace), steps, body.events);
      if e.Some? {
        return;
      }
      if err.Some? {
        return err;
      }
      Associative(old(out), header + body.written, FooterText(completeTime));
      Associative(old(trace), steps + body.events, [FooterOut]);
      out := out + FooterText(completeTime);
      trace := trace + [FooterOut];
    }

    /** `Dump`, against `server`, with `completeTime` the time taken
        after the last table. */
    method Dump(server: Server, completeTime: string) returns (e: Option<Error>)
      modifies this
      ensures maxAllowedPacket == if old(maxAllowedPacket) == 0 then DefaultMaxAllowedPacket else old(maxAllowedPacket)
      ensures templatesReady && ignoreTables == old(ignoreTables) && err == old(err)
      ensures var run := DumpRun(old(ignoreTables), old(err), server, completeTime);
        out == old(out) + run.written && e == run.err && trace == old(trace) + run.events
      ensures tx == if server.beginErr.Some? then NoTx else RolledBack
    {
      if maxAllowedPacket == 0 {
        maxAllowedPacket := DefaultMaxAllowedPacket;
      }
      templatesReady := true;
      e := Begin(server);
      if e.Some? {
        return;
      }
      ghost var inTx := TxRun(ignoreTables, err, server, completeTime);
      e := DumpInTx(server, completeTime);
      Rollback();
      Associative(old(trace), [BeginTx], inTx.events);
      Associative(old(trace), [BeginTx] + inTx.events, [RollbackTx]);
    }
  }
}
