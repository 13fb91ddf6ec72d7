# go-pgdump dump engine, modelled in Dafny

This project models the text-rendering and run-assembly core of go-pgdump.
go-pgdump writes a PostgreSQL database out as a SQL script.

- The catalog and data queries are replaced by their result rows, which are inputs.
- The per-table renderers build their SQL text from those rows:
  - `CREATE TABLE`, in `getCreateTableStatement`;
  - the `COPY ... FROM stdin` block, in `getTableDataCopyFormat`;
  - `INSERT`, in `getTableData`;
  - sequence and primary-key statements, in `scriptSequences` and `scriptPrimaryKeys`.
- These are modelled as functions. The row loops of the source are methods, each proved equal to its function.
- The per-table script (`scriptTable`) chains four steps and returns at the first error.
- The two `Dumper` runs are modelled as follows:
  - `DumpDatabase` writes header, table bodies and footer. A table that fails is dropped.
  - `DumpToCSV` stops at the first chunk with an error.
  - Both split the table list into chunks of at most `Parallels` tables.
  - Both are modelled sequentially. The order in which a chunk's jobs finish is any permutation of the chunk.
- `Data.Dump` (dump.go) is a class whose fields change as in the source:
  - it begins a read-only transaction;
  - it reads the server version, writes the header and lists the tables that are not ignored;
  - it dumps each table and writes the footer;
  - it rolls back on every return once the transaction has begun.
  - A ghost trace of events records the order of these steps.
- The header and footer templates of `template.go` are modelled as literal substitution.

Modules, one per source file:

- `Schema` (schema.go)
- `Data` (data.go)
- `Dumper` (dumper.go)
- `Dump` (dump.go)
- `Template` (template.go)

Two helper modules:

- `Common`: option, result and error types, the shape of a query result, and the "render, write, stop at the first error" loop that `dumpSchema` and `dumpData` share.
- `Text`: `strings.Join`, splitting at a separator, newline-terminated lines and decimal rendering, with their read-back lemmas.

The model keeps some behaviours of the code that depart from the formats it writes:

- The COPY block writes a NULL as the empty string and escapes nothing. PostgreSQL's COPY text format writes NULL as `\N` and escapes tab, newline and backslash with a backslash. These lemmas show what is lost:
  - `CopyNullLooksEmpty`: a NULL and an empty text give the same block.
  - `CopyRowSplitIff` and `CopyNewlineBreaksLines`: a value holding a tab or newline cannot be read back.
- `INSERT` values are put between single quotes without doubling an embedded `'`. Standard SQL doubles it. `UnescapedQuoteIsAmbiguous` shows the resulting ambiguity.
- `DumpDatabase` drops a table whose script fails and still returns nil (dumper.go:113-116, 128).
- `DumpDatabase` takes the footer's "completed" time before it writes the header (dumper.go:88). `Data.Dump` takes it after the last table (dump.go:101).

## Model

| member | source | states |
|---|---|---|
| Common.ScanString | schema.go:44-47 | scanning a column into a Go string fails exactly on NULL, with the NULL-into-string error, and otherwise yields the text |
| Common.WriteEachStops | schema.go:22-28 | once a table has failed, no later table is rendered or written: the outcome for any longer list is the outcome at the failure |
| Common.WriteEachSucceeds | schema.go:22-28 | the per-table write loop succeeds exactly when every table renders |
| Common.WriteEachFirstError | data.go:22-28 | the error returned is the first failing table's, and the text written is what the tables before it wrote |
| Common.WriteEachSnoc | data.go:22-28 | one more table after a successful prefix either appends its text and a blank line, or stops with its error having written nothing more |
| Common.WriteEachAppend | data.go:22-28 | when every table renders, tables are written in list order: the text for two runs of tables is the first's followed by the second's |
| Template.HeaderStartsWithToolVersion | template.go:27 | the header opens with the line "-- Go PostgreSQL Dump v" followed by the tool version |
| Template.HeaderEndsWithDirectives | template.go:34-47 | every header ends with the same SET/set_config directive block, whatever values are substituted |
| Template.HeaderIgnoresCompleteTime | template.go:26-48 | the completion time does not affect the header |
| Template.FooterDependsOnlyOnCompleteTime | template.go:56-59 | two footers are equal exactly when their completion times are |
| Template.VersionBlockIsSingleLines | template.go:27-33 | with single-line versions, each of the seven version-block lines is a single line |
| Template.HeaderLinesReadBack | template.go:27-48 | read back line by line, the header's first seven lines are the version block |
| Template.HeaderFieldsReadBack | template.go:27-32 | line 1 gives back the tool version, line 4 the server version verbatim, and line 6 the thread count in decimal |
| Template.FooterReadBack | template.go:57-59 | read back, the footer is exactly the lines "--", "-- Dump completed on " + time, and "--" |
| Schema.PublicTables | schema.go:34-51 | the table list is the names of the rows in row order; a NULL name fails the whole list; a query failure is returned as the error |
| Schema.GetTables | schema.go:34-51 | the row loop returns exactly the table list `PublicTables` specifies |
| Schema.ColumnDefinition | schema.go:69-72 | a column definition is the name, a space and the type, followed by "(" + decimal length + ")" exactly when the length is not NULL |
| Schema.Definitions | schema.go:62-74 | one definition per column row, in row order |
| Schema.GetCreateTableStatement | schema.go:54-77 | the row loop returns the query error, the first scan error, or the CREATE TABLE text of all rows |
| Schema.IndentedDefinitions | schema.go:76 | the body lines of a CREATE TABLE: each definition indented by four spaces, with a comma on every line but the last; no columns leaves one blank indented line |
| Schema.IndentJoin | schema.go:76 | joining with ",\n    " after a four-space indent is the same as joining the indented lines with newlines |
| Schema.CreateTableJoin | schema.go:76 | a CREATE TABLE text is its opening line, its body lines and ");" joined by newlines |
| Schema.CreateTableLines | schema.go:73-76 | read back line by line, a CREATE TABLE is the opening line, the indented definitions in order, and ");" |
| Schema.CreateTableSingleLines | schema.go:76 | with single-line names and definitions, every line of a CREATE TABLE is a single line |
| Schema.CreateTableFromRows | schema.go:62-76 | when every column row scans, the statement succeeds; line k+1 is row k's definition, indented, with a comma on every line but the last |
| Schema.CopyFields | schema.go:107-109 | one field per value, in column order, each the value's text (empty for NULL) |
| Schema.CopyRows | schema.go:101-111 | one data line per row, in row order |
| Schema.FirstMismatch | schema.go:101-105 | the index of the first row whose width differs from the column count: all rows before it have the right width |
| Schema.FirstMismatchAt | schema.go:101-105 | a wrong-width row after right-width rows is the first mismatch |
| Schema.CopyStep | schema.go:101-111 | writing one more row line extends the block built so far by that line and a newline |
| Schema.CopyStart | schema.go:100 | before any row, the block is the header line and its newline |
| Schema.CopyFinish | schema.go:112-114 | the terminator line completes the block |
| Schema.RowLine | schema.go:106-110 | the inner loop builds exactly the tab-joined row line |
| Schema.GetTableDataCopyFormat | schema.go:81-115 | the row loop returns the query error, the scan error of the first wrong-width row, or the whole COPY block |
| Schema.CopyBlockFraming | schema.go:100-112 | the block opens with "COPY t (cols) FROM stdin;\n" and always ends with "\.\n", even with no rows |
| Schema.CopyRowReadBack | schema.go:107-110 | a row line is a single line, and splitting it at tabs gives back the row's values when no value holds a tab or newline |
| Schema.FramedLines | schema.go:100-112 | newline-terminated lines made of a first line, middle lines and a last line read back as those lines |
| Schema.CopyHeaderSingleLine | schema.go:100 | with single-line table and column names, the COPY header is a single line |
| Schema.CopyBlockLines | schema.go:100-112 | read back, a COPY block is its header line, one line per row and the terminator line |
| Schema.CopyBlockReadBack | schema.go:100-112 | read back, a COPY block is its header, its row lines in order and the terminator; each row line splits at tabs into the row's values, with NULL read back as empty text |
| Schema.CopyNullLooksEmpty | schema.go:107-108 | replacing any NULL of any block with the empty text leaves the COPY block unchanged: the block cannot tell them apart |
| Schema.CopyRowSplitIff | schema.go:107-110 | a row line splits at tabs back into the row's values exactly when no value holds a tab |
| Schema.CopyRowTabBreaksReadBack | schema.go:107-110 | a tab in any value means the row line no longer splits back into the row's values |
| Schema.CopyNewlineBreaksLines | schema.go:107-111 | a newline in any value means the block's lines are no longer its header, one line per row and the terminator |
| Schema.CopyTabInValueIsAmbiguous | schema.go:108-110 | a value holding a tab gives the same line as two values |
| Schema.DumpSchema | schema.go:10-31 | `dumpSchema` returns the table-list error, the file error, or writes each table's CREATE TABLE followed by a blank line, stopping at the first error |
| Data.SqlLiteralSame | data.go:56-63 | two values are written alike exactly when both are NULL or both are non-NULL with the same text |
| Data.QuotedLiteral | data.go:57-62 | a NULL is the bare token NULL; any other value is its text between single quotes, with embedded quotes not doubled |
| Data.ValueStrings | data.go:54-64 | one SQL literal per buffered value, in column order |
| Data.NullBuffer | data.go:45-49 | before the first row, every destination of the buffer holds nil |
| Data.BufferAfter | data.go:52-53 | the value buffer keeps one slot per column whatever the rows scanned |
| Data.Statements | data.go:52-66 | one INSERT statement per row delivered |
| Data.RenderValues | data.go:54-64 | the inner loop builds exactly the value strings of the buffer |
| Data.GetTableData | data.go:33-69 | the row loop returns the query error or the newline-joined INSERT statements |
| Data.BufferAfterWellFormed | data.go:52-53 | after rows of the right width, the buffer holds the last row |
| Data.StatementsOfWellFormedRows | data.go:52-66 | when every row has one value per column, statement k is the INSERT of row k |
| Data.StaleRowRepeats | data.go:53 | a wrong-width row, whose scan error is ignored, repeats the previous statement; as the first row it gives an INSERT of NULLs |
| Data.StatementAt | data.go:52-66 | statement i is rendered from the buffer after the first i + 1 scans |
| Data.BufferSingleLine | data.go:52-53 | with single-line values, the buffer only ever holds single-line values |
| Data.InsertSingleLine | data.go:65 | with single-line names and values, an INSERT statement is a single line |
| Data.TableDataLines | data.go:51-68 | zero rows give "", and otherwise the text reads back as exactly one INSERT per row, with no trailing newline |
| Data.UnescapedQuoteIsAmbiguous | data.go:59-60 | because quotes are not doubled, a one-value row and a two-value row can produce the same INSERT statement |
| Data.DumpData | data.go:10-31 | `dumpData` returns the table-list error, the file error, or writes each table's INSERT text followed by a blank line, stopping at the first error |
| Data.DataFileFails | data.go:22-28 | with the list and file in hand, `dumpData` fails exactly when some table's data query fails, and then with the first such error |
| Dumper.NewDumper | dumper.go:27-39 | Parallels is threads when threads > 0 and 50 otherwise, so it is at least 1; the version is the fetched tag, or "unknown" when fetching failed |
| Dumper.FlattenSnoc | dumper.go:106-107 | concatenating one more chunk appends it |
| Dumper.Chunks | dumper.go:106 | the chunks concatenate back to the table list in order; each is non-empty and at most Parallels long; all but the last are exactly Parallels long; there are none exactly when the list is empty |
| Dumper.SequenceLines | dumper.go:235-244 | two lines per sequence row |
| Dumper.SequenceLinesAt | dumper.go:243 | line 2k is row k's creation statement and line 2k+1 its column default |
| Dumper.ScriptSequences | dumper.go:210-251 | the row loop returns the wrapped query error, the wrapped scan error, the wrapped iteration error, or the lines of every row |
| Dumper.SequenceStep | dumper.go:243 | one more row appends its creation line and default line, each newline-terminated |
| Dumper.SequencesIgnoreOwned | dumper.go:236-243 | the text of seq_owned never reaches the script |
| Dumper.SequenceLinesSame | dumper.go:236-243 | rows that differ only in seq_owned give the same lines |
| Dumper.NullOwnedFails | dumper.go:237-238 | a NULL seq_owned fails the whole script with the wrapped scan error |
| Dumper.SequenceLinesSingle | dumper.go:243 | with single-line statements, every sequence line is a single line |
| Dumper.SequencesReadBack | dumper.go:235-250 | zero rows give ""; otherwise the script reads back as two lines per row, in row order: creation, then column default |
| Dumper.AlterLineParts | dumper.go:281-282 | a constraint line is "ALTER TABLE public." + table + " ADD CONSTRAINT " + name + " " + definition + ";", with the definition verbatim |
| Dumper.KeyLines | dumper.go:274-283 | one constraint line per key row, in row order |
| Dumper.ScriptPrimaryKeys | dumper.go:253-290 | the row loop returns the wrapped query error, the wrapped scan error, the wrapped iteration error, or one line per key row |
| Dumper.KeyStep | dumper.go:281-282 | one more key row appends its newline-terminated constraint line |
| Dumper.PrimaryKeysReadBack | dumper.go:274-289 | read back, a successful key script is one constraint line per row, in row order |
| Dumper.AlterLineSingle | dumper.go:281-282 | with single-line parts, a constraint line is a single line |
| Dumper.ScriptTable | dumper.go:177-208 | the step-by-step buffer equals the per-table script `TableScript` |
| Dumper.TableScriptOk | dumper.go:177-207 | the script succeeds exactly when all four steps do |
| Dumper.TableScriptStops | dumper.go:180-204 | once a step fails, the later steps' queries make no difference |
| Dumper.TableScriptFraming | dumper.go:177-207 | a successful script opens with the CREATE TABLE and a blank line, and ends with the COPY terminator and two more newlines |
| Dumper.PartsFraming | dumper.go:184-205 | the four parts each followed by "\n\n" keep the first part at the front and the COPY terminator at the end |
| Dumper.FlattenArrangement | dumper.go:107-122 | finishing orders that permute each chunk permute the whole table list |
| Dumper.SingletonArrangement | dumper.go:107-122 | with one-table chunks, the finishing order is the chunk order |
| Dumper.BodiesAppend | dumper.go:117-119 | the bodies written for two runs of tables are the first's followed by the second's |
| Dumper.FailingTableAddsNothing | dumper.go:113-116 | a table whose script fails contributes no text |
| Dumper.BodiesSingle | dumper.go:113-119 | one table writes its script, or nothing when the script fails |
| Dumper.AllFailingGivesEmptyDump | dumper.go:113-116 | when every script fails, nothing is written between header and footer |
| Dumper.DumpDatabase | dumper.go:71-129 | for some finishing order of each chunk, the output is the open or create error, or the header and the table-list error, or the header, the surviving bodies in that order and the footer, with no error |
| Dumper.WriteChunks | dumper.go:106-123 | the chunks run one after another; the text written is the bodies of the tables in a finishing order that permutes each chunk |
| Dumper.ArrangementSnoc | dumper.go:107-123 | one more chunk with a permuted order keeps the orders an arrangement of the chunks |
| Dumper.WriteChunk | dumper.go:108-122 | a chunk's jobs write their bodies in some permutation of the chunk |
| Dumper.RunCoversTables | dumper.go:106-123 | in a run past the table list, every table is scripted exactly once |
| Dumper.SingleThreadKeepsOrder | dumper.go:106-123 | with one thread, the tables are written in list order |
| Dumper.DatabaseDumpSucceeds | dumper.go:92-128 | once the table list is read the run returns nil whatever the scripts do, and its output starts with the header and ends with the footer |
| Dumper.PrefixSuffix | dumper.go:92-124 | a text made of three parts begins with the first and ends with the last |
| Dumper.DumpToCSV | dumper.go:131-175 | for some finishing order of each chunk, the result is the open error, or the outcome of running the chunks one after another and stopping at the first failing chunk |
| Dumper.RunChunks | dumper.go:143-173 | the chunk loop returns nil paths and the group's error at the first failing chunk, and otherwise the paths of all jobs |
| Dumper.CsvAbort | dumper.go:170-172 | a failing chunk after successful ones ends the run with its error, whatever the later chunks would do |
| Dumper.ExtendArrangement | dumper.go:143-173 | the orders of the chunks run so far, the failing chunk's order and the untouched later chunks form an arrangement of all chunks |
| Dumper.RunChunk | dumper.go:144-170 | every job of a chunk runs; the group returns the first error in finishing order, and the successful jobs append their paths in that order |
| Dumper.CsvRunStops | dumper.go:170-172 | the first chunk with an error decides the run; later chunks are not started |
| Dumper.ChunkFailureIff | dumper.go:147-170 | a chunk reports an error exactly when one of its jobs fails; when none fails, it appends one path per job in finishing order |
| Dumper.PathsOf | dumper.go:166 | one path per table, in order |
| Dumper.CsvRunOutcome | dumper.go:143-174 | the run fails exactly when some job fails, and then returns no paths; otherwise it returns one path per table in finishing order |
| Dumper.MemberOfAppend | dumper.go:143-173 | some table of two runs fails exactly when one in either run fails |
| Dumper.PathsOfAppend | dumper.go:166 | the paths of two runs of tables are the first's followed by the second's |
| Dumper.CsvDumpOutcome | dumper.go:131-175 | `DumpToCSV` fails exactly when some table's job fails, with no paths; on success it returns each table's path once |
| Dump.RuleLineSingle | dump.go:53 | the rule line is 57 characters and a single line |
| Dump.SchemaLines | dump.go:184 | one schema comment line per table, in order |
| Dump.UnignoredMembers | dump.go:145-156 | a listed name is exactly a catalog name that is not ignored |
| Dump.UnignoredAppend | dump.go:145-156 | the ignore filter preserves order |
| Dump.AsTables | dump.go:152 | each listed name becomes a table that is not a view |
| Dump.ListStep | dump.go:146-154 | one more catalog row adds its table unless the name is ignored |
| Dump.ScanNames | dump.go:146-150 | the rows scan exactly when none is NULL, and then give their names in order |
| Dump.ListingOfNull | dump.go:148-150 | a NULL table name fails the listing with no tables |
| Dump.ListingOfNames | dump.go:145-156 | when every row holds a name, the listing is the unignored names in catalog order, with the iteration error if any |
| Dump.ListedTablesAreNotIgnored | dump.go:151-152 | `getTables` never lists a view or an ignored name |
| Dump.TablesRunStep | dump.go:91-95 | after tables that succeeded, one more table adds its own step |
| Dump.TablesRunStops | dump.go:92-94 | once a table has failed, no later table is dumped |
| Dump.CopySteps | dump.go:198-201 | one COPY per table, in order |
| Dump.TablesRunSucceeds | dump.go:91-95 | when no table fails, every table is dumped in list order: one schema comment and one COPY each |
| Dump.TablesRunFirstError | dump.go:91-95 | the first failing table decides the error: the tables before it are dumped, it writes its comment and issues its COPY, and nothing after it runs |
| Dump.RunBeginsTransaction | dump.go:73-76 | every run starts by beginning the transaction |
| Dump.RollbackOnlyAfterBegin | dump.go:73-76 | the rollback happens exactly when the begin succeeded |
| Dump.RollbackIsLast | dump.go:76 | after a successful begin, the rollback is the last step and happens nowhere else |
| Dump.TxRunHasNoTransactionSteps | dump.go:78-102 | inside the transaction neither a begin nor a rollback is issued |
| Dump.EndsWithRollback | dump.go:76 | a step list ending with the rollback has it last and nowhere else |
| Dump.TablesRunCopiesOnly | dump.go:91-95 | the table loop issues only COPY steps |
| Dump.FooterIffSuccess | dump.go:60-103 | the footer is written exactly when `Dump` returns nil, and then the output is the header, the tables' text and the footer |
| Dump.TxFooterIffSuccess | dump.go:78-102 | inside the transaction, the footer is written exactly when no step failed and the error field is nil |
| Dump.DumpLines | dump.go:51-102 | a successful dump is the four header lines, one schema comment per listed table in catalog order, and the footer line, each newline-terminated |
| Dump.FooterIsTerminated | dump.go:57-58 | the footer is its single line followed by a newline |
| Dump.TerminatedThree | dump.go:82-102 | newline-terminated lines of three parts are the three parts' texts one after another |
| Dump.DumpLinesSingle | dump.go:51-58 | with single-line version, names and time, every line of the dump is a single line |
| Dump.SchemaLineSingle | dump.go:184 | with a single-line name, the schema comment is a single line |
| Dump.FooterLineSingle | dump.go:57 | with a single-line time, the footer line is a single line |
| Dump.HeaderLines | dump.go:51-55 | four header lines, the first "-- Go PostgreSQL Dump " + Version |
| Dump.HeaderReadBack | dump.go:47-55 | read back, the header's first line is "-- Go PostgreSQL Dump 1.0.0" and its fourth "-- Server version", a tab, and the server version |
| Dump.Data.constructor | dump.go:15-27 | a new `Data` holds the ignore list and packet size, with nothing written, no transaction and no error |
| Dump.Data.IsIgnoredTable | dump.go:159-166 | the linear search answers true exactly when the name is in IgnoreTables |
| Dump.Data.GetTables | dump.go:133-157 | the row loop returns exactly the listing `ListTables` specifies |
| Dump.Data.Begin | dump.go:105-111 | the transaction is open exactly when begin succeeds, and its error is returned otherwise |
| Dump.Data.Rollback | dump.go:113-118 | a begun transaction is rolled back; without one the transaction state is unchanged; the deferred call is still recorded in the trace |
| Dump.Data.DumpTable | dump.go:177-196 | a view writes nothing and returns nil; otherwise "-- Schema for table <name>\n" is written, then the COPY is issued and its error returned |
| Dump.Data.DumpTables | dump.go:91-95 | the table loop appends what `TablesRun` specifies and returns its error |
| Dump.Data.DumpInTx | dump.go:78-102 | the part inside the transaction appends what `TxRun` specifies and returns its error |
| Dump.Data.Dump | dump.go:60-103 | a MaxAllowedPacket of exactly 0 becomes 4194304 and any other value is kept; the output, error and step order are those of `DumpRun`; a begun transaction ends rolled back |

## Left out

- Database access is not modelled. This covers `sql.Open`, `Query`, `Scan`, `BeginTx`, `rows.Columns()` and the catalog SQL. Each query's outcome is an input: a failure, or result columns, rows and an iteration error. Text that the server builds in the sequence query is opaque.
- `COPY ... TO STDOUT` through `Exec` (dump.go:198-207) is not modelled. Its outcome is an input that says which tables' copies fail. The log line it prints is left out.
- Transaction isolation (repeatable read, read-only) is a database guarantee and is not modelled. Only the begin/rollback ordering is kept.
- Concurrency is not modelled: goroutines, `sync.WaitGroup`, the mutex and `errgroup`. Chunks run one after another, and a chunk's jobs finish in any order. The unsynchronised `paths = append(...)` in `DumpToCSV` is a data race and is modelled as ordered appends.
- The errgroup context is not modelled: jobs of a failing chunk still run to completion, as they do in the source.
- Dumper.DumpDatabase and Dumper.DumpToCSV: require `Parallels >= 1`, because `slices.Chunk` panics otherwise. `NewDumper` always meets this.
- `fetchDumpVersion` (network, JSON decoding) is not modelled. Its outcome is an input to `NewDumper`.
- `getServerVersion`, with its "Unknown" fallback, is not modelled. The server version is an input.
- Timestamps from `time.Now().Format` are inputs.
- The two-argument `getTables(db, opts)` that `DumpDatabase` calls, and `TableOptions`, are not part of this model. Their result is an input to `DumpDatabase`.
- `getTableDataAsCSV` and the `encoding/csv` writer are not part of this model. Reading a table, creating its file and writing the records form one abstract job per table, and `path.Join` is an abstract path function.
- `os.Create` failures are an input. The results of `file.WriteString` are ignored by the source and are not modelled. Template execution errors are not modelled either: the templates are constants.
- Write errors are not modelled: the output writer is treated as infallible. This drops the error that `fmt.Fprintf` can return in `dumpTable` (dump.go:184-187); `Dump.Data.DumpTable` never fails on its schema comment.
- `Dump.Data.Dump`: `prepareTemplates` cannot fail on the constant templates, so that error path is not modelled.
- `Dump.Data.Dump`: `data.err` is never set in the source, but it is modelled as a field that `Dump` returns when it is set.
- `Data.Payload`: `%v` formatting of a non-byte value (data.go:62) is opaque text supplied with the value.
- `Dump.Data.GetTables` never sets `isView` (dump.go:152), so the view branch of `dumpTable` is unreachable from `Dump`. It is still modelled.
- `dumpTable` writes only the schema comment and issues the COPY; the COPY's rows never reach the output. The model keeps exactly that.
- `Register` in pgdump.go, pgdump/dumper.go and main.go are CLI wrappers with no logic of their own and are not modelled.
- The `Out`, `Connection`, `LockTables` and `DumpDir` fields of `Data` are not modelled. The output is a string field. `Connection` is read only by `begin` (`data.Connection.BeginTx`, dump.go:106); the model replaces it with the input `Server.beginErr`, the error `BeginTx` returns if any. `LockTables` and `DumpDir` are never read by the dump.
- Scan behaviour is limited to what the source relies on:
  - a NULL scanned into a Go `string` fails;
  - a row whose width differs from the destination count fails;
  - for `getTableData`, that failure is ignored and the previous buffer is kept.

  Driver-specific conversions are not modelled.
