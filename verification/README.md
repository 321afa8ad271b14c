# jibs: verification model

jibs copies an anonymized subset of a MySQL database from a server to a developer's machine. A
server process walks the foreign keys from the rows a plan selects and streams tables in chunks;
a client loads the chunks with a pool of workers, keeps a checkpoint so that an interrupted
import can be resumed, backs up local rows that a plan wants preserved, and restores foreign
keys. A stream can also be written to a `.jibsdump` file and loaded later. This project models
that program in Dafny and proves what it promises.

`dafny verify dfyconfig.toml` checks everything.

## How the model is laid out

| part | modules |
|---|---|
| encodings shared by both sides, sizes of sets | `Bytes`, `Sets`, `RowKeys`, `Rows` |
| the plan and its static walk | `Plan`, `StaticWalk` |
| the traversal on the server | `Database`, `Closure`, `References`, `Emission`, `Traversal`, `Streaming`, `Schedule`, `Guarantees` |
| the message stream | `Streams` |
| the client as a state machine with crashes | `LocalDb`, `ImportMachine`, `MessageLoop`, `ImportInvariants`, `ImportSteps`, `ImportSafety`, `ImportPreserve`, `ImportBackups`, `ImportResult` |
| foreign keys across interrupted runs | `ForeignKeys`, `KeyStore` |
| dump files, and dump against live import | `Dump`, `Export` |
| server and client together | `EndToEnd` |
| the byte path | `Tsv`, `Framing`, `BytePath` |
| the expression parser | `ExprParser` |
| inputs on which documentation and code differ | `Findings`, `ImportFindings` |

**Server.** The database is a map from tables to finite sets of rows; SQL `IN` is an arbitrary
predicate on (table, column, compact key, row). The order in which pending lookups are taken, rows
are returned and threads interleave is arbitrary. `Closure.Reached` is the least set of rows that
the rules of the documentation allow; the imperative search in `Traversal` is proved to meet
exactly that set, on any relation graph and any data, cycles and self-references included.
`References` says the same relation by relation: which column of which row is read, which column of
which table is asked, and what may not be entered; what is reached is what that leads to step by step.

**Client.** `ImportMachine` has one step for each thing that can happen next: the loop reads a
message, collects finished loads, checkpoints a table, restores a backup, a worker takes, drops,
creates or loads, the process dies. A history is any sequence of runs and steps. What survives a
crash is the local database: tables, checkpoint, backups. `jibs load` is the same machine without
a checkpoint. Invariants are proved for every history whose runs are given orderly streams
(`Streams.Orderly`: each table announced, then its chunks, then its end with their row count; or
ended with no rows and never announced, as a table is that was looked up in vain). The server sends
an orderly stream exactly when no excluded table is a root with rows (`Guarantees.StreamOrderly`).

**Files and frames.** bincode and zstd are any codec that decodes what it encoded.

**Together.** `EndToEnd.ImportedIsReached` joins the two: over any runs of the server and any history
of the client, a finished import leaves in each table exactly the rows the plan reaches, under the
rows to preserve. `BytePath` carries it down to bytes: the stream the client reads from the connection
(received, decompressed, split and loaded) is the one the server wrote (escaped, framed, compressed and
buffered), row by row.

Theorems about the server assume of the data that a key belongs to one row of its table and that a
lookup finds the same rows for both images of a cell (`Database.Sane`). `Database.TypedIsSane` shows
both for tables of NULLs, byte strings and integers, zero-filled or not, whose rows differ in their
key cells (lookups by cells with zeros in front are assumed to find the same rows), and `Guarantees.TypedRowsSent` states the main result for such data directly. They assume of a root
query that it answers with rows of its table.

## Where code and documentation differ

The model follows the code; each of these is stated as a lemma.

- The language specification says each row is transferred at most once. A row whose key holds a float, date or
  time, or a zero-filled integer with zeros to show (the year 0000 is one), has two keys, one for each
  MySQL protocol, and is sent twice when it is both selected as a root row and reached by a foreign
  key. `Guarantees.RowsSent` says exactly when; `Rows.RowHasOneKey` says which keys;
  `Findings.DateKeySentTwice` and `Findings.ZeroFilledKeySentTwice` are instances.
- A table that is looked up but has no matching row gets an end but no schema
  (`Guarantees.StreamWellFormed`, `Findings.EmptyTableNotAnnounced`). The client checkpoints it with
  a count of zero and leaves whatever the local table holds. A resumed run that finds such a table in
  the checkpoint, and is sent its end again, never finishes (`ImportFindings.SameStreamNeverEnds`);
  in the model that is the only way in which a crash-free run fails to end
  (`ImportSafety.EveryRunEnds`, an if-and-only-if).
- A table listed as excluded that is also an aggregate's root with rows is streamed by two
  producers (`Guarantees.ExcludedRootBreaks`, `Findings.ExcludedRootAnnouncedTwice`).
- A `full` table that is also an aggregate's root, or any `full` table in aggregates-only mode, is
  not copied whole, so references into it can dangle (`Guarantees.ReferencesArrive` says exactly
  when, `Findings.FullRootNotCopied` is an instance).
- A resumed import can back up, and put back over the source's, rows that an interrupted run itself
  had loaded. `ImportFindings.ImportedRowPreserved` is a history that ends with the stale row in the
  table. `ImportBackups.BackupExact` says when a backup is right: exactly when the local table is
  still as at first, or no row a chunk loaded into it matches the rules and only rows to preserve
  were put back. `PutBackExact` and `RestoredExact` carry this through any number of further runs
  to the contents at the end. `ImportResult` shows that it is harmless when all runs are sent the
  same data.
- When two chunks disagree on a key, which row stays depends on the workers
  (`LocalDb.ScheduleIndependent`).
- An empty list of source foreign keys means "none reported" to an import and "none exist" to a
  load (`KeyStore.ImportAndLoadKeysAgree`).
- The language specification says that a pool with `{unique()}` makes values for a UNIQUE column. Each
  writer counts from zero, and a table has a writer for each root query and one for each column and
  direction looked up in a level, so the values differ over a table exactly when one wrote all its rows
  (`Tsv.UniqueOverTable`); a root row and a fetched row get the same value (`Findings.UniqueTwice`).
- A frame of 2 GiB or more is misread, because its length and the chunk flag share a word
  (`Framing.FrameReceived`).

## Model

| member | source | states |
|---|---|---|
| RowKeys.CanonicalParse | crates/server/src/traversal.rs:1320-1338 | The canonical number parsers accept exactly the canonical decimal texts in range, and nothing else |
| RowKeys.CompactKeysEqual | crates/server/src/traversal.rs:1345-1365 | Two compact keys are equal exactly when the values are the same, numerically equal, or a number and its canonical text; or one is a float, date or time and the other a byte string that spells its serialization |
| RowKeys.NormalFormsEqual | crates/server/src/traversal.rs:1400-1415 | Two values of any type normalise alike exactly when they are the same value in that sense; two floats, dates or times only if identical |
| RowKeys.SerializePk | crates/server/src/traversal.rs:1419-1468 | The buffer filled by the loop is the serialization of the normalised key columns |
| RowKeys.UntagTagged | crates/server/src/traversal.rs:1419-1468 | One serialized value reads back, with the bytes after it untouched |
| RowKeys.SerializeInjective | crates/server/src/traversal.rs:1419-1468 | Lists of values (byte strings under 4 GiB) serialize alike only if they are equal: composite keys never collide |
| RowKeys.CompositeKeysEqual | crates/server/src/traversal.rs:1371-1388 | Composite keys are equal exactly when the normalised columns are |
| RowKeys.CompositeKeysIdentify | crates/server/src/traversal.rs:1371-1388 | Composite keys are equal exactly when the columns hold the same values, of whatever type |
| Rows.ProtocolsAgreeOnKey | crates/server/src/traversal.rs:1345-1388 | A row has the same key over the text and the binary protocol exactly when no key column holds a float, date or time, or a zero-filled integer whose text has zeros in front |
| Rows.RowsShareKey | crates/server/src/traversal.rs:1371-1388 | Two rows of a table share a key exactly when they hold the same in every column the primary key names, or in every column if there is none, and, over different protocols, none of those cells shows zeros in front |
| Rows.RowHasOneKey | crates/server/src/traversal.rs:1371-1388 | A row has one key over both protocols exactly when no column the primary key names holds a float, date or time, or shows zeros in front |
| Database.DedupeValues | crates/server/src/traversal.rs:1390-1397 | Deduplicating an `IN` list keeps the first value of each key, in order: the same set of keys, no key twice |
| Plan.ExpandExcludePatterns | crates/server/src/traversal.rs:145-175 | Fails exactly when some pattern does not compile; otherwise yields the listed tables and every table some pattern accepts |
| StaticWalk.Walk | crates/server/src/traversal.rs:196-265 | The stack walk computes exactly the least sets of statically reachable tables, with capability, and visits a table at most once for each capability |
| StaticWalk.ComputePotentialAggregateTables | crates/server/src/traversal.rs:185-267 | The potential tables are exactly those some aggregate can reach; it fails exactly on a malformed pattern |
| Closure.ReachedClosed | crates/server/src/traversal.rs:743-766 | The rows an aggregate reaches are closed under "reached rows pull in what they reference; root rows and rows reached backward also pull in what references them" |
| Closure.ReachedIsRootsAndFetched | crates/server/src/traversal.rs:624-883 | Nothing is reached but root rows and rows some lookup finds |
| References.JoinsAre | crates/server/src/traversal.rs:740-787 | Following a relation forward reads the referencing column of the row and asks for it in the referenced column of the referenced table; backward, the other way round; the column is the first of that name, and NULL asks for nothing |
| References.ReachedInSteps | crates/server/src/traversal.rs:624-883 | What an aggregate reaches is exactly what leads there step by step from its root rows: forward from any reached row, backward from root rows and rows found backward, into importable tables that are not full and not excluded by name or pattern |
| References.FetchedHasReason | crates/server/src/traversal.rs:624-883 | A row is fetched exactly when its table may be entered and a reached row references it, or it references a row that was a root row or found backward |
| References.TouchedHasReason | crates/server/src/traversal.rs:520-622 | A table is touched exactly when it is the root, or a reached row holds a value to look up in it and it is neither full nor left out by the aggregate; and queried exactly if it is not globally excluded either |
| References.LeftOutStaysOut | crates/server/src/traversal.rs:145-175 | A table the aggregate excludes by name, or that one of its patterns accepts, is never fetched from or queried, and touched only as its root |
| Emission.EmitRow | crates/server/src/traversal.rs:738-830 | A row is sent exactly when its key is new, after its table's schema, and the invariant that every announced table is open with the rows counted for it is kept |
| Emission.KeyGate | crates/server/src/traversal.rs:738-787 | With the global set of keys, each row has been sent once for each key it was met under, and no other row |
| Database.TypedIsSane | crates/server/src/traversal.rs:1371-1388 | On tables of NULLs, byte strings and integers, zero-filled or not, with a cell in each column and no two rows alike in every column of the primary key, a key belongs to one row, and lookups find the same rows over both protocols (assumed for cells that show zeros in front) |
| Emission.SendChunk | crates/server/src/traversal.rs:52-80 | Cutting a chunk changes neither the rows logged nor any other table's state, and a writer never holds 10,000 rows or 1 MiB between two rows |
| Traversal.VisitRow | crates/server/src/traversal.rs:738-787 | Passing a row through the two gates queues exactly the lookups it calls for, once, and emits it if new |
| Traversal.Coalesce | crates/server/src/traversal.rs:570-622 | Values queued for the next level are grouped by table, column and direction without losing or adding a lookup |
| Traversal.FetchBatches | crates/server/src/traversal.rs:694-860 | Running the lookups in batches finds the rows of one query over all values |
| Traversal.RunEntry | crates/server/src/traversal.rs:624-880 | One pending entry: every row found is expanded and emitted, and every lookup of the entry is then done |
| Traversal.LevelProgress | crates/server/src/traversal.rs:624-883 | A level that queues anything has closed at least one (row, direction) gate for good, so the levels end on cyclic graphs and data |
| Traversal.RunLevels | crates/server/src/traversal.rs:624-883 | The search ends with nothing pending, whatever order the entries of a level are taken in, keeping its invariant |
| Traversal.SearchCloses | crates/server/src/traversal.rs:409-883 | With every lookup done, the rows met form a closed pair of sets |
| Traversal.SearchResult | crates/server/src/traversal.rs:409-883 | The rows met are exactly the least closed pair, and the tables touched and queried exactly those its lookups name |
| Traversal.RunAggregate | crates/server/src/traversal.rs:409-883 | One aggregate adds exactly its root rows and the rows its closure fetches, and touches exactly the tables its lookups go to |
| Streaming.StreamFullTable | crates/server/src/traversal.rs:1472-1555 | A full copy is the table's schema, each of its rows once in chunks within the limits, and an end with the true count, also for an empty table |
| Streaming.RunAggregates | crates/server/src/traversal.rs:376-413 | Over all aggregates, the rows met and the tables touched are the unions; it fails exactly on a root that is not importable or a malformed pattern |
| Streaming.SendTableDones | crates/server/src/traversal.rs:886-900 | Every counted table is ended, in any order, with its count; a table without a row is ended unannounced |
| Schedule.LookupsAreStatic | crates/server/src/traversal.rs:185-267 | Every lookup the data can cause goes to a table the static walk recorded, with at least the lookup's backward capability |
| Schedule.TouchedIsPotential | crates/server/src/traversal.rs:1000-1066 | The static walk is sound: whatever the rows, each table the traversal touches is potential unless globally excluded |
| Schedule.FullIsPotentialOnlyAsRoot | crates/server/src/traversal.rs:216-263 | A full table is potential exactly as the root of some aggregate |
| Schedule.StreamAllTables | crates/server/src/traversal.rs:976-1270 | Classification and the four producers: fails exactly on an unacceptable plan, and otherwise each producer streams what its part promises |
| Guarantees.MetIsReached | crates/server/src/traversal.rs:376-413 | The rows the traversal meets are the union of the aggregates' closures |
| Guarantees.ReachedIsOwn | crates/server/src/traversal.rs:409-480 | An aggregate's closure does not depend on the other aggregates |
| Guarantees.OrderDoesNotMatter | crates/server/src/traversal.rs:376-413 | Permuting the plan's aggregates does not change which rows are met |
| Guarantees.OneProducer | crates/server/src/traversal.rs:1010-1066 | Main thread, workers, traversal and left-over pass stream disjoint sets of tables, unless an aggregate selects rows of an excluded root |
| Guarantees.EveryTableSent | crates/server/src/traversal.rs:1010-1066 | Outside aggregates-only mode every importable table the traversal did not touch is streamed by one of the others |
| Guarantees.ExcludedRootBreaks | crates/server/src/traversal.rs:1017-1040 | A root that is globally excluded and has selected rows is announced twice, in every interleaving |
| Guarantees.StreamPhase | crates/server/src/traversal.rs:886-927 | In every interleaving each table is announced, chunked and ended with its true count, or ended bare: exactly when it was queried and had no row |
| Guarantees.StreamWellFormed | crates/server/src/traversal.rs:886-927 | The whole stream is well formed exactly when no excluded root has rows and no queried table is without a row |
| Guarantees.StreamOrderly | crates/server/src/traversal.rs:886-927 | The client can read the whole stream exactly when no excluded root has rows |
| Guarantees.TypedRowsSent | crates/server/src/traversal.rs:738-787 | On such typed data the rows that arrive are exactly those some aggregate reaches or that are copied: twice exactly when the row is both a root row and a fetched row and a key cell shows zeros in front, and otherwise once |
| Guarantees.RowsSent | crates/server/src/traversal.rs:738-787 | The rows that arrive are exactly those met or copied; a row arrives at most once exactly when its key is the same over both protocols or it is not both a root row and a fetched row, and never more than twice |
| Guarantees.ReferencesArrive | crates/server/src/traversal.rs:520-531 | No dangling references: the row whose referenced column holds what a reached row's referencing column does arrives, exactly unless its table is full but not copied whole and the row is not itself a root row |
| Guarantees.ReferrersArrive | crates/server/src/traversal.rs:505-518 | So does each row that references a root row, or one found backward, by the columns the relation names |
| Guarantees.ArrivesInSteps | crates/server/src/traversal.rs:376-413 | The rows that arrive are exactly those of tables copied whole and those some aggregate reaches step by step |
| Guarantees.FullTarget | crates/server/src/traversal.rs:1010-1066 | A row of a full table arrives exactly when its table is copied whole or the row is selected as a root row |
| Guarantees.ForecastHolds | crates/server/src/traversal.rs:276-330 | Which tables the dry run lists, and for each forecast what the run then reports: excluded and full forecasts hold; a table forecast as aggregate is reported so exactly when the traversal touched it, and otherwise by its rows, or empty in aggregates-only mode |
| Streams.MergedAllPhase | crates/server/src/traversal.rs:1068-1230 | However producers interleave, a table of one producer reads as that producer sent it |
| Streams.MergedByLast | crates/server/src/traversal.rs:1142-1191 | Whichever producer sends next, the stream is an interleaving, and there are no others |
| Streams.PhaseMeans | crates/server/src/traversal.rs:886-900 | A table is well-formed in a stream exactly when its messages are one schema, chunks of 1 to 10,000 rows and an end with their sum; and ended bare exactly when they are one end with no rows |
| EndToEnd.AnnouncedIsSent | crates/server/src/traversal.rs:1010-1066 | Whatever the interleaving, the tables announced and ended are those some producer owns, and those ended without a schema are those looked up in vain |
| EndToEnd.SentIsReached | crates/server/src/traversal.rs:376-413 | Whatever the interleaving and the chunks, the rows of a table in the stream are those the plan reaches or copies |
| EndToEnd.RunDelivers | crates/server/src/traversal.rs:1068-1230 | As the client loads them, all runs of the server over the same source deliver the same tables, and no two chunks disagree |
| EndToEnd.ImportedIsReached | crates/client/src/protocol.rs:403-790 | Once an import finishes, each table the server sends holds exactly the rows the plan reaches, under the rows to preserve, and every other table, those looked up in vain included, is as it was, with the set blocks and after statements run on that in order, whatever the server's threads, the interruptions and the workers do |
| LocalDb.SameKeys | crates/client/src/loader.rs:362-397 | Whatever order chunks are loaded in, the table ends up with every key of every chunk |
| LocalDb.ScheduleIndependent | crates/client/src/loader.rs:362-397 | The table is the same for every order of the loads exactly when no two chunks disagree on a key |
| MessageLoop.Loop.DrainCompletedLoads | crates/client/src/protocol.rs:83-120 | Exactly the loads whose results arrived leave the pending list, in order; their inserted and dropped rows are added up; then complete tables are checkpointed |
| MessageLoop.Loop.FinalizeCompletedTables | crates/client/src/protocol.rs:139-176 | Exactly the deferred tables with no pending load are checkpointed with their counts, and it fails exactly when one is already in the checkpoint |
| MessageLoop.DrainIsSteps | crates/client/src/protocol.rs:83-176 | One call of the drain is a Drain step, a Finalize step for each complete table and the end of the drain, in the import machine |
| ImportSteps.StepKeeps | crates/client/src/protocol.rs:275-790 | Every step of the loop, of a worker and of a crash keeps the import invariant |
| ImportSteps.StartKeeps | crates/client/src/import.rs:174-225 | Starting, resuming or cleaning keeps it too |
| ImportSafety.CheckpointedIsComplete | crates/client/src/checkpoint.rs:56-93 | At every moment of every history a checkpointed table holds exactly the chunks of the run that completed it, each once, and is recorded with the row count that run was told; or, ended without a schema, what it held before that run, with a count of zero |
| ImportSafety.StreamedIsComplete | crates/client/src/protocol.rs:700-790 | A run past its loads left every streamed table complete, from this run's chunks or untouched from the run that completed it, and checkpointed, with the count its end told |
| ImportSafety.BareIsLeftAlone | crates/client/src/protocol.rs:604-652 | A table whose end came without a schema is checkpointed and holds the local rows it held when the run started |
| ImportSafety.StoppedAnywhere | crates/client/src/load.rs:257-366 | Wherever a run or a load stops, tables it did not announce are as they were, and those it created hold some of the chunks it was sent, each at most once |
| ImportSafety.CreatedBeforeLoaded | crates/client/src/protocol.rs:515-602 | No chunk is queued before its table's one CREATE has finished, and its table is there |
| ImportSafety.LoadKnowsOpen | crates/client/src/load.rs:275-340 | A load takes chunks of a table exactly between its record and its end |
| ImportSafety.JobsAdvance | crates/client/src/loader.rs:122-198 | A job the loop may wait for is queued, running or finished, so until it finishes a worker can act |
| ImportSafety.InFlight | crates/client/src/protocol.rs:545-575 | At most 100 chunks are in flight whenever a message is read, and never more than 101 |
| ImportSafety.NeverStuck | crates/client/src/protocol.rs:403-790 | Unless a checkpointed table is ended without a schema, a run that has not ended can take a step exactly unless rows are backed up for tables that are gone; its stream does not announce those, or it passed them over |
| ImportSafety.StepDescends | crates/client/src/protocol.rs:403-790 | Every step other than a crash lowers what is left to do |
| ImportSafety.EveryRunEnds | crates/client/src/protocol.rs:403-790 | A crash-free run, however its workers are scheduled, finishes or stops at a backup whose table is gone exactly when no table in its checkpoint at the start is ended by its stream without a schema |
| ImportSafety.ResumeNeverEnds | crates/client/src/checkpoint.rs:81-88 | A resumed run that is sent the end of a checkpointed table without its schema never reaches the restore |
| ImportPreserve.KeptIsSettled | crates/client/src/checkpoint.rs:100-162 | The rows to preserve are settled when an import is first started or restarted with `--clean`; no step and no resumed run changes them |
| ImportPreserve.StartGivesUpNothing | crates/client/src/import.rs:174-225 | Only `--clean` gives up backed-up rows and checkpointed tables; where there are any, another start must be a resume under the same rules, and preserves the same rows |
| ImportPreserve.PreservedRowsSurvive | crates/client/src/protocol.rs:759-786 | Until set blocks run, every row to preserve is in its table or its backup at every moment of every history, and in its table once the restore is over |
| ImportPreserve.LocalRowSurvives | crates/client/src/checkpoint.rs:100-162 | Row by row: a local row that was there at the start and that the rules say to keep is, as it was, in its table or its backup at every moment, and in its table after the restore |
| ImportBackups.BackupExact | crates/client/src/checkpoint.rs:100-162 | At every moment of every history, what a run backs up of a table is exactly the rows to preserve if and only if the local table is as at first, or no row a chunk loaded into it matches the rules and only rows to preserve were put back into it |
| ImportBackups.PutBackExact | crates/client/src/checkpoint.rs:165-216 | Over any history, what was or will be put back is exactly the rows to preserve if and only if no run has backed up a row an earlier one had loaded |
| ImportBackups.RestoredExact | crates/client/src/protocol.rs:759-786 | After the restore, a table the import created holds its chunks under exactly the rows to preserve if and only if that never happened, or every such row is also in its chunks |
| ImportResult.BackupWithin | crates/client/src/checkpoint.rs:100-162 | When all runs are sent the same data, what a run backs up are rows to preserve or rows of that data |
| ImportResult.ImportLeaves | crates/client/src/protocol.rs:435-790 | An import interrupted and resumed any number of times leaves each streamed table with exactly its rows under the rows to preserve, other tables as they were, and has run each set block and after statement once, in order |
| ImportResult.ImportLeavesRow | crates/client/src/protocol.rs:435-790 | Row by row: a streamed table ends with the local rows to keep as they were, and under every other key the row it was sent or none; any other table is as it was |
| ImportResult.LiveAndLoadAgree | crates/client/src/load.rs:209-391 | A live import and a load that are sent the same data end with the same tables, whatever each one's chunks, interruptions, workers and schedule |
| ImportFindings.ImportedRowPreserved | crates/client/src/checkpoint.rs:100-122 | A history in which a resumed import finishes with a row in the table that its interrupted run had loaded, though it was sent another and nothing was to be preserved |
| ImportFindings.SameStreamNeverEnds | crates/client/src/checkpoint.rs:81-88 | A run that checkpoints a table ended without a schema and dies, resumed on the same stream, never ends |
| ForeignKeys.DdlRecreates | crates/client/src/foreign_keys.rs:36-60 | A saved statement recreates exactly the key it was built from, whatever backticks its names contain |
| ForeignKeys.SourceDdlRecreates | crates/client/src/foreign_keys.rs:239-257 | The statement run or printed for a key of the source makes exactly that key, to a table of the schema it is run in |
| KeyStore.LocalSchema.PreserveAndDrop | crates/client/src/foreign_keys.rs:164-192 | The capture, merge, save and drop loops: done, or cut after any statement, at a point of the specified sequence |
| KeyStore.LocalSchema.Restore | crates/client/src/foreign_keys.rs:197-228 | Each saved statement is run once; keys MySQL refuses are printed; the store is dropped last |
| KeyStore.PreservingKnows | crates/client/src/foreign_keys.rs:164-192 | Saving and dropping lose no key, wherever they stop: current definitions win over saved ones |
| KeyStore.RestoringKnows | crates/client/src/foreign_keys.rs:197-222 | Restoring loses no key while the store is there, wherever it stops |
| KeyStore.KeysSurvive | crates/client/src/foreign_keys.rs:106-228 | Over any sequence of runs, restoring or applying source keys, each interrupted anywhere: every key of the first schema or store is in one of them with its definition, or has been printed; or the same holds of a source key of that name that a run applied; or a run has finished on a source list |
| KeyStore.SourceLeaves | crates/client/src/foreign_keys.rs:264-301 | A run that finishes on a source list leaves exactly the source's keys that are not refused, each as the source has it or printed, and nothing saved |
| KeyStore.KeysSurviveSince | crates/client/src/foreign_keys.rs:106-301 | The same account from any run on: every key known then, as after a run that finished on a source list, is there, printed, or replaced by a source key a later run applied, unless a later run finished on a source list |
| KeyStore.KeysComeBack | crates/client/src/foreign_keys.rs:106-228 | After any number of interrupted runs, one that finishes by restoring with nothing refused leaves exactly the original keys, under the source keys the interrupted runs had applied, and no store |
| KeyStore.LocalSchema.ApplySource | crates/client/src/foreign_keys.rs:264-301 | Source keys are added in order, those whose name is taken or refused are printed, and the store is discarded last; cut after any statement, at a point of that sequence |
| KeyStore.LocalSchema.Finish | crates/client/src/import.rs:297-302 | A run ends by restoring when it has no list, or, for an import, an empty one, and by applying the source's keys otherwise; it needs one statement for each key and one for the store |
| KeyStore.LocalSchema.RunOnce | crates/client/src/load.rs:128-153 | One run, cut after any statement or finished: keys preserved and dropped, then restored or replaced; it is one of the runs the theorems about sequences of runs speak of, and when it finishes, ends as said below |
| KeyStore.FinishedLeaves | crates/client/src/load.rs:139-153 | With a list of the source's keys the schema ends with exactly those not refused, each with its first definition; without, with exactly the keys of schema and store that are not refused, as they were; and nothing stays saved |
| KeyStore.FinishedPrints | crates/client/src/foreign_keys.rs:197-301 | Every key that did not make it has been printed |
| KeyStore.AppliedHolds | crates/client/src/foreign_keys.rs:264-301 | Applying source keys keeps every key there is, adds exactly those not refused, and gives a repeated name its first definition |
| KeyStore.ImportAndLoadKeysAgree | crates/client/src/import.rs:297-302 | Whatever MySQL refuses, import and load treat the same list of source keys alike exactly when it is not empty, or every key to restore is refused and already printed |
| Dump.Source.ReadFull | crates/client/src/dump.rs:303-317 | However the source splits its bytes, the buffer is filled, or the end is told apart from a cut |
| Dump.Source.NextFrom | crates/client/src/dump.rs:259-287 | Reads exactly the next record, a clean end only with no bytes pending, or an error |
| Dump.Source.Load | crates/client/src/load.rs:257-366 | Over any such source, loading yields what the bytes say |
| Dump.DumpLoads | crates/client/src/dump.rs:109-221 | A finished dump loads to exactly its records, in order |
| Dump.TruncatedDumpFails | crates/client/src/load.rs:359-366 | No strict prefix of a dump loads, wherever it is cut and whatever the reader's limit |
| Dump.CutReadsPrefix | crates/client/src/load.rs:257-366 | Before it fails, the load of a cut dump has acted on its first records and nothing else |
| Export.DumpWriter.StreamToDump | crates/client/src/export.rs:150-210 | The file holds the manifest if there are rules, one record for each message, the statements if any, the keys and the terminator; the terminator is written only when every message was |
| Export.SameStream | crates/client/src/dump.rs:155-175 | A dump's chunks decompress to what the live import decompresses, whatever compression was negotiated |
| Export.DefinitionsCarried | crates/client/src/export.rs:150-210 | A dump holds every table's definition as the server sent it, in order |
| Export.TakeFrom | crates/client/src/load.rs:275-340 | Loading the records of an orderly stream meets no chunk of an unknown table and announces every table under the rules in force |
| Export.ExportReplays | crates/client/src/export.rs:150-210 | A load of an export is given the live stream, every table under the plan's preserve rules, the plan's statements and the source's keys |
| Export.DumpCarriesStream | crates/client/src/load.rs:257-391 | A prefix of an export loads exactly when it is the whole file, and then carries the live stream, the preserve rules, the statements and the source's keys |
| Export.LoadedAsLive | crates/client/src/load.rs:209-391 | Loading a dump, with rules and statements taken from the file, and importing the same messages live under the plan leave the same tables, preserved rows and statements included |
| Export.KeysAsLive | crates/client/src/load.rs:139-153 | A load ends with exactly the keys the file lists that are not refused, each with its first definition; a live import ends the same exactly when the source has keys or there was nothing to restore |
| Framing.MessageWriter.EncodeIntoBuf | crates/protocol/src/framing.rs:183-197 | The patched buffer is the old one and the message's frame |
| Framing.MessageWriter.WritePreencoded | crates/protocol/src/framing.rs:235-250 | Written and buffered bytes together grow by the frame, and the buffer stays within its capacity |
| Framing.MessageWriter.Run | crates/protocol/src/framing.rs:200-257 | However writes, pre-encoded chunks and flushes are mixed, what was written and buffered is the frames in order; after a flush all of it has been handed on |
| Framing.FrameReceived | crates/client/src/protocol.rs:884-916 | A frame is read back, and nothing after it touched, exactly when its payload is under 2 GiB and within the receiver's limit |
| Framing.AllReceived | crates/client/src/protocol.rs:884-916 | Repeated receive returns the messages sent, in order |
| Framing.Unpacked | crates/client/src/loader.rs:459-480 | A payload comes back exactly unless it was compressed and is 4 GiB or longer |
| Tsv.TsvWriter.EscapeTsvBytes | crates/server/src/mysql.rs:550-572 | Copying clean stretches whole gives the same bytes as escaping byte by byte |
| Tsv.TsvWriter.WriteRow | crates/server/src/tsv.rs:139-207 | A row is appended as its fields, joined by tabs and ended by a newline, and the unique counter advances by the unique fields |
| Tsv.TsvWriter.TakeEncodedChunk | crates/server/src/tsv.rs:216-265 | The frame taken is the chunk's, compressed or not, and the writer starts afresh |
| Tsv.EscapedWhole | crates/server/src/mysql.rs:550-572 | Escaped bytes are taken as one field, unescape to the same bytes, and are never read as NULL |
| Tsv.ReplacedFirst | crates/server/src/tsv.rs:173-188 | The first occurrence of the sentinel is replaced, and the rest treated the same; `Tsv.ReplacedNone`: where there is none, nothing changes |
| Tsv.UniqueText | crates/server/src/tsv.rs:173-188 | A pool value that holds `{unique()}` once is written with the writer's counter in its place |
| Tsv.UniqueFieldsDiffer | crates/server/src/tsv.rs:173-188 | In what is loaded of a chunk, values with the sentinel in the same place differ from row to row, and from one such column to another |
| Tsv.LaterFieldsDiffer | crates/server/src/tsv.rs:173-188 | They differ from those of every later chunk of the same writer too |
| Tsv.UniqueOverTable | crates/server/src/tsv.rs:117-135 | Over all writers of a table the values differ exactly when one writer wrote all of its rows |
| Tsv.FieldReads | crates/server/src/tsv.rs:139-207 | A field is taken whole and read as what its cell was meant to be; NULL and text are never confused |
| Tsv.RowsReadBack | crates/client/src/loader.rs:336-359 | `LOAD DATA` reads the written text as the same rows, each with every column, each field its cell, whatever bytes the cells hold |
| Tsv.ValueArrives | crates/client/src/loader.rs:336-359 | NULLs, integers and byte strings arrive in text, binary (through hex) and number columns as they were |
| BytePath.WriteChunk | crates/server/src/traversal.rs:52-80 | Writing a chunk's rows one by one and framing them gives the frame of the chunk's text |
| BytePath.Serve | crates/server/src/traversal.rs:1150-1191 | The writer loop puts exactly the stream's frames on the connection, in order, and leaves nothing in its buffer |
| BytePath.CellArrives | crates/client/src/loader.rs:336-359 | A NULL, integer (zero-filled or not) or byte string loads as what it is, whichever protocol the server read it over |
| BytePath.TextArrives | crates/client/src/loader.rs:336-359 | A chunk's text is split and loaded as exactly the chunk's rows, whichever protocol brought each |
| BytePath.StreamArrives | crates/client/src/protocol.rs:884-916 | What the client reads from the server's bytes (received, decompressed, split, loaded) is the stream the server sent, down to the rows stored, and nothing after it is touched |
| BytePath.BytesAreServed | crates/client/src/protocol.rs:403-790 | A stream read from the bytes of a server run is one `EndToEnd.ImportedIsReached` speaks of |
| Tsv.AnonymizedHides | crates/server/src/tsv.rs:146-190 | What is written for an anonymized column does not depend on the value, and a faker column holds a value of its pool |
| Tsv.TextHides | crates/server/src/tsv.rs:139-207 | Row lists that differ only in anonymized columns are written as the same text |
| ExprParser.Parser.BinaryLevel | crates/parser/src/parser.rs:805-818 | The loop over one precedence level reads what the specification reads, and leaves the cursor after it |
| ExprParser.Parser.PrimaryExpr | crates/parser/src/parser.rs:885-949 | Variables, literals, `unique()` and parentheses, with keywords as names only in interpolations |
| ExprParser.Parser.ParseAll | crates/parser/src/parser.rs:24-37 | The parser accepts a token list exactly when the specification does, with the same expression |
| ExprParser.AcceptsGrammar | GRAMMAR.md:337-364 | A token list parses to an expression exactly when some derivation in the grammar, with its operators nonterminal by nonterminal, yields those tokens and means that expression |
| ExprParser.LevelComplete | GRAMMAR.md:337-364 | Every derivation is read back with its meaning, up to its end |
| ExprParser.Unambiguous | GRAMMAR.md:337-364 | The tokens settle the meaning |
| ExprParser.Precedence | GRAMMAR.md:366-377 | Of two operators between three primary expressions, the second takes the middle one exactly when the documented table puts it above the first; otherwise they group to the left |
| ExprParser.PrefixPrecedence | GRAMMAR.md:366-377 | `!` and `-` before a primary expression apply before any binary operator |
| ExprParser.PrefixesNest | GRAMMAR.md:366-377 | Prefixes apply from the right |
| ExprParser.PrintParses | GRAMMAR.md:366-377 | Printing an expression with parentheses only where precedence or left associativity needs them, and parsing that, gives it back |
| ExprParser.PrintShortest | GRAMMAR.md:366-377 | No derivation of an expression is shorter than that printing |
| ExprParser.RoundTrip | crates/parser/src/parser.rs:801-950 | Whatever was parsed, its printing parses to the same expression and has no more tokens |
| Findings.DateKeySentTwice | crates/server/src/traversal.rs:1345-1388 | A one-row database with a date key whose row is sent twice in every interleaving |
| Findings.ZeroFilledKeySentTwice | crates/server/src/traversal.rs:1345-1388 | A one-row database with a zero-filled integer key whose row is sent twice in every interleaving |
| Findings.ExcludedRootAnnouncedTwice | crates/server/src/traversal.rs:1017-1040 | A plan that excludes its root table, with a row: the table is announced by two producers |
| Findings.EmptyTableNotAnnounced | crates/server/src/traversal.rs:886-900 | A table that is looked up without a match is ended but never announced |
| Findings.FullRootNotCopied | crates/server/src/traversal.rs:1010-1066 | A full table that is also a root whose query selects nothing is not copied |
| Findings.UniqueTwice | crates/server/src/traversal.rs:682-683 | A row of the root query and a row found by foreign key are written with the same unique value |

## Left out

- SSH, process start, deployment, handshakes, HTTP, timeouts and read-ahead: the transport is an in-order stream of messages or bytes.
- zstd, bincode, regular expressions and the lexer: a codec that decodes what it encoded, an arbitrary predicate on names, token lists.
- MySQL itself: tables that can be dropped, created, appended to by chunks, replaced into by key, and looked up; a statement either runs whole or not at all, and the source does not change during a run.
- Floats, dates and times are bit patterns with an arbitrary text; nothing is claimed about their rendering beyond its being free of tabs, newlines and backslashes (`Tsv.PlainRender`).
- Identical rows of a table without a primary key count as one row, and secondary unique keys of the local tables are not modelled.
- The client without a loader pool: loading on the main connection is the one-worker schedule of the machine, with nothing pending.
- Errors that a worker, MySQL or the disk reports: each ends the run like a crash at that point.
- An empty backup table is made and dropped in one go: a crash between the two statements is not modelled. A restore's REPLACE and its DROP are two steps.
- ImportMachine.CanStart: a resume under other preserve rules than those of the interrupted run, which the client accepts, is not modelled.
- Old workers that outlive a crashed client: a new run starts once nothing of the old one is running.
- `Streams.Message`: column definitions, indexes and options travel with the schema unchanged and are not modelled; `Export` carries them as one text.
- Random faker choice is an argument of `Tsv.TsvWriter.WriteRow`.
- Later defaults of imported variables, the statement grammar, string interpolation and error messages.
- Metrics, progress bars, reports, command line and configuration.
- EndToEnd.ImportedIsReached: the local primary key is assumed to tell the source's rows apart. Nothing is said of an import that died between two set blocks.
- BytePath.StreamArrives: for tables without anonymized columns, floats, dates and times, fewer than 65,536 rows to a chunk and payloads within the receiver's limit; `Tsv.RowsReadBack` reads anonymized columns back as well.
- ImportSafety.EveryRunEnds: table names are compared exactly. The checkpoint's key is a `VARCHAR(255)` under the database's default collation, which usually ignores case, so a run that is sent `Orders` and `orders` is refused at the second; and a quote in a name breaks the statement that records it. Neither is modelled.
- ImportSafety.EveryRunEnds: a run that dies is not counted as ending, and a server that stops sending is not modelled.
- ImportResult.ImportLeaves: says nothing of an import that died between two set blocks and was resumed, which runs the first of them again.
- ImportSafety.StreamedIsComplete: says nothing of the contents of a table after set blocks or after statements have run.
- Traversal.RunAggregate: a cell's two images must find the same rows when looked up (`Database.MatchStable`), which holds for NULLs, byte strings and integers without zeros in front, and is assumed of other cells.
- KeyStore.KeysSurvive: keys added or changed by other connections between runs, and tables dropped while they still have keys.
