/** What an import leaves behind. When every run is sent the same data, in whatever chunks and
    order, the tables at the end are one function of that data, the preserve rules and the
    tables there were before: it does not matter how often the import was interrupted, how the
    workers were scheduled, or whether the data came live or from a dump. */
module ImportResult {
  import opened Bytes
  import opened Streams
  import opened LocalDb
  import opened ImportMachine
  import opened ImportInvariants
  import opened ImportSteps
  import opened ImportSafety
  import opened ImportPreserve

  type TableData = map<string, Rows>

  /** The chunks hold these rows, and no two of them disagree on a key. */
  ghost predicate Gives(chunks: seq<Rows>, rows: Rows) { Agreeing(chunks) && Loaded(chunks) == rows }

  /** The stream announces exactly these tables, with these rows. */
  ghost predicate Delivers(stream: seq<Msg>, data: TableData) {
    forall t :: (t in data <==> PhaseOf(stream, t).Ended?) && (t in data ==> Gives(ChunksOf(stream, t), data[t]))
  }

  ghost predicate AllDeliver(actions: seq<Action>, data: TableData) {
    forall i :: 0 <= i < |actions| && actions[i].Start? ==> Delivers(actions[i].setup.stream, data)
  }

  /** A streamed table ends up with its data, under the rows to preserve. */
  ghost function Want(s: State, data: TableData, t: string): Rows
    requires t in data
  {
    data[t] + Kept(s, t)
  }

  ghost function Expected(s: State, data: TableData): TableData {
    map t | t in data.Keys + s.base.Keys :: if t in data then Want(s, data, t) else Content(s.base[t])
  }

  /** The first `n` set blocks and after statements, run in order. */
  ghost function Posts(post: seq<TableData -> TableData>, n: nat, tables: TableData): TableData
    requires n <= |post|
  {
    if n == 0 then tables else post[n - 1](Posts(post, n - 1, tables))
  }

  // ------------------------------------------------------------------
  // Invariants
  // ------------------------------------------------------------------

  ghost predicate Held(table: Table, rows: Rows, want: Rows) {
    (forall i :: 0 <= i < |table.loads| ==> Within(table.loads[i], rows)) && Within(table.restored, want)
  }

  /** The table has been created anew for this import. */
  ghost predicate Built(s: State, t: string) {
    t in Completed(s.checkpoint) || (t in s.c.created && s.c.created[t] in s.c.finished)
  }

  ghost predicate AsBefore(s: State, t: string) { t in s.base && t in s.tables && s.tables[t] == s.base[t] }

  ghost predicate Streamed(s: State, data: TableData, t: string)
    requires t in data
  {
    && (t in s.backups ==> Within(s.backups[t], Want(s, data, t)))
    && (t in s.tables ==> Held(s.tables[t], data[t], Want(s, data, t)) || (!Built(s, t) && AsBefore(s, t)))
    && (t in Completed(s.checkpoint) ==> t in s.done && s.done[t].Rebuilt? && Gives(s.done[t].chunks, data[t]))
  }

  /** Nothing happens to a table that is not announced. */
  ghost predicate Unstreamed(s: State, t: string) {
    && t !in s.backups && t !in s.c.created
    && (t in s.tables || t in s.base ==> AsBefore(s, t))
  }

  ghost predicate DataOk(s: State, data: TableData, t: string) {
    if t in data then Streamed(s, data, t) else Unstreamed(s, t)
  }

  ghost predicate JobsOk(c: Client, data: TableData) {
    forall j :: 0 <= j < |c.jobs| && c.jobs[j].LoadData? ==>
      c.jobs[j].table in data && Within(c.jobs[j].data, data[c.jobs[j].table])
  }

  ghost predicate PostOk(s: State, data: TableData) {
    && (s.c.at.Posting? && !s.edited ==>
          s.c.at.next <= |s.setup.post| && Contents(s.tables) == Posts(s.setup.post, s.c.at.next, Expected(s, data)))
    && (s.c.at.Finished? && !s.edited ==>
          Contents(s.tables) == Posts(s.setup.post, |s.setup.post|, Expected(s, data)))
  }

  ghost predicate Waiting(s: State) { s.c == NewClient({}).(at := Dead) }

  ghost predicate ResultOk(s: State, data: TableData) {
    && (Waiting(s) || Delivers(s.setup.stream, data))
    && JobsOk(s.c, data) && PostOk(s, data)
    && (Edited(s) || forall t :: DataOk(s, data, t))
  }

  // ------------------------------------------------------------------
  // Steps
  // ------------------------------------------------------------------

  ghost predicate SameData(s: State, s': State) {
    && s'.base == s.base && s'.setup == s.setup && s'.backups == s.backups && s'.tables == s.tables
    && s'.c.created == s.c.created && s'.c.finished == s.c.finished
    && s'.checkpoint == s.checkpoint && s'.done == s.done
  }

  lemma DataFrame(s: State, s': State, data: TableData, t: string)
    requires DataOk(s, data, t) && SameData(s, s')
    ensures DataOk(s', data, t)
  {
    hide Held, Gives, Within, Content, Matching;
  }

  lemma DropData(s: State, j: nat, data: TableData, t: string)
    requires PoolOk(s.c) && DataOk(s, data, t) && CanDrop(s, j)
    ensures DataOk(DroppedTable(s, j), data, t)
  {
    hide Held, Gives, Within, Content, Matching;
  }

  lemma CreateData(s: State, j: nat, data: TableData, t: string)
    requires PoolOk(s.c) && DataOk(s, data, t) && CanComplete(s, j) && s.c.jobs[j].CreateTable?
    ensures DataOk(CompletedJob(s, j), data, t)
  {
    hide Gives, Content, Matching, Loaded;
  }

  lemma LoadDataOk(s: State, j: nat, data: TableData, t: string)
    requires PoolOk(s.c) && DataOk(s, data, t) && CanComplete(s, j) && s.c.jobs[j].LoadData? && JobsOk(s.c, data)
    ensures DataOk(CompletedJob(s, j), data, t)
  {
    hide Gives, Content, Matching, Loaded, Within;
  }

  lemma FinalizeData(s: State, u: string, data: TableData, t: string)
    requires DataOk(s, data, t) && DataOk(s, data, u) && CanFinalize(s, u) && Delivers(s.setup.stream, data)
    requires u in data ==> u in s.c.created && s.c.created[u] in s.c.finished
    ensures DataOk(Finalized(s, u), data, t)
  {
    var s' := Finalized(s, u);
    hide Gives, Content, Matching, Kept, Within, Held, ChunksOf, PhaseOf, Ready;
    SameKeptRows(s, s', t);
  }

  lemma AnnounceData(s: State, u: string, data: TableData, t: string)
    requires PoolOk(s.c) && DataOk(s, data, t) && KeptOk(s, t) && u in data && u !in s.c.created
             && u !in Completed(s.checkpoint)
    ensures DataOk(Announced(s, u), data, t)
  {
    hide Gives, Held, Kept, Within, Matching, Content;
    SameKeptRows(s, Announced(s, u), t);
    if t == u {
      if t in s.setup.rules.tables && t !in s.backups && t in s.tables { BackupWithin(s, data, t); }
    } else {
      assert t in Announced(s, u).backups <==> t in s.backups;
    }
  }

  /** What a run backs up are the rows to preserve, and perhaps rows an interrupted run loaded. */
  lemma BackupWithin(s: State, data: TableData, t: string)
    requires t in data && Streamed(s, data, t) && KeptOk(s, t)
    requires t in s.setup.rules.tables && t !in s.backups && t in s.tables
    ensures Within(Matching(s.setup.rules, t, Content(s.tables[t])), Want(s, data, t))
  {
    if Held(s.tables[t], data[t], Want(s, data, t)) {
      LoadedWithin(s.tables[t].loads, data[t]);
    }
  }

  lemma {:induction false} LoadedWithin(loads: seq<Rows>, rows: Rows)
    requires forall i :: 0 <= i < |loads| ==> Within(loads[i], rows)
    ensures Within(Loaded(loads), rows)
  {
    if loads != [] { LoadedWithin(loads[..|loads| - 1], rows); }
  }

  lemma ReplaceData(s: State, u: string, data: TableData, t: string)
    requires DataOk(s, data, t) && DataOk(s, data, u) && CanReplace(s, u) && (u in data ==> Built(s, u))
    ensures DataOk(ReplacedRows(s, u), data, t)
  {
    hide Gives, Loaded, Content, Matching;
  }

  lemma FewerBackups(s: State, s': State, data: TableData, t: string)
    requires DataOk(s, data, t) && SameData(s, s'.(backups := s.backups))
    requires forall u :: u in s'.backups ==> u in s.backups && s'.backups[u] == s.backups[u]
    ensures DataOk(s', data, t)
  {
    hide Held, Gives, Within, Content, Matching;
  }

  lemma CleanedData(s: State, data: TableData, t: string)
    requires DataOk(s, data, t)
    requires t in data && t in s.tables ==> Built(s, t)
    ensures DataOk(Cleaned(s), data, t)
  {
    hide Held, Gives, Within, Content, Matching;
  }

  lemma StartData(s: State, setup: Setup, resume: bool, clean: bool, data: TableData, t: string)
    requires CanStart(s, setup, resume, clean) && (clean || !HasPreviousState(s) || DataOk(s, data, t))
    ensures DataOk(Started(s, setup, clean), data, t)
  {
    hide Held, Gives, Within, Content, Matching;
    var s' := Started(s, setup, clean);
    if clean || !HasPreviousState(s) {
      assert s'.base == s'.tables && s'.backups == map[] && Completed(s'.checkpoint) == {};
    } else {
      assert Completed(s'.checkpoint) == Completed(s.checkpoint);
      SameKeptRows(s, s', t);
    }
  }

  // ------------------------------------------------------------------
  // Messages
  // ------------------------------------------------------------------

  lemma {:induction false} SomeChunk(ms: seq<Msg>, i: nat)
    requires i < |ms| && ms[i].Data?
    ensures ms[i].data in ChunksOf(ms, ms[i].table)
  {
    if i < |ms| - 1 {
      var init := ms[..|ms| - 1];
      assert init[i] == ms[i];
      SomeChunk(init, i);
    }
  }

  /** A table with a schema or a chunk is not one that was never announced. */
  lemma {:induction false} AnnouncedStays(ms: seq<Msg>, i: nat)
    requires i < |ms| && !ms[i].TableDone?
    ensures Begun(PhaseOf(ms, ms[i].table)) || PhaseOf(ms, ms[i].table).Broken?
  {
    if i < |ms| - 1 {
      var init := ms[..|ms| - 1];
      assert init[i] == ms[i];
      AnnouncedStays(init, i);
    }
  }

  lemma NextInData(s: State, data: TableData)
    requires Orderly(s.setup.stream) && s.c.pos < |s.setup.stream| && Delivers(s.setup.stream, data)
    ensures !Next(s).TableDone? ==> Next(s).table in data
    ensures Next(s).Data? ==> Within(Next(s).data, data[Next(s).table])
  {
    hide PhaseOf, ChunksOf;
    var t := Next(s).table;
    if !Next(s).TableDone? { AnnouncedStays(s.setup.stream, s.c.pos); }
    if Next(s).Data? {
      SomeChunk(s.setup.stream, s.c.pos);
      ChunkWithin(ChunksOf(s.setup.stream, t), data[t], Next(s).data);
    }
  }

  lemma ChunkWithin(chunks: seq<Rows>, rows: Rows, chunk: Rows)
    requires Gives(chunks, rows) && chunk in chunks
    ensures Within(chunk, rows)
  {
    var i :| 0 <= i < |chunks| && chunks[i] == chunk;
    forall k | k in chunk ensures k in rows && rows[k] == chunk[k] {
      LoadedKeys(chunks, k);
    }
  }

  // ------------------------------------------------------------------
  // Every step
  // ------------------------------------------------------------------

  /** Past its loads, a run has built every table it was sent. */
  lemma LateBuilt(s: State, data: TableData, t: string)
    requires Inv(s) && AfterLoads(s.c.at) && !s.c.at.Finished? && Delivers(s.setup.stream, data) && t in data
    ensures Built(s, t)
  {
    hide LoadsOf, LoadedOf, ChunksOf, PhaseOf, BoundOk, WaitsOk, Orderly, Gives, TableOk, CompleteOk;
    AllJobsFinished(s);
    CompletedHolds(s, t);
    assert Seen(s) == s.setup.stream;
  }

  lemma StepData(s: State, step: Step, data: TableData, t: string)
    requires Inv(s) && KeptAll(s) && ResultOk(s, data) && Enabled(s, step)
    requires Delivers(s.setup.stream, data) && !Edited(s) && !Edited(Apply(s, step))
    ensures DataOk(Apply(s, step), data, t)
  {
    assert DataOk(s, data, t) && KeptOk(s, t) && PoolOk(s.c) by {
      hide DataOk, KeptOk, PoolOk, WaitsOk, BoundOk, EndOk, PerTableOk, Orderly;
    }
    hide Inv, KeptAll, DataOk, PoolOk, KeptOk, Ready, ChunksOf, Drained, Received, Announced, ReplacedRows,
         DroppedTable, CompletedJob, Finalized, Delivers;
    match step
    case Receive => ReceiveData(s, data, t);
    case Replace(u) => ReplaceStep(s, u, data, t);
    case DropBackup => FewerBackups(s, Apply(s, step), data, t);
    case WorkerDrop(j) => DropData(s, j, data, t);
    case WorkerDone(j) => DoneData(s, j, data, t);
    case Finalize(u) => FinalizeStep(s, u, data, t);
    case Cleanup => CleanStep(s, data, t);
    case RunPost =>
    case _ => DataFrame(s, Apply(s, step), data, t);
  }

  lemma DoneData(s: State, j: nat, data: TableData, t: string)
    requires PoolOk(s.c) && DataOk(s, data, t) && CanComplete(s, j) && JobsOk(s.c, data)
    ensures DataOk(CompletedJob(s, j), data, t)
  {
    hide DataOk, PoolOk, JobsOk, CompletedJob;
    if s.c.jobs[j].CreateTable? { CreateData(s, j, data, t); } else { LoadDataOk(s, j, data, t); }
  }

  lemma FinalizeStep(s: State, u: string, data: TableData, t: string)
    requires Inv(s) && CanFinalize(s, u) && Delivers(s.setup.stream, data) && !Edited(s) && ResultOk(s, data)
    ensures DataOk(Finalized(s, u), data, t)
  {
    assert u in s.c.deferred;
    hide DataOk, Delivers, JobsOk, PostOk, Inv;
    if u in data { DeferredIsCreated(s, data, u); }
    FinalizeData(s, u, data, t);
  }

  /** A table that is sent is not ended without a schema. */
  lemma DeferredIsCreated(s: State, data: TableData, u: string)
    requires Inv(s) && u in s.c.deferred && Delivers(s.setup.stream, data) && u in data
    ensures u in s.c.created && s.c.created[u] in s.c.finished
  {
    hide LoadsOf, LoadedOf, ChunksOf, PhaseOf, BoundOk, WaitsOk, Gives, TableOk, CompleteOk, CheckpointOk, PoolOk;
    assert PerTableOk(s, u);
    GoodPrefix(s.setup.stream, s.c.pos, u);
  }

  lemma ReplaceStep(s: State, u: string, data: TableData, t: string)
    requires Inv(s) && CanReplace(s, u) && Delivers(s.setup.stream, data) && !Edited(s) && ResultOk(s, data)
    ensures DataOk(ReplacedRows(s, u), data, t)
  {
    hide DataOk, Delivers, JobsOk, PostOk, Inv, Built;
    if u in data { LateBuilt(s, data, u); }
    ReplaceData(s, u, data, t);
  }

  lemma CleanStep(s: State, data: TableData, t: string)
    requires Inv(s) && s.c.at.Posting? && Delivers(s.setup.stream, data) && DataOk(s, data, t)
    ensures DataOk(Cleaned(s), data, t)
  {
    hide DataOk, Delivers, Inv, Built;
    if t in data { LateBuilt(s, data, t); }
    CleanedData(s, data, t);
  }

  lemma ReceiveData(s: State, data: TableData, t: string)
    requires Inv(s) && KeptOk(s, t) && DataOk(s, data, t) && CanReceive(s) && Delivers(s.setup.stream, data)
    ensures DataOk(Received(s), data, t)
  {
    hide KeptOk, DataOk, BackedUp, DdlDone, Passed, Delivers, Inv;
    if s.c.pos < |s.setup.stream| && !Passed(s.c, Next(s)) && Next(s).Schema? {
      NextIsNew(s, data);
      AnnounceData(s, Next(s).table, data, t);
    } else {
      ReceiveFrame(s);
      DataFrame(s, Received(s), data, t);
    }
  }

  lemma NextIsNew(s: State, data: TableData)
    requires Inv(s) && CanReceive(s) && Delivers(s.setup.stream, data)
    requires s.c.pos < |s.setup.stream| && !Passed(s.c, Next(s)) && Next(s).Schema?
    ensures PoolOk(s.c) && Next(s).table in data && Next(s).table !in s.c.created
            && Next(s).table !in Completed(s.checkpoint)
  {
    hide Delivers, PoolOk, WaitsOk, Orderly, PhaseOf, ChunksOf, LoadsOf, ReadOk, CompleteOk, TableOk, BoundOk, EndOk;
    ActedTable(s);
    NextInData(s, data);
    CompletedHolds(s, Next(s).table);
  }

  lemma JobsStep(s: State, step: Step, data: TableData)
    requires Inv(s) && JobsOk(s.c, data) && Enabled(s, step) && Delivers(s.setup.stream, data)
    ensures JobsOk(Apply(s, step).c, data)
  {
    hide Inv, Delivers, JobsOk, CanReceive, CanDrain, CanFinalize, CanEndDrain, CanTake, CanDrop, CanComplete, Received,
         AfterPost, ChunksOf, Keep;
    match step
    case Receive => JobsReceive(s, data);
    case _ => JobsFrame(s.c, Apply(s, step).c, data);
  }

  lemma JobsFrame(c: Client, c': Client, data: TableData)
    requires JobsOk(c, data) && c'.jobs == c.jobs
    ensures JobsOk(c', data)
  {
    hide Within;
  }

  lemma JobsReceive(s: State, data: TableData)
    requires Inv(s) && JobsOk(s.c, data) && CanReceive(s) && Delivers(s.setup.stream, data)
    ensures JobsOk(Received(s).c, data)
  {
    hide JobsOk, Delivers, Received, CanReceive, Inv;
    if s.c.pos < |s.setup.stream| && !Passed(s.c, Next(s)) && !Next(s).TableDone? {
      StreamIsOrderly(s);
      NextInData(s, data);
      if Next(s).Schema? { JobsSchema(s, data); } else { JobsData(s, data); }
    } else {
      KeepsJobs(s);
      JobsFrame(s.c, Received(s).c, data);
    }
  }

  lemma StreamIsOrderly(s: State)
    requires Inv(s)
    ensures Orderly(s.setup.stream)
  {
    hide PerTableOk, PoolOk, WaitsOk, BoundOk, EndOk, Orderly;
  }

  lemma KeepsJobs(s: State)
    requires CanReceive(s) && (s.c.pos >= |s.setup.stream| || Passed(s.c, Next(s)) || Next(s).TableDone?)
    ensures Received(s).c.jobs == s.c.jobs
  {
    hide BackedUp, DdlDone, Passed, Announce, Submit;
  }

  lemma JobsSchema(s: State, data: TableData)
    requires CanReceive(s) && s.c.pos < |s.setup.stream| && !Passed(s.c, Next(s)) && Next(s).Schema?
             && JobsOk(s.c, data)
    ensures JobsOk(Received(s).c, data)
  {
    hide BackedUp, DdlDone, Passed, JobsOk;
    JobsAppend(s.c, Announce(s.c, Next(s).table), CreateTable(Next(s).table), data);
  }

  lemma JobsData(s: State, data: TableData)
    requires CanReceive(s) && s.c.pos < |s.setup.stream| && !Passed(s.c, Next(s)) && Next(s).Data? && JobsOk(s.c, data)
    requires Next(s).table in data && Within(Next(s).data, data[Next(s).table])
    ensures JobsOk(Received(s).c, data)
  {
    hide BackedUp, DdlDone, Passed, JobsOk, Within;
    JobsAppend(s.c, Submit(s.c, Next(s).table, Next(s).data), LoadData(Next(s).table, Next(s).data), data);
  }

  lemma JobsAppend(c: Client, c': Client, job: Job, data: TableData)
    requires JobsOk(c, data) && c'.jobs == c.jobs + [job]
    requires job.LoadData? ==> job.table in data && Within(job.data, data[job.table])
    ensures JobsOk(c', data)
  {
    hide Within;
  }

  // ------------------------------------------------------------------
  // Set blocks and after statements
  // ------------------------------------------------------------------

  lemma AfterPostContents(tables: map<string, Table>, f: TableData -> TableData)
    ensures Contents(AfterPost(tables, f)) == f(Contents(tables))
  {
    var rows := f(Contents(tables));
    forall t | t in rows ensures Content(AfterPost(tables, f)[t]) == rows[t] {
      assert Loaded([rows[t]][..0]) == map[];
    }
  }

  /** When the restore is over, the tables are as expected. */
  lemma RestoredAsExpected(s: State, data: TableData)
    requires Inv(s) && KeptAll(s) && !Edited(s) && Delivers(s.setup.stream, data) && forall t :: DataOk(s, data, t)
    requires s.c.at.Restoring? && s.backups == map[]
    ensures Contents(s.tables) == Expected(s, data)
  {
    hide Inv, KeptOk, DataOk, Content, Kept, Delivers;
    forall t
      ensures (t in s.tables <==> t in Expected(s, data))
              && (t in s.tables ==> Content(s.tables[t]) == Expected(s, data)[t])
    {
      assert KeptOk(s, t) && DataOk(s, data, t);
      if t in data { StreamedAsExpected(s, data, t); } else { UnstreamedAsExpected(s, data, t); }
    }
  }

  lemma UnstreamedAsExpected(s: State, data: TableData, t: string)
    requires DataOk(s, data, t) && t !in data
    ensures t in s.tables <==> t in s.base
    ensures t in s.tables ==> Content(s.tables[t]) == Content(s.base[t])
  {
    hide Content;
  }

  lemma StreamedAsExpected(s: State, data: TableData, t: string)
    requires Inv(s) && KeptOk(s, t) && DataOk(s, data, t) && !Edited(s) && Delivers(s.setup.stream, data) && t in data
    requires s.c.at.Restoring? && s.backups == map[]
    ensures t in s.tables && Content(s.tables[t]) == Want(s, data, t)
  {
    hide Inv, Kept, Held, PhaseOf, ChunksOf, LoadsOf, Loaded;
    StreamedFacts(s, t);
    LateBuilt(s, data, t);
    CompletedIsCheckpointed(s, t);
    var chunks := if t in s.c.completed then s.done[t].chunks else ChunksOf(s.setup.stream, t);
    SameTable(s.tables[t].loads, chunks);
    RestoredOver(s.tables[t], data[t], Kept(s, t));
  }

  lemma CompletedIsCheckpointed(s: State, t: string)
    requires Inv(s) && !s.c.at.Finished?
    ensures t in s.c.completed ==> t in Completed(s.checkpoint)
  {
    hide LoadsOf, LoadedOf, ChunksOf, PhaseOf, BoundOk, WaitsOk, Orderly, TableOk, CompleteOk, ReadOk, EndOk;
    assert PerTableOk(s, t);
  }

  lemma RestoredOver(table: Table, rows: Rows, kept: Rows)
    requires Loaded(table.loads) == rows && Held(table, rows, rows + kept)
    requires kept == map[] || Within(kept, Content(table))
    ensures Content(table) == rows + kept
  {
    hide Loaded;
    forall k
      ensures (k in Content(table) <==> k in rows + kept)
              && (k in rows + kept ==> Content(table)[k] == (rows + kept)[k])
    {
      if k in table.restored { assert (rows + kept)[k] == table.restored[k]; }
    }
  }

  lemma SameExpected(s: State, s': State, data: TableData)
    requires s'.base == s.base && s'.setup == s.setup
    ensures Expected(s', data) == Expected(s, data)
  {
    hide Content, Matching;
  }

  /** Only the set blocks and after statements, and the cleanup, follow the restore. */
  lemma WhereNext(s: State, step: Step)
    requires Inv(s) && Enabled(s, step)
    ensures Apply(s, step).c.at.Posting? ==> step.BeginPost? || step.RunPost?
    ensures Apply(s, step).c.at.Finished? ==> step.Cleanup?
  {
    hide Inv, CanFinalize, CanTake, CanDrop, CanComplete, Received, AfterPost, ChunksOf, Keep;
    if AfterLoads(s.c.at) { NoWorker(s, step); }
    match step
    case Receive => ReceivedAt(s);
    case Finalize(t) => FinalizesEarly(s, t);
    case _ =>
  }

  lemma ReceivedAt(s: State)
    requires CanReceive(s)
    ensures !Received(s).c.at.Posting? && !Received(s).c.at.Finished?
  {
    hide DdlDone, Passed, BackedUp, Announce, Submit, Defer, Forget;
    if s.c.pos < |s.setup.stream| { ReceivedReads(s, []); }
  }

  lemma FinalizesEarly(s: State, t: string)
    requires CanFinalize(s, t)
    ensures !s.c.at.Posting? && !s.c.at.Finished?
  {
    hide Ready;
  }

  lemma NoWorker(s: State, step: Step)
    requires Inv(s) && AfterLoads(s.c.at) && Enabled(s, step)
    ensures !WorkerStep(step)
  {
    hide PerTableOk, Orderly, BoundOk, WaitsOk, EndOk;
    AllJobsFinished(s);
    AllTaken(s.c);
  }

  lemma PostStep(s: State, step: Step, data: TableData)
    requires Inv(s) && KeptAll(s) && ResultOk(s, data) && Enabled(s, step) && Delivers(s.setup.stream, data)
    ensures PostOk(Apply(s, step), data)
  {
    WhereNext(s, step);
    hide KeptAll, JobsOk, Inv, Delivers, DataOk, Received, Finalized, Expected, Posts, AfterPost, Contents;
    match step
    case BeginPost => BeginPostOk(s, data);
    case RunPost => RunPostOk(s, data);
    case Cleanup => SameExpected(s, Cleaned(s), data);
    case _ =>
  }

  lemma BeginPostOk(s: State, data: TableData)
    requires Inv(s) && KeptAll(s) && ResultOk(s, data) && Delivers(s.setup.stream, data)
    requires s.c.at.Restoring? && s.backups == map[]
    ensures PostOk(s.(c := s.c.(at := Posting(0))), data)
  {
    hide KeptAll, JobsOk, Inv, Delivers, DataOk, Expected, Contents;
    EndsOrAbsent(s, []);
    SameExpected(s, s.(c := s.c.(at := Posting(0))), data);
    if !s.edited { RestoredAsExpected(s, data); }
  }

  lemma RunPostOk(s: State, data: TableData)
    requires PostOk(s, data) && s.c.at.Posting? && s.c.at.next < |s.setup.post|
    ensures PostOk(Posted(s), data)
  {
    hide Expected, AfterPost, Contents;
    SameExpected(s, Posted(s), data);
    AfterPostContents(s.tables, s.setup.post[s.c.at.next]);
  }

  // ------------------------------------------------------------------
  // Histories
  // ------------------------------------------------------------------

  lemma StepResult(s: State, step: Step, data: TableData)
    requires Inv(s) && KeptAll(s) && ResultOk(s, data) && Enabled(s, step)
    ensures ResultOk(Apply(s, step), data)
  {
    hide Inv, KeptAll, JobsOk, PostOk, DataOk, Delivers, Apply, Enabled;
    StaysEdited(s, step);
    if Delivers(s.setup.stream, data) {
      JobsStep(s, step, data);
      PostStep(s, step, data);
      if !Edited(Apply(s, step)) {
        forall t ensures DataOk(Apply(s, step), data, t) { StepData(s, step, data, t); }
      }
    } else {
      WaitingStays(s, step);
    }
  }

  /** Before the first run there is nothing to do. */
  lemma WaitingStays(s: State, step: Step)
    requires Waiting(s) && Enabled(s, step)
    ensures Apply(s, step) == s
  {
    hide Ready, ChunksOf, BackedUp, AfterPost;
  }

  lemma StartResult(s: State, setup: Setup, resume: bool, clean: bool, data: TableData)
    requires ResultOk(s, data) && CanStart(s, setup, resume, clean) && Delivers(setup.stream, data)
    ensures ResultOk(Started(s, setup, clean), data)
  {
    hide DataOk, Delivers;
    var s' := Started(s, setup, clean);
    if !Edited(s') {
      forall t ensures DataOk(s', data, t) { StartData(s, setup, resume, clean, data, t); }
    }
  }

  lemma {:induction false} HistoryResult(s: State, actions: seq<Action>, s': State, data: TableData)
    requires Inv(s) && KeptAll(s) && ResultOk(s, data) && History(s, actions, s')
    requires GoodStreams(actions) && AllDeliver(actions, data)
    ensures ResultOk(s', data)
    decreases |actions|
  {
    hide Inv, Apply, Started, CanStart, Enabled, KeptAll, ResultOk, Delivers;
    if actions != [] {
      match actions[0] {
        case Start(setup, resume, clean) =>
          StartKeeps(s, setup, resume, clean);
          KeptStart(s, setup, resume, clean);
          StartResult(s, setup, resume, clean, data);
        case Do(step) =>
          StepKeeps(s, step);
          StepKeepsKept(s, step);
          StepResult(s, step, data);
      }
      HistoryResult(Act(s, actions[0]), actions[1..], s', data);
    }
  }

  /** An import that finishes, however often it was interrupted and resumed before its set
      blocks, leaves each table it was sent with exactly its rows under the rows to preserve,
      leaves every other table as it was (those ended without a schema included), and then has run
      the set blocks and after statements on that, once each and in order. */
  lemma ImportLeaves(s0: State, actions: seq<Action>, s: State, data: TableData)
    requires Came(s0, actions, s) && AllDeliver(actions, data) && s.c.at.Finished? && !s.edited
    ensures Contents(s.tables) == Posts(s.setup.post, |s.setup.post|, Expected(s, data))
  {
    hide History, Inv, Expected, Contents, KeptAll, JobsOk, DataOk, AllDeliver, GoodStreams;
    UntouchedInv(s0);
    UntouchedKept(s0);
    UntouchedResult(s0, data);
    HistoryResult(s0, actions, s, data);
  }

  /** Row by row, before set blocks and after statements: a streamed table holds the local rows to
      preserve, as they were, and under every other key the row it was sent, or none; any other table
      is as it was. */
  lemma ImportLeavesRow(s0: State, actions: seq<Action>, s: State, data: TableData, t: string, k: nat)
    requires Came(s0, actions, s) && AllDeliver(actions, data) && s.c.at.Finished? && !s.edited && s.setup.post == []
    ensures t in s.tables <==> t in data || t in s.base
    ensures t in data ==>
              && (k in Content(s.tables[t]) <==> ToPreserve(s, t, k) || k in data[t])
              && (ToPreserve(s, t, k) ==> Content(s.tables[t])[k] == Content(s.base[t])[k])
              && (!ToPreserve(s, t, k) && k in data[t] ==> Content(s.tables[t])[k] == data[t][k])
    ensures t in s.base && t !in data ==> Content(s.tables[t]) == Content(s.base[t])
  {
    hide Came, AllDeliver, Content, Kept, ToPreserve;
    ImportLeaves(s0, actions, s, data);
    KeptRow(s, t, k);
    var tables := Contents(s.tables);
    assert tables == Expected(s, data);
    assert t in s.tables <==> t in tables;
    assert t in s.tables ==> tables[t] == Content(s.tables[t]);
  }

  lemma UntouchedResult(s: State, data: TableData)
    requires Untouched(s)
    ensures ResultOk(s, data)
  {
    hide Held, Content, Matching;
  }

  /** Live import and dump load agree: two imports that were sent the same data over the same
      local tables, under the same rules and with the same statements to run, end the same,
      whatever each one's interruptions, chunks, workers and schedule. */
  lemma LiveAndLoadAgree(s0: State, live: seq<Action>, s: State, u0: State, load: seq<Action>, u: State,
                         data: TableData)
    requires Came(s0, live, s) && AllDeliver(live, data) && s.c.at.Finished? && !s.edited && !s.setup.load
    requires Came(u0, load, u) && AllDeliver(load, data) && u.c.at.Finished? && !u.edited && u.setup.load
    requires s.setup.rules == u.setup.rules && s.setup.post == u.setup.post && Contents(s.base) == Contents(u.base)
    ensures Contents(s.tables) == Contents(u.tables)
  {
    hide Came, AllDeliver, Posts, Contents;
    ImportLeaves(s0, live, s, data);
    ImportLeaves(u0, load, u, data);
    SameContentsExpected(s, u, data);
  }

  lemma SameContentsExpected(s: State, u: State, data: TableData)
    requires s.setup.rules == u.setup.rules && Contents(s.base) == Contents(u.base)
    ensures Expected(s, data) == Expected(u, data)
  {
    hide Content, Matching;
    forall t ensures t in s.base <==> t in u.base {
      assert t in Contents(s.base) <==> t in Contents(u.base);
    }
    forall t | t in s.base ensures Content(s.base[t]) == Content(u.base[t]) {
      assert Contents(s.base)[t] == Contents(u.base)[t];
    }
  }
}
