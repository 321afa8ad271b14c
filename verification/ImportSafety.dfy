/** What an import guarantees at every moment of every history: any number of runs, any
    interleaving of messages and workers, any crashes. */
module ImportSafety {
  import opened Bytes
  import opened Sets
  import opened Streams
  import opened LocalDb
  import opened ImportMachine
  import opened ImportInvariants
  import opened ImportSteps

  /** `s` is reached from a database no import has touched, by runs that were each given an
      orderly stream. */
  ghost predicate Came(s0: State, actions: seq<Action>, s: State) {
    Untouched(s0) && History(s0, actions, s) && GoodStreams(actions)
  }

  lemma UntouchedInv(s: State)
    requires Untouched(s)
    ensures Inv(s)
  {
    assert s.setup.stream[..0] == [];
  }

  lemma ReachedInv(s0: State, actions: seq<Action>, s: State)
    requires Came(s0, actions, s)
    ensures Inv(s)
  {
    hide History, Inv, GoodStreams;
    UntouchedInv(s0);
    HistoryKeeps(s0, actions, s);
  }

  // ------------------------------------------------------------------
  // The checkpoint tells the truth
  // ------------------------------------------------------------------

  /** At every moment, a table in the checkpoint holds exactly the chunks of the run that
      completed it, each loaded once; or, if that run was sent its end without a schema, what it
      held before that run, with a count of zero. */
  lemma CheckpointedIsComplete(s0: State, actions: seq<Action>, s: State, t: string)
    requires Came(s0, actions, s) && t in Completed(s.checkpoint)
    ensures t in s.done
    ensures !s.posted && !s.edited ==> HoldsCompletion(s, t, s.done[t])
    ensures s.checkpoint.value[t] == if s.done[t].Rebuilt? then s.done[t].rows else 0
  {
    hide Came, Inv, PoolOk, ReadOk, CheckpointOk, TableOk;
    ReachedInv(s0, actions, s);
    CompletedHolds(s, t);
  }

  lemma CompletedHolds(s: State, t: string)
    requires Inv(s)
    ensures CompleteOk(s, t) && ReadOk(s, t) && CheckpointOk(s, t) && (!s.posted ==> TableOk(s, t)) && PoolOk(s.c)
  {
    hide ReadOk, CompleteOk, CheckpointOk, TableOk, PoolOk;
    assert PerTableOk(s, t);
  }

  lemma AllJobsFinished(s: State)
    requires Inv(s) && AfterLoads(s.c.at)
    ensures forall j :: 0 <= j < |s.c.jobs| ==> j in s.c.finished
  {
    hide PerTableOk, BoundOk, Orderly;
  }

  /** A run that has got past its loads left every streamed table complete: with this run's
      chunks, or with those of the earlier run that completed it, in which case this run did
      not touch it. */
  lemma StreamedIsComplete(s0: State, actions: seq<Action>, s: State, t: string)
    requires Came(s0, actions, s) && AfterLoads(s.c.at) && PhaseOf(s.setup.stream, t).Ended?
    ensures t in s.c.completed ==> forall j :: 0 <= j < |s.c.jobs| ==> s.c.jobs[j].table != t
    ensures t !in s.c.completed ==> LoadsOf(s.c.jobs, t) == ChunksOf(s.setup.stream, t)
    ensures !s.setup.load && !s.c.at.Finished? ==> t in Completed(s.checkpoint)
    ensures !s.c.at.Finished? && (t in s.c.completed || !s.setup.load) ==> t in s.done
    ensures !s.c.at.Finished? && t !in s.c.completed && !s.setup.load ==>
              s.done[t] == Sent(s.setup.stream, t) && s.checkpoint.value[t] == PhaseOf(s.setup.stream, t).rows
    ensures !s.posted && !s.edited && (s.c.at.Finished? ==> t !in s.c.completed) ==>
              HoldsCompletion(s, t, if t in s.c.completed then s.done[t] else Sent(s.setup.stream, t))
  {
    hide Came, Inv, LoadsOf, ChunksOf, PhaseOf;
    ReachedInv(s0, actions, s);
    StreamedFacts(s, t);
  }

  lemma StreamedFacts(s: State, t: string)
    requires Inv(s) && AfterLoads(s.c.at) && PhaseOf(s.setup.stream, t).Ended?
    ensures t in s.c.completed ==> forall j :: 0 <= j < |s.c.jobs| ==> s.c.jobs[j].table != t
    ensures t !in s.c.completed ==> LoadsOf(s.c.jobs, t) == ChunksOf(s.setup.stream, t)
    ensures !s.setup.load && !s.c.at.Finished? ==> t in Completed(s.checkpoint)
    ensures !s.c.at.Finished? && (t in s.c.completed || !s.setup.load) ==> t in s.done
    ensures !s.c.at.Finished? && t !in s.c.completed && !s.setup.load ==>
              s.done[t] == Sent(s.setup.stream, t) && s.checkpoint.value[t] == PhaseOf(s.setup.stream, t).rows
    ensures !s.posted && !s.edited && (s.c.at.Finished? ==> t !in s.c.completed) ==>
              HoldsCompletion(s, t, if t in s.c.completed then s.done[t] else Sent(s.setup.stream, t))
  {
    hide LoadsOf, LoadedOf, ChunksOf, PhaseOf, BoundOk, WaitsOk, Orderly;
    AllJobsFinished(s);
    CompletedHolds(s, t);
    assert Seen(s) == s.setup.stream;
    AllLoaded(s.c.jobs, s.c.finished, t);
  }

  /** What a run leaves wherever it stops: tables it has not announced as they were, and those it
      created with some of the chunks it was sent, each at most once. A failed load leaves this. */
  lemma StoppedAnywhere(s0: State, actions: seq<Action>, s: State, t: string)
    requires Came(s0, actions, s) && !s.posted
    ensures s.c.pos <= |s.setup.stream|
    ensures t !in s.c.created ==> LoadsIn(s.tables, t) == LoadsIn(s.before, t)
    ensures t in s.c.created && s.c.created[t] in s.c.finished ==>
              t in s.tables && multiset(s.tables[t].loads) <= multiset(ChunksOf(s.setup.stream[..s.c.pos], t))
    ensures t in s.c.created && s.c.created[t] in s.c.dropped && s.c.created[t] !in s.c.finished ==> t !in s.tables
  {
    ReachedInv(s0, actions, s);
    hide Came, LoadsOf, LoadedOf, ChunksOf, PhaseOf, BoundOk, WaitsOk, Orderly, CompleteOk, CheckpointOk, PoolOk, EndOk;
    CompletedHolds(s, t);
    SomeLoaded(s.c.jobs, s.c.finished, t);
  }

  lemma {:induction false} SomeLoaded(jobs: seq<Job>, finished: set<nat>, t: string)
    ensures LoadedOf(jobs, finished, t) <= multiset(LoadsOf(jobs, t))
  {
    if jobs != [] {
      var n := |jobs| - 1;
      SomeLoaded(jobs[..n], finished, t);
      assert LoadedOf(jobs, finished, t) <= multiset(LoadsOf(jobs[..n], t)) + Share(jobs[n], t);
    }
  }

  /** A table whose end came without a schema is left alone: past its loads, the run has
      checkpointed it with a count of zero, and it holds the local rows it held when the run
      started. It was not in the checkpoint before. */
  lemma BareIsLeftAlone(s0: State, actions: seq<Action>, s: State, t: string)
    requires Came(s0, actions, s) && AfterLoads(s.c.at) && PhaseOf(s.setup.stream, t).Bare?
    ensures t !in s.c.completed && forall j :: 0 <= j < |s.c.jobs| ==> s.c.jobs[j].table != t
    ensures !s.setup.load && !s.c.at.Finished? ==> t in Completed(s.checkpoint)
    ensures !s.posted ==> LoadsIn(s.tables, t) == LoadsIn(s.before, t)
  {
    ReachedInv(s0, actions, s);
    hide Came, LoadsOf, LoadedOf, ChunksOf, PhaseOf, BoundOk, WaitsOk, Orderly, HoldsCompletion;
    CompletedHolds(s, t);
    assert Seen(s) == s.setup.stream;
  }

  // ------------------------------------------------------------------
  // The loader pool
  // ------------------------------------------------------------------

  /** No chunk is even queued before its table's one CREATE has finished, and the table is
      there until its chunk is in. */
  lemma CreatedBeforeLoaded(s0: State, actions: seq<Action>, s: State, j: nat)
    requires Came(s0, actions, s) && j < |s.c.jobs| && s.c.jobs[j].LoadData?
    ensures exists i :: 0 <= i < |s.c.jobs| && i in s.c.finished && s.c.jobs[i] == CreateTable(s.c.jobs[j].table)
                        && forall k :: 0 <= k < |s.c.jobs| && s.c.jobs[k] == s.c.jobs[i] ==> k == i
    ensures !s.posted ==> s.c.jobs[j].table in s.tables
  {
    ReachedInv(s0, actions, s);
    hide Came, LoadsOf, LoadedOf, ReadOk, CompleteOk, CheckpointOk, EndOk, BoundOk, WaitsOk, Orderly;
    var t := s.c.jobs[j].table;
    assert PerTableOk(s, t);
    assert s.c.jobs[s.c.created[t]] == CreateTable(t);
  }

  ghost predicate WorkerStep(step: Step) { step.WorkerTake? || step.WorkerDrop? || step.WorkerDone? }

  /** A job the loop may be waiting for never stalls: until it finishes some worker can act. */
  lemma JobsAdvance(s: State, j: nat)
    requires Inv(s) && !Idle(s) && j < |s.c.jobs| && j !in s.c.finished
    ensures exists step: Step :: WorkerStep(step) && Enabled(s, step)
  {
    hide Inv, Enabled;
    var running := RunningJobs(s.c);
    if i :| i in running { RunningAdvances(s, i); } else { assert running == {}; QueuedAdvances(s, j); }
  }

  lemma QueuedAdvances(s: State, j: nat)
    requires Inv(s) && !Idle(s) && RunningJobs(s.c) == {} && j < |s.c.jobs| && j !in s.c.finished
    ensures Enabled(s, WorkerTake)
  {
    hide PerTableOk, PoolOk, WaitsOk, BoundOk, Orderly;
    assert j < s.c.taken ==> j in RunningJobs(s.c);
    assert |RunningJobs(s.c)| == 0;
  }

  lemma RunningAdvances(s: State, i: nat)
    requires Inv(s) && !Idle(s) && i in RunningJobs(s.c)
    ensures exists step: Step :: WorkerStep(step) && Enabled(s, step)
  {
    hide LoadsOf, LoadedOf, BoundOk, WaitsOk, Orderly, ReadOk, CheckpointOk, CompleteOk;
    AllJobsFinishedAtPosting(s);
    assert PerTableOk(s, s.c.jobs[i].table);
    if s.c.jobs[i].CreateTable? && i !in s.c.dropped {
      assert Enabled(s, WorkerDrop(i));
    } else {
      assert Enabled(s, WorkerDone(i));
    }
  }

  lemma AllJobsFinishedAtPosting(s: State)
    requires Inv(s) && !Idle(s)
    ensures s.posted ==> forall j :: 0 <= j < |s.c.jobs| ==> j in s.c.finished
  {
    hide PerTableOk, BoundOk, Orderly, PoolOk, WaitsOk;
    if s.posted { AllJobsFinished(s); }
  }

  /** A load takes chunks of a table from its record to its end. */
  lemma LoadKnowsOpen(s0: State, actions: seq<Action>, s: State, t: string)
    requires Came(s0, actions, s) && s.setup.load
    ensures s.c.pos <= |s.setup.stream|
    ensures t in s.c.schemas <==> PhaseOf(s.setup.stream[..s.c.pos], t).Open?
  {
    hide Came, PoolOk, CompleteOk, CheckpointOk, TableOk, Orderly, PhaseOf;
    ReachedInv(s0, actions, s);
    assert PerTableOk(s, t);
  }

  /** At most 100 chunks are in flight whenever a message is read, and never more than 101. */
  lemma InFlight(s0: State, actions: seq<Action>, s: State)
    requires Came(s0, actions, s)
    ensures |set j | 0 <= j < |s.c.jobs| && s.c.jobs[j].LoadData? && j !in s.c.finished|
            <= if s.c.at.Receiving? then 100 else 101
  {
    ReachedInv(s0, actions, s);
    hide Came, PerTableOk, EndOk, PoolOk, Orderly;
    var flying := set j | 0 <= j < |s.c.jobs| && s.c.jobs[j].LoadData? && j !in s.c.finished;
    assert flying <= Elements(s.c.loads);
    SubsetSize(flying, Elements(s.c.loads));
    ElementsCard(s.c.loads);
  }

  function Elements(loads: seq<nat>): set<nat> { set j | j in loads }

  lemma {:induction false} ElementsCard(loads: seq<nat>)
    ensures |Elements(loads)| <= |loads|
  {
    if loads != [] {
      var n := |loads| - 1;
      ElementsCard(loads[..n]);
      assert Elements(loads) == Elements(loads[..n]) + {loads[n]};
    }
  }

  // ------------------------------------------------------------------
  // Progress
  // ------------------------------------------------------------------

  /** An error even a good stream leaves: rows are backed up for tables that are gone. */
  ghost predicate MissingTables(s: State) {
    s.c.at.Restoring? && s.backups != map[] && forall t :: t in s.backups ==> t !in s.tables
  }

  /** A table in the checkpoint is ended by the stream without a schema: entering it there again
      will fail. */
  ghost predicate Doomed(s: State) {
    exists t :: t in s.c.completed && PhaseOf(s.setup.stream, t).Bare?
  }

  ghost predicate CanMove(s: State) { exists step: Step :: !step.Die? && Enabled(s, step) }

  /** A run never deadlocks. */
  lemma Progress(s: State)
    requires Inv(s) && !Idle(s) && !Doomed(s)
    ensures CanMove(s) <==> !MissingTables(s)
  {
    hide Inv, Doomed;
    if MissingTables(s) { NoMove(s); }
    if s.c.at.Receiving? { ReceivingMoves(s); }
    if s.c.at.Draining? { assert Enabled(s, Drain({})); }
    if s.c.at.Swept? { SweptMoves(s); }
    if s.c.at.AwaitingOldest? { AwaitingMoves(s); }
    if s.c.at.Finishing? { FinishingMoves(s); }
    if AfterLoads(s.c.at) && !MissingTables(s) { LateMove(s); }
  }

  /** Unless it is doomed, a run stops short only when rows are backed up for tables that are
      gone. Its stream does not announce those tables, or an earlier run checkpointed them without
      a schema, so that this one passed them over. */
  lemma NeverStuck(s0: State, actions: seq<Action>, s: State)
    requires Came(s0, actions, s) && !Idle(s)
    ensures !Doomed(s) ==> (CanMove(s) <==> !MissingTables(s))
    ensures MissingTables(s) && !s.edited ==>
              forall t :: t in s.backups && Begun(PhaseOf(s.setup.stream, t)) ==>
                t in s.c.completed && t in s.done && s.done[t].LeftAlone?
  {
    hide Came, Inv, CanMove, LoadsOf, ChunksOf, PhaseOf, Doomed;
    ReachedInv(s0, actions, s);
    if !Doomed(s) { Progress(s); }
    if MissingTables(s) && !s.edited {
      forall t | t in s.backups && Begun(PhaseOf(s.setup.stream, t))
        ensures t in s.c.completed && t in s.done && s.done[t].LeftAlone?
      {
        EndsOrAbsent(s, t);
        StreamedFacts(s, t);
      }
    }
  }

  lemma EndsOrAbsent(s: State, t: string)
    requires Inv(s)
    ensures PhaseOf(s.setup.stream, t).Absent? || PhaseOf(s.setup.stream, t).Ended? || PhaseOf(s.setup.stream, t).Bare?
    ensures s.c.at.Restoring? ==> !s.posted
  {
    hide PerTableOk, PoolOk, WaitsOk, BoundOk, PhaseOf;
  }

  lemma NoMove(s: State)
    requires Inv(s) && MissingTables(s)
    ensures !CanMove(s)
  {
    hide PerTableOk, Orderly, BoundOk, WaitsOk, Ready;
    AllJobsFinished(s);
    AllTaken(s.c);
    forall step: Step | Enabled(s, step) ensures step.Die? { }
  }

  lemma AllTaken(c: Client)
    requires PoolOk(c) && forall j :: 0 <= j < |c.jobs| ==> j in c.finished
    ensures c.taken == |c.jobs|
  {
    var last := |c.jobs| - 1;
    assert last >= 0 ==> last in c.finished;
  }

  lemma LateMove(s: State)
    requires Inv(s) && AfterLoads(s.c.at) && !Idle(s) && !MissingTables(s)
    ensures CanMove(s)
  {
    hide Inv;
    match s.c.at
    case Restoring =>
      if s.backups == map[] {
        assert Enabled(s, BeginPost);
      } else {
        var t :| t in s.backups && t in s.tables;
        assert Enabled(s, Replace(t));
      }
    case Replaced(_) => assert Enabled(s, DropBackup);
    case Posting(n) =>
      PostingInRange(s);
      if n < |s.setup.post| { assert Enabled(s, RunPost); } else { assert Enabled(s, Cleanup); }
  }

  lemma PostingInRange(s: State)
    requires Inv(s)
    ensures s.c.at.Posting? ==> s.c.at.next <= |s.setup.post|
  {
    hide PerTableOk, Orderly, BoundOk, WaitsOk, PoolOk;
  }

  lemma UnfinishedMoves(s: State, j: nat)
    requires Inv(s) && !Idle(s) && j < |s.c.jobs| && j !in s.c.finished
    ensures CanMove(s)
  {
    hide *;
    JobsAdvance(s, j);
    var step: Step :| WorkerStep(step) && Enabled(s, step);
    NotDie(step);
    Moves(s, step);
  }

  lemma NotDie(step: Step)
    ensures WorkerStep(step) ==> !step.Die?
  {
  }

  lemma Moves(s: State, step: Step)
    requires !step.Die? && Enabled(s, step)
    ensures CanMove(s)
  {
  }

  lemma WaitedIsJob(s: State)
    requires Inv(s)
    ensures forall t :: t in s.c.ddls ==> s.c.ddls[t] < |s.c.jobs|
    ensures forall i :: 0 <= i < |s.c.loads| ==> s.c.loads[i] < |s.c.jobs|
  {
    hide PerTableOk, Orderly, BoundOk, EndOk;
  }

  lemma ReceivingMoves(s: State)
    requires Inv(s) && s.c.at.Receiving?
    ensures CanMove(s)
  {
    hide PerTableOk, Orderly, BoundOk, EndOk, PoolOk, WaitsOk, Passed;
    WaitedIsJob(s);
    if s.c.pos < |s.setup.stream| && !DdlDone(s.c, Next(s).table) {
      UnfinishedMoves(s, s.c.ddls[Next(s).table]);
    } else {
      if s.c.pos < |s.setup.stream| { ChunkHasSchema(s); }
      assert Enabled(s, Receive);
    }
  }

  lemma ChunkHasSchema(s: State)
    requires Inv(s) && s.c.pos < |s.setup.stream|
    ensures Next(s).Data? && !Passed(s.c, Next(s)) ==> Next(s).table in s.c.schemas
  {
    hide LoadsOf, LoadedOf, PhaseOf, ChunksOf, Orderly, TableOk, CompleteOk, PoolOk, EndOk, BoundOk, CheckpointOk,
         WaitsOk;
    assert PerTableOk(s, Next(s).table);
    PrefixStep(s, Next(s).table);
  }

  lemma SweptMoves(s: State)
    requires Inv(s) && s.c.at.Swept? && !Doomed(s)
    ensures CanMove(s)
  {
    hide Inv, Doomed;
    if t :| t in s.c.deferred && Ready(s.c, t) {
      DeferredIsNew(s, t);
      assert Enabled(s, Finalize(t));
    } else {
      assert Enabled(s, EndDrain);
    }
  }

  lemma DeferredIsNew(s: State, t: string)
    requires Inv(s) && !Idle(s) && t in s.c.deferred && !Doomed(s)
    ensures s.checkpoint.Some? && t !in s.checkpoint.value
  {
    hide LoadsOf, LoadedOf, PhaseOf, ChunksOf, TableOk, CompleteOk, PoolOk, BoundOk, WaitsOk;
    assert PerTableOk(s, t);
    GoodPrefix(s.setup.stream, s.c.pos, t);
  }

  lemma AwaitingMoves(s: State)
    requires Inv(s) && s.c.at.AwaitingOldest?
    ensures CanMove(s)
  {
    hide PerTableOk, Orderly, EndOk, PoolOk, WaitsOk;
    WaitedIsJob(s);
    if s.c.loads[0] in s.c.finished {
      assert Enabled(s, TakeOldest);
    } else {
      UnfinishedMoves(s, s.c.loads[0]);
    }
  }

  lemma FinishingMoves(s: State)
    requires Inv(s) && s.c.at.Finishing? && !Doomed(s)
    ensures CanMove(s)
  {
    hide Inv, Doomed;
    WaitedIsJob(s);
    if t :| t in s.c.ddls {
      if s.c.ddls[t] in s.c.finished { assert Enabled(s, FinishDdl(t)); } else { UnfinishedMoves(s, s.c.ddls[t]); }
    } else if s.c.loads != [] {
      if s.c.loads[0] in s.c.finished { assert Enabled(s, FinishLoad); } else { UnfinishedMoves(s, s.c.loads[0]); }
    } else if t :| t in s.c.deferred {
      DeferredIsNew(s, t);
      assert Enabled(s, Finalize(t));
    } else {
      assert Enabled(s, BeginRestore);
    }
  }

  // ------------------------------------------------------------------
  // Termination
  // ------------------------------------------------------------------

  /** What a run has left to do. */
  datatype Rank = Rank(messages: nat, stage: nat, waits: nat, work: nat)

  ghost predicate Below(a: Rank, b: Rank) {
    || a.messages < b.messages
    || (a.messages == b.messages && a.stage < b.stage)
    || (a.messages == b.messages && a.stage == b.stage && a.waits < b.waits)
    || (a.messages == b.messages && a.stage == b.stage && a.waits == b.waits && a.work < b.work)
  }

  function Stage(at: Where): nat {
    match at
    case Draining(_) => 7
    case Swept(_) => 6
    case AwaitingOldest => 5
    case Receiving => 4
    case Finishing => 3
    case Restoring => 2
    case Replaced(_) => 2
    case Posting(_) => 1
    case _ => 0
  }

  ghost function Waits(s: State): nat {
    match s.c.at
    case Restoring => 2 * |s.backups| + 1
    case Replaced(_) => 2 * |s.backups|
    case Posting(n) => if n <= |s.setup.post| then |s.setup.post| - n else 0
    case _ => |s.c.deferred| + |s.c.ddls| + |s.c.loads|
  }

  ghost function Undropped(c: Client): set<nat> { set j | 0 <= j < |c.jobs| && j !in c.dropped }
  ghost function Unfinished(c: Client): set<nat> { set j | 0 <= j < |c.jobs| && j !in c.finished }

  ghost function Work(c: Client): nat {
    (if c.taken <= |c.jobs| then |c.jobs| - c.taken else 0) + |Undropped(c)| + |Unfinished(c)|
  }

  ghost function RankOf(s: State): Rank {
    Rank(if s.c.pos <= |s.setup.stream| then |s.setup.stream| - s.c.pos else 0, Stage(s.c.at), Waits(s), Work(s.c))
  }

  lemma StepDescends(s: State, step: Step)
    requires Inv(s) && Enabled(s, step) && !step.Die?
    ensures Below(RankOf(Apply(s, step)), RankOf(s))
  {
    hide RankOf, Below, Received, CanReceive, CanTake, Drained, Posted, Finalized, ReplacedRows, EndedDrain, TookOldest;
    PosInRange(s);
    if step.Receive? {
      ReceiveDescends(s);
    } else if WorkerStep(step) {
      WorkerDescends(s, step);
    } else if AfterLoads(s.c.at) {
      LateDescends(s, step);
    } else {
      LoopDescends(s, step);
    }
  }

  lemma WorkerDescends(s: State, step: Step)
    requires WorkerStep(step) && Enabled(s, step)
    ensures Below(RankOf(Apply(s, step)), RankOf(s))
  {
    match step
    case WorkerTake => TakeDescends(s);
    case WorkerDrop(j) => DropDescends(s, j);
    case WorkerDone(j) => DoneDescends(s, j);
  }

  lemma TakeDescends(s: State)
    requires CanTake(s)
    ensures Below(RankOf(s.(c := s.c.(taken := s.c.taken + 1))), RankOf(s))
  {
    hide Work;
    TakeWorks(s.c);
  }

  lemma DropDescends(s: State, j: nat)
    requires CanDrop(s, j)
    ensures Below(RankOf(DroppedTable(s, j)), RankOf(s))
  {
    hide Work;
    DropWorks(s.c, j);
  }

  lemma DoneDescends(s: State, j: nat)
    requires CanComplete(s, j)
    ensures Below(RankOf(CompletedJob(s, j)), RankOf(s))
  {
    hide Work;
    DoneWorks(s.c, j);
  }

  lemma LateDescends(s: State, step: Step)
    requires AfterLoads(s.c.at) && !WorkerStep(step) && !step.Receive? && !step.Die? && Enabled(s, step)
    requires s.c.at.Replaced? ==> s.c.at.table in s.backups
    ensures Below(RankOf(Apply(s, step)), RankOf(s))
  {
    hide Work, Posted, ReplacedRows, Ready, RankOf, Below;
    match step
    case Replace(t) => ReplaceDescends(s, t);
    case RunPost => PostDescends(s);
    case DropBackup => DropBackupDescends(s);
    case BeginPost => StageDescends(s, s.(c := s.c.(at := Posting(0))));
    case Cleanup => StageDescends(s, Cleaned(s));
    case _ =>
  }

  lemma DropBackupDescends(s: State)
    requires s.c.at.Replaced? && s.c.at.table in s.backups
    ensures Below(RankOf(s.(backups := s.backups - {s.c.at.table}, c := s.c.(at := Restoring))), RankOf(s))
  {
    hide Work;
    SmallerMap(s.backups, s.c.at.table);
  }

  lemma StageDescends(s: State, s': State)
    requires s'.setup == s.setup && s'.c.pos == s.c.pos && Stage(s'.c.at) < Stage(s.c.at)
    ensures Below(RankOf(s'), RankOf(s))
  {
    hide Work, Waits;
  }

  lemma ReplaceDescends(s: State, t: string)
    requires CanReplace(s, t)
    ensures Below(RankOf(ReplacedRows(s, t)), RankOf(s))
  {
    hide Work;
  }

  lemma PostDescends(s: State)
    requires s.c.at.Posting? && s.c.at.next < |s.setup.post|
    ensures Below(RankOf(Posted(s)), RankOf(s))
  {
    hide Work, AfterPost;
  }

  lemma LoopDescends(s: State, step: Step)
    requires !AfterLoads(s.c.at) && !WorkerStep(step) && !step.Receive? && !step.Die? && Enabled(s, step)
    ensures Below(RankOf(Apply(s, step)), RankOf(s))
  {
    hide RankOf, Below, Keep, ChunksOf, Ready, CanFinalize, Finalized;
    match step
    case Finalize(t) => FinalizeDescends(s, t);
    case FinishDdl(t) => FinishDdlDescends(s, t);
    case FinishLoad => FinishLoadDescends(s);
    case Drain(gone) => StageDescends(s, s.(c := Drained(s.c, gone)));
    case EndDrain => StageDescends(s, s.(c := EndedDrain(s.c)));
    case TakeOldest => StageDescends(s, s.(c := TookOldest(s.c)));
    case BeginRestore => StageDescends(s, s.(c := s.c.(at := Restoring)));
    case _ =>
  }

  lemma FinishDdlDescends(s: State, t: string)
    requires CanFinishDdl(s.c, t)
    ensures Below(RankOf(s.(c := s.c.(ddls := s.c.ddls - {t}))), RankOf(s))
  {
    hide Work;
    SmallerMap(s.c.ddls, t);
  }

  lemma FinishLoadDescends(s: State)
    requires CanFinishLoad(s.c)
    ensures Below(RankOf(s.(c := s.c.(loads := s.c.loads[1..]))), RankOf(s))
  {
    hide Work;
  }

  lemma FinalizeDescends(s: State, t: string)
    requires CanFinalize(s, t)
    ensures Below(RankOf(Finalized(s, t)), RankOf(s))
  {
    hide Work, ChunksOf;
    SmallerMap(s.c.deferred, t);
  }

  lemma ReceiveDescends(s: State)
    requires CanReceive(s) && s.c.pos <= |s.setup.stream|
    ensures Below(RankOf(Received(s)), RankOf(s))
  {
    hide Work, Waits, BackedUp, Passed, Announce, Submit, Defer, Forget;
    if s.c.pos < |s.setup.stream| { ReceivedReads(s, []); }
  }

  /** What reading a message does to the position; `t` stays deferred, or becomes so at its end. */
  ghost predicate ReadsOn(s: State, s': State, m: Msg, t: string) {
    && s'.setup == s.setup && s'.checkpoint == s.checkpoint && s'.c.completed == s.c.completed
    && s'.base == s.base && s'.posted == s.posted && s'.edited == s.edited
    && (s'.c.at.Receiving? || s'.c.at.Draining?) && s'.c.pos == s.c.pos + 1
    && (t in s.c.deferred ==> t in s'.c.deferred)
    && (m.TableDone? && m.table == t && !s.setup.load && t !in s.c.skipped ==> t in s'.c.deferred)
    && (t in s'.c.skipped ==> t in s.c.skipped || m == Schema(t))
  }

  lemma ReceivedReads(s: State, t: string)
    requires CanReceive(s) && s.c.pos < |s.setup.stream|
    ensures ReadsOn(s, Received(s), Next(s), t)
  {
    hide Received, CanReceive, ReadsOn, Passed;
    if Passed(s.c, Next(s)) {
      PassedReads(s, t);
    } else {
      match Next(s)
      case Schema(_) => SchemaReads(s, t);
      case Data(_, _, _) => DataReads(s, t);
      case TableDone(_, _) => TableDoneReads(s, t);
    }
  }

  lemma PassedReads(s: State, t: string)
    requires CanReceive(s) && s.c.pos < |s.setup.stream| && Passed(s.c, Next(s))
    ensures ReadsOn(s, Received(s), Next(s), t)
  {
    hide BackedUp, DdlDone;
  }

  lemma SchemaReads(s: State, t: string)
    requires CanReceive(s) && s.c.pos < |s.setup.stream| && !Passed(s.c, Next(s)) && Next(s).Schema?
    ensures ReadsOn(s, Received(s), Next(s), t)
  {
    hide BackedUp, Passed, DdlDone;
  }

  lemma DataReads(s: State, t: string)
    requires CanReceive(s) && s.c.pos < |s.setup.stream| && !Passed(s.c, Next(s)) && Next(s).Data?
    ensures ReadsOn(s, Received(s), Next(s), t)
  {
    hide BackedUp, Passed, DdlDone;
  }

  lemma TableDoneReads(s: State, t: string)
    requires CanReceive(s) && s.c.pos < |s.setup.stream| && !Passed(s.c, Next(s)) && Next(s).TableDone?
    ensures ReadsOn(s, Received(s), Next(s), t)
  {
    hide BackedUp, Passed, DdlDone;
  }

  lemma PosInRange(s: State)
    requires Inv(s)
    ensures s.c.pos <= |s.setup.stream| && (s.c.at.Replaced? ==> s.c.at.table in s.backups)
  {
    hide PerTableOk, Orderly, BoundOk, WaitsOk, PoolOk;
  }

  lemma TakeWorks(c: Client)
    requires c.taken < |c.jobs|
    ensures Work(c.(taken := c.taken + 1)) < Work(c)
  {
    var c' := c.(taken := c.taken + 1);
    assert Undropped(c') == Undropped(c) && Unfinished(c') == Unfinished(c);
  }

  lemma DropWorks(c: Client, j: nat)
    requires j < |c.jobs| && j !in c.dropped
    ensures Work(c.(dropped := c.dropped + {j})) < Work(c)
  {
    var c' := c.(dropped := c.dropped + {j});
    assert Unfinished(c') == Unfinished(c);
    assert j in Undropped(c);
    SubsetSize(Undropped(c'), Undropped(c));
  }

  lemma DoneWorks(c: Client, j: nat)
    requires j < |c.jobs| && j !in c.finished
    ensures Work(c.(finished := c.finished + {j})) < Work(c)
  {
    var c' := c.(finished := c.finished + {j});
    assert Undropped(c') == Undropped(c);
    assert j in Unfinished(c);
    SubsetSize(Unfinished(c'), Unfinished(c));
  }

  ghost predicate Follows(s: State, s': State) {
    if CanMove(s) then exists step: Step :: !step.Die? && Enabled(s, step) && s' == Apply(s, step) else s' == s
  }

  ghost predicate Ends(run: nat -> State) { exists n: nat :: run(n).c.at.Finished? || MissingTables(run(n)) }

  /** A crash-free run, however its workers are scheduled, ends (it finishes, or stops at a backup
      whose table is gone) exactly when no table that was in the checkpoint when it started is
      ended by its stream without a schema. */
  lemma EveryRunEnds(s0: State, actions: seq<Action>, run: nat -> State)
    requires Came(s0, actions, run(0)) && !Idle(run(0))
    requires forall i: nat :: Follows(run(i), run(i + 1))
    ensures Ends(run) <==> !Doomed(run(0))
  {
    hide *;
    ReachedInv(s0, actions, run(0));
    NotDead(run(0));
    if Doomed(run(0)) { NeverEnds(run); } else { EndsFrom(run, 0); }
  }

  lemma NotDead(s: State)
    requires !Idle(s)
    ensures s.c.at != Dead
  {
  }

  lemma {:induction false} EndsFrom(run: nat -> State, i: nat)
    requires Inv(run(i)) && run(i).c.at != Dead && !Doomed(run(i))
    requires forall k: nat :: Follows(run(k), run(k + 1))
    ensures Ends(run)
    decreases RankOf(run(i)).messages, RankOf(run(i)).stage, RankOf(run(i)).waits, RankOf(run(i)).work
  {
    hide Inv, RankOf, Enabled, Apply, MissingTables, Doomed;
    if !run(i).c.at.Finished? && !MissingTables(run(i)) {
      Progress(run(i));
      assert Follows(run(i), run(i + 1));
      var step: Step :| !step.Die? && Enabled(run(i), step) && run(i + 1) == Apply(run(i), step);
      StepKeeps(run(i), step);
      StepDescends(run(i), step);
      StaysAlive(run(i), step);
      SameRun(run(i), step);
      EndsFrom(run, i + 1);
    }
  }

  /** A step changes neither the run's data nor what it found completed. */
  lemma SameRun(s: State, step: Step)
    requires Enabled(s, step)
    ensures Apply(s, step).setup == s.setup && Apply(s, step).c.completed == s.c.completed
    ensures Doomed(Apply(s, step)) <==> Doomed(s)
  {
    hide Received, CanFinalize, CanTake, CanDrop, CanComplete, CanDrain, CanEndDrain, AfterPost, ChunksOf, Keep,
         CompletionOf;
    match step
    case Receive => ReceivedSame(s);
    case _ =>
  }

  lemma ReceivedSame(s: State)
    requires CanReceive(s)
    ensures Received(s).setup == s.setup && Received(s).c.completed == s.c.completed
  {
    hide BackedUp, Passed, Announce, Submit, Defer, Forget;
    if s.c.pos < |s.setup.stream| { ReceivedReads(s, []); }
  }

  lemma ReceivedAlive(s: State)
    requires CanReceive(s)
    ensures Received(s).c.at != Dead
  {
    hide BackedUp, Passed, Announce, Submit, Defer, Forget;
    if s.c.pos < |s.setup.stream| { ReceivedReads(s, []); }
  }

  lemma StaysAlive(s: State, step: Step)
    requires Enabled(s, step) && !step.Die? && s.c.at != Dead
    ensures Apply(s, step).c.at != Dead
  {
    hide Received, CanFinalize, CanTake, CanDrop, CanComplete, AfterPost, ChunksOf, Keep;
    match step
    case Receive => ReceivedAlive(s);
    case _ =>
  }

  // ------------------------------------------------------------------
  // A stream that is not well formed
  // ------------------------------------------------------------------

  /** What holds of a resumed run whose checkpoint has a table that the stream ends without
      announcing. */
  ghost predicate Stuck(s: State, t: string) {
    && t in s.c.completed && t in Completed(s.checkpoint) && t !in s.c.skipped && !s.setup.load
    && (forall i :: 0 <= i < |s.setup.stream| ==> s.setup.stream[i] != Schema(t))
    && (exists i :: 0 <= i < |s.setup.stream| && s.setup.stream[i].TableDone? && s.setup.stream[i].table == t)
    && (forall i ::
          0 <= i < s.c.pos && i < |s.setup.stream| && s.setup.stream[i].TableDone? && s.setup.stream[i].table == t
          ==> t in s.c.deferred)
    && !AfterLoads(s.c.at) && (s.c.at.Finishing? ==> s.c.pos >= |s.setup.stream|)
  }

  lemma StuckStep(s: State, step: Step, t: string)
    requires Stuck(s, t) && Enabled(s, step)
    ensures Stuck(Apply(s, step), t)
  {
    hide CanReceive, CanDrain, CanFinalize, CanEndDrain, CanTake, CanDrop, CanComplete, Stuck, BackedUp, AfterPost,
         ChunksOf, Keep;
    hide Received, Finalized;
    StuckPlace(s, t);
    StuckStops(s, step, t);
    match step
    case Receive => StuckReceive(s, t);
    case Finalize(u) => StuckFinalize(s, u, t);
    case BeginRestore =>
    case Replace(_) =>
    case DropBackup =>
    case BeginPost =>
    case RunPost =>
    case Cleanup =>
    case _ => StuckFrame(s, Apply(s, step), t);
  }

  /** The loop is not past the restore, and cannot get there while the table is deferred. */
  lemma StuckStops(s: State, step: Step, t: string)
    requires Stuck(s, t) && Enabled(s, step)
    ensures !step.BeginRestore? && !step.Replace? && !step.DropBackup? && !step.BeginPost? && !step.RunPost?
            && !step.Cleanup?
  {
    hide CanReceive, CanDrain, CanFinalize, CanEndDrain, CanTake, CanDrop, CanComplete;
  }

  lemma StuckPlace(s: State, t: string)
    requires Stuck(s, t)
    ensures !AfterLoads(s.c.at)
  {
  }

  lemma StuckFrame(s: State, s': State, t: string)
    requires Stuck(s, t) && s'.setup == s.setup && s'.checkpoint == s.checkpoint && !AfterLoads(s'.c.at)
    requires s'.c.completed == s.c.completed && s'.c.skipped == s.c.skipped && s'.c.pos == s.c.pos
             && s'.c.deferred == s.c.deferred
    requires s'.c.at.Finishing? ==> s.c.at.Finishing?
    ensures Stuck(s', t)
  {
  }

  lemma StuckFinalize(s: State, u: string, t: string)
    requires Stuck(s, t) && CanFinalize(s, u)
    ensures Stuck(Finalized(s, u), t)
  {
    hide Ready, ChunksOf;
  }

  lemma StuckReceive(s: State, t: string)
    requires Stuck(s, t) && CanReceive(s)
    ensures Stuck(Received(s), t)
  {
    hide BackedUp, Passed, Announce, Submit, Defer, Forget, Completed, DdlDone;
    if s.c.pos < |s.setup.stream| { ReceivedReads(s, t); }
  }

  lemma {:induction false} StaysStuck(s: State, actions: seq<Action>, s': State, t: string)
    requires Stuck(s, t) && History(s, actions, s') && forall i :: 0 <= i < |actions| ==> actions[i].Do?
    ensures Stuck(s', t)
    decreases |actions|
  {
    hide Stuck, Enabled, Apply;
    if actions != [] {
      StuckStep(s, actions[0].step, t);
      StaysStuck(Act(s, actions[0]), actions[1..], s', t);
    }
  }

  /** A doomed run is stuck from its start. */
  lemma DoomedIsStuck(s: State, t: string)
    requires Inv(s) && !Idle(s) && t in s.c.completed && PhaseOf(s.setup.stream, t).Bare?
    ensures Stuck(s, t)
  {
    hide LoadsOf, LoadedOf, ChunksOf, BoundOk, WaitsOk, Orderly, TableOk, CompleteOk, PoolOk;
    BareStream(s.setup.stream, t);
    assert PerTableOk(s, t);
    GoodPrefix(s.setup.stream, s.c.pos, t);
    BareSoFar(s.setup.stream, s.c.pos, t);
    LoadIsFresh(s);
  }

  /** A table ended without a schema has an end, and no schema. */
  lemma {:induction false} BareStream(ms: seq<Msg>, t: string)
    requires PhaseOf(ms, t).Bare?
    ensures forall i :: 0 <= i < |ms| ==> ms[i] != Message.Schema(t)
    ensures exists i :: 0 <= i < |ms| && ms[i].TableDone? && ms[i].table == t
  {
    var n := |ms| - 1;
    if ms[n].table == t {
      Unbegun(ms[..n], t);
      assert ms[n].TableDone?;
    } else {
      BareStream(ms[..n], t);
      var i :| 0 <= i < n && ms[..n][i].TableDone? && ms[..n][i].table == t;
      assert ms[i].TableDone? && ms[i].table == t;
    }
    forall i | 0 <= i < |ms| ensures ms[i] != Message.Schema(t) {
      if i < n { assert ms[i] == ms[..n][i]; }
    }
  }

  lemma {:induction false} Unbegun(ms: seq<Msg>, t: string)
    requires PhaseOf(ms, t).Absent?
    ensures forall i :: 0 <= i < |ms| ==> ms[i].table != t
  {
    if ms != [] {
      Unbegun(ms[..|ms| - 1], t);
      forall i | 0 <= i < |ms| ensures ms[i].table != t { if i < |ms| - 1 { assert ms[i] == ms[..|ms| - 1][i]; } }
    }
  }

  /** Once its end has been read, it shows. */
  lemma BareSoFar(ms: seq<Msg>, n: nat, t: string)
    requires n <= |ms| && PhaseOf(ms, t).Bare?
    ensures !Begun(PhaseOf(ms[..n], t))
    ensures (exists i :: 0 <= i < n && ms[i].TableDone? && ms[i].table == t) ==> PhaseOf(ms[..n], t).Bare?
  {
    GoodPrefix(ms, n, t);
    if PhaseOf(ms[..n], t).Absent? {
      Unbegun(ms[..n], t);
      forall i | 0 <= i < n ensures ms[i].table != t { assert ms[i] == ms[..n][i]; }
    }
  }

  lemma {:induction false} RunStaysStuck(run: nat -> State, i: nat, t: string)
    requires Stuck(run(0), t) && forall k: nat :: Follows(run(k), run(k + 1))
    ensures Stuck(run(i), t)
  {
    hide Stuck, Enabled, Apply;
    if i > 0 {
      RunStaysStuck(run, i - 1, t);
      assert Follows(run(i - 1), run(i - 1 + 1));
      if CanMove(run(i - 1)) {
        var step: Step :| !step.Die? && Enabled(run(i - 1), step) && run(i) == Apply(run(i - 1), step);
        StuckStep(run(i - 1), step, t);
      }
    }
  }

  lemma NeverEnds(run: nat -> State)
    requires Inv(run(0)) && !Idle(run(0)) && Doomed(run(0)) && forall k: nat :: Follows(run(k), run(k + 1))
    ensures !Ends(run)
  {
    hide Inv, Follows, Stuck;
    var t :| t in run(0).c.completed && PhaseOf(run(0).setup.stream, t).Bare?;
    DoomedIsStuck(run(0), t);
    forall n: nat ensures !run(n).c.at.Finished? && !MissingTables(run(n)) {
      RunStaysStuck(run, n, t);
      StuckPlace(run(n), t);
    }
  }

  /** A table that is fetched but has no matching rows ends without a schema. Once such a table
      is in the checkpoint, a resumed run that is sent the same stream never gets to the
      restore: its checkpoint entry cannot be inserted again. */
  lemma ResumeNeverEnds(s: State, setup: Setup, t: string, actions: seq<Action>, s': State)
    requires CanStart(s, setup, true, false) && HasPreviousState(s) && t in Completed(s.checkpoint)
    requires forall i :: 0 <= i < |setup.stream| ==> setup.stream[i] != Schema(t)
    requires exists i :: 0 <= i < |setup.stream| && setup.stream[i] == TableDone(t, 0)
    requires History(Started(s, setup, false), actions, s') && forall i :: 0 <= i < |actions| ==> actions[i].Do?
    ensures !AfterLoads(s'.c.at) && t in Completed(s'.checkpoint)
  {
    hide History;
    StaysStuck(Started(s, setup, false), actions, s', t);
  }
}
