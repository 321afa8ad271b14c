/** What every step of the import machine keeps. */
module ImportInvariants {
  import opened Bytes
  import opened Streams
  import opened LocalDb
  import opened ImportMachine

  // ------------------------------------------------------------------
  // The loader pool
  // ------------------------------------------------------------------

  /** The chunks of a table among the submitted jobs, in order. */
  ghost function LoadsOf(jobs: seq<Job>, t: string): seq<Rows> {
    if jobs == [] then []
    else
      var j := jobs[|jobs| - 1];
      LoadsOf(jobs[..|jobs| - 1], t) + if j.LoadData? && j.table == t then [j.data] else []
  }

  /** Those of them whose load has finished. */
  ghost function LoadedOf(jobs: seq<Job>, finished: set<nat>, t: string): multiset<Rows> {
    if jobs == [] then multiset{}
    else
      var n := |jobs| - 1;
      LoadedOf(jobs[..n], finished, t) + if n in finished then Share(jobs[n], t) else multiset{}
  }

  ghost function Share(j: Job, t: string): multiset<Rows> {
    if j.LoadData? && j.table == t then multiset{j.data} else multiset{}
  }

  /** Jobs leave the queue in order; a table has one CREATE; no chunk was submitted before its
      table's CREATE had finished; a job the loop waits on is the right one, and every job is
      finished or still waited on. */
  ghost predicate PoolOk(c: Client) {
    && c.taken <= |c.jobs|
    && (forall j :: j in c.finished || j in c.dropped ==> j < c.taken)
    && (forall t :: t in c.created ==> c.created[t] < |c.jobs| && c.jobs[c.created[t]] == CreateTable(t))
    && (forall j :: 0 <= j < |c.jobs| && c.jobs[j].CreateTable? ==>
          c.jobs[j].table in c.created && c.created[c.jobs[j].table] == j)
    && (forall j :: 0 <= j < |c.jobs| && c.jobs[j].LoadData? ==>
          c.jobs[j].table in c.created && c.created[c.jobs[j].table] in c.finished)
    && (forall j :: j in c.dropped ==> c.jobs[j].CreateTable?)
    && (forall j :: j in c.finished && c.jobs[j].CreateTable? ==> j in c.dropped)
  }

  ghost predicate WaitsOk(c: Client) {
    && (forall t :: t in c.ddls ==> t in c.created && c.ddls[t] == c.created[t])
    && (forall t :: t in c.created ==> t in c.ddls || c.created[t] in c.finished)
    && (forall i :: 0 <= i < |c.loads| ==> c.loads[i] < |c.jobs| && c.jobs[c.loads[i]].LoadData?)
    && (forall j :: 0 <= j < |c.jobs| && c.jobs[j].LoadData? ==> j in c.finished || j in c.loads)
  }

  /** The message loop bounds what is in flight. */
  ghost predicate BoundOk(c: Client) {
    match c.at
    case Receiving => |c.loads| <= MAX_PENDING_CHUNKS
    case Draining(limited) => |c.loads| <= if limited then MAX_PENDING_CHUNKS + 1 else MAX_PENDING_CHUNKS
    case Swept(limited) => |c.loads| <= if limited then MAX_PENDING_CHUNKS + 1 else MAX_PENDING_CHUNKS
    case AwaitingOldest => |c.loads| == MAX_PENDING_CHUNKS + 1
    case _ => |c.loads| <= MAX_PENDING_CHUNKS + 1
  }

  // ------------------------------------------------------------------
  // The stream read so far
  // ------------------------------------------------------------------

  ghost function Seen(s: State): seq<Msg>
    requires s.c.pos <= |s.setup.stream|
  {
    s.setup.stream[..s.c.pos]
  }

  /** The loop's maps agree with the prefix read: a table announced is skipped, or created once
      and given every chunk read so far; a deferred one has ended, announced or not. */
  ghost predicate ReadOk(s: State, t: string)
    requires s.c.pos <= |s.setup.stream|
  {
    var c, ph := s.c, PhaseOf(Seen(s), t);
    && !ph.Broken?
    && (t in c.created <==> Begun(ph) && t !in c.completed)
    && (t in c.skipped <==> Begun(ph) && t in c.completed)
    && (t in c.created ==> LoadsOf(c.jobs, t) == ChunksOf(Seen(s), t))
    && (t in c.created && ph.Open? ==> t in c.schemas)
    && (t in c.schemas && s.setup.load ==> ph.Open?)
    && (t in c.deferred ==>
          || (t in c.created && c.created[t] in c.finished && ph.Ended? && c.deferred[t] == ph.rows)
          || (ph.Bare? && c.deferred[t] == 0))
  }

  // ------------------------------------------------------------------
  // Tables and checkpoint
  // ------------------------------------------------------------------

  ghost predicate AfterLoads(at: Where) { at.Restoring? || at.Replaced? || at.Posting? || at.Finished? }

  /** A table under construction holds exactly the chunks whose loads have finished; any other
      is as it was when the run started. */
  ghost predicate TableOk(s: State, t: string)
    requires PoolOk(s.c)
  {
    if t in s.c.created then
      var id := s.c.created[t];
      && (id in s.c.dropped && id !in s.c.finished ==> t !in s.tables)
      && (id in s.c.finished ==> t in s.tables && multiset(s.tables[t].loads) == LoadedOf(s.c.jobs, s.c.finished, t))
    else LoadsIn(s.tables, t) == LoadsIn(s.before, t)
  }

  /** The table holds what it was completed with. */
  ghost predicate HoldsCompletion(s: State, t: string, done: Completion) {
    match done
    case Rebuilt(chunks, _) => t in s.tables && multiset(s.tables[t].loads) == multiset(chunks)
    case LeftAlone(loads) => LoadsIn(s.tables, t) == loads
  }

  /** A checkpointed table holds what it was completed with: exactly the chunks of the run that
      completed it, counted as its end told, or, ended unannounced, what it held before that run, and
      a count of zero. */
  ghost predicate CompleteOk(s: State, t: string) {
    t in Completed(s.checkpoint) ==>
      && t in s.done
      && (!s.posted && !s.edited ==> HoldsCompletion(s, t, s.done[t]))
      && s.checkpoint.value[t] == if s.done[t].Rebuilt? then s.done[t].rows else 0
  }

  /** Tables are checkpointed by this run only after their last chunk; until then they are
      deferred. A table that an earlier run checkpointed and that is ended unannounced stays
      deferred for good. */
  ghost predicate CheckpointOk(s: State, t: string)
    requires s.c.pos <= |s.setup.stream|
  {
    var c := s.c;
    && (t in c.created && t in Completed(s.checkpoint) ==>
          && c.created[t] in c.finished
          && (forall j :: 0 <= j < |c.jobs| && c.jobs[j].LoadData? && c.jobs[j].table == t ==> j in c.finished)
          && PhaseOf(Seen(s), t).Ended? && t !in c.deferred && t in s.done && s.done[t] == Sent(s.setup.stream, t))
    && ((t in c.created && PhaseOf(Seen(s), t).Ended? && !s.setup.load && !c.at.Finished?)
        ==> t in c.deferred || t in Completed(s.checkpoint))
    && (PhaseOf(Seen(s), t).Bare? && t in c.completed ==> t in c.deferred && !AfterLoads(c.at))
    && ((PhaseOf(Seen(s), t).Bare? && !s.setup.load && !c.at.Finished?)
        ==> t in c.deferred || t in Completed(s.checkpoint))
    && (t in Completed(s.checkpoint) && t !in c.created && t !in c.completed
        ==> PhaseOf(Seen(s), t).Bare? && t !in c.deferred)
    && (t in c.completed && !c.at.Finished? ==> t in Completed(s.checkpoint))
  }

  ghost predicate EndOk(s: State) {
    && (s.posted && !Idle(s) ==> s.c.at.Posting?)
    && (!Idle(s) ==> s.setup.workers > 0)
    && (s.c.at.Posting? ==> s.c.at.next <= |s.setup.post|)
    && (s.c.at.Finishing? || AfterLoads(s.c.at) ==> s.c.pos == |s.setup.stream|)
    && (AfterLoads(s.c.at) ==> s.c.ddls == map[] && s.c.loads == [] && s.c.deferred == map[])
    && (s.c.at.Posting? || s.c.at.Finished? ==> s.backups == map[])
    && (s.c.at.Replaced? ==> s.c.at.table in s.backups)
    && (s.setup.load ==> s.checkpoint == None && s.c.deferred == map[] && s.c.completed == {})
    && (!s.setup.load && !Idle(s) ==> s.checkpoint.Some?)
  }

  /** The invariants that do not speak of one table at a time. */
  ghost predicate ShapeOk(s: State) {
    && PoolOk(s.c) && WaitsOk(s.c) && BoundOk(s.c) && EndOk(s)
    && Orderly(s.setup.stream) && s.c.pos <= |s.setup.stream|
  }

  ghost predicate PerTableOk(s: State, t: string) {
    && PoolOk(s.c) && s.c.pos <= |s.setup.stream|
    && ReadOk(s, t) && CompleteOk(s, t) && CheckpointOk(s, t)
    && (!s.posted ==> TableOk(s, t))
  }

  ghost predicate Inv(s: State) {
    ShapeOk(s) && forall t :: PerTableOk(s, t)
  }

  // ------------------------------------------------------------------
  // Small facts
  // ------------------------------------------------------------------

  lemma LoadsOfAppend(jobs: seq<Job>, j: Job, t: string)
    ensures LoadsOf(jobs + [j], t) == LoadsOf(jobs, t) + if j.LoadData? && j.table == t then [j.data] else []
  {
    assert (jobs + [j])[..|jobs|] == jobs;
  }

  lemma LoadedOfAppend(jobs: seq<Job>, j: Job, finished: set<nat>, t: string)
    requires |jobs| !in finished
    ensures LoadedOf(jobs + [j], finished, t) == LoadedOf(jobs, finished, t)
  {
    assert (jobs + [j])[..|jobs|] == jobs;
  }

  lemma {:induction false} LoadedOfFinish(jobs: seq<Job>, finished: set<nat>, j: nat, t: string)
    requires j < |jobs| && j !in finished
    ensures LoadedOf(jobs, finished + {j}, t) == LoadedOf(jobs, finished, t) + Share(jobs[j], t)
  {
    hide Share;
    var n, more := |jobs| - 1, finished + {j};
    var last := if n in finished then Share(jobs[n], t) else multiset{};
    if j == n {
      LoadedOfIrrelevant(jobs[..n], finished, more, t);
    } else {
      LoadedOfFinish(jobs[..n], finished, j, t);
      assert LoadedOf(jobs, more, t) == LoadedOf(jobs[..n], more, t) + last;
    }
  }

  lemma {:induction false} LoadedOfIrrelevant(jobs: seq<Job>, a: set<nat>, b: set<nat>, t: string)
    requires forall j :: 0 <= j < |jobs| ==> (j in a <==> j in b)
    ensures LoadedOf(jobs, a, t) == LoadedOf(jobs, b, t)
  {
    if jobs != [] { LoadedOfIrrelevant(jobs[..|jobs| - 1], a, b, t); }
  }

  /** When every load of the table has finished, all its chunks are in, once each. */
  lemma {:induction false} AllLoaded(jobs: seq<Job>, finished: set<nat>, t: string)
    requires forall j :: 0 <= j < |jobs| && jobs[j].LoadData? && jobs[j].table == t ==> j in finished
    ensures LoadedOf(jobs, finished, t) == multiset(LoadsOf(jobs, t))
  {
    if jobs != [] {
      var n := |jobs| - 1;
      AllLoaded(jobs[..n], finished, t);
    }
  }

  lemma ChunksOfAppend(ms: seq<Msg>, m: Msg, t: string)
    ensures ChunksOf(ms + [m], t) == ChunksOf(ms, t) + if m.Data? && m.table == t then [m.data] else []
  {
    assert (ms + [m])[..|ms|] == ms;
  }

  /** A prefix of a stream that ends well never shows a broken table, and a table that shows
      ended without a schema stays so. */
  lemma {:induction false} GoodPrefix(ms: seq<Msg>, n: nat, t: string)
    requires n <= |ms|
    ensures PhaseOf(ms[..n], t).Broken? ==> PhaseOf(ms, t).Broken?
    ensures PhaseOf(ms[..n], t).Bare? ==> PhaseOf(ms, t).Broken? || PhaseOf(ms, t).Bare?
    ensures Begun(PhaseOf(ms[..n], t)) ==> Begun(PhaseOf(ms, t)) || PhaseOf(ms, t).Broken?
    decreases |ms| - n
  {
    if n == |ms| {
      assert ms[..n] == ms;
    } else {
      assert ms[..n + 1] == ms[..n] + [ms[n]];
      PhaseOfAppend(ms[..n], ms[n], t);
      GoodPrefix(ms, n + 1, t);
    }
  }

  lemma ReadOne(s: State)
    requires s.c.pos < |s.setup.stream|
    ensures s.setup.stream[..s.c.pos + 1] == Seen(s) + [s.setup.stream[s.c.pos]]
  {
  }

  lemma {:induction false} KeepFacts(loads: seq<nat>, gone: set<nat>)
    ensures |Keep(loads, gone)| <= |loads|
    ensures forall j :: j in Keep(loads, gone) <==> j in loads && j !in gone
    ensures forall i :: 0 <= i < |Keep(loads, gone)| ==> Keep(loads, gone)[i] in loads
  {
    if loads != [] { KeepFacts(loads[1..], gone); }
  }
}
