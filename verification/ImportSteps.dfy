/** Each step of the import machine keeps the invariants. */
module ImportSteps {
  import opened Bytes
  import opened Streams
  import opened LocalDb
  import opened ImportMachine
  import opened ImportInvariants

  // ------------------------------------------------------------------
  // Steps that change only what the loop waits for
  // ------------------------------------------------------------------

  ghost predicate OnlyWaits(s: State, s': State) {
    && s'.setup == s.setup && s'.tables == s.tables && s'.checkpoint == s.checkpoint && s'.done == s.done
    && s'.before == s.before && s'.posted == s.posted && s'.edited == s.edited
    && s'.c.pos == s.c.pos && s'.c.created == s.c.created && s'.c.jobs == s.c.jobs && s'.c.finished == s.c.finished
    && s'.c.dropped == s.c.dropped && s'.c.completed == s.c.completed && s'.c.skipped == s.c.skipped
    && s'.c.schemas == s.c.schemas && s'.c.deferred == s.c.deferred
    && (s'.c.at.Finished? <==> s.c.at.Finished?)
    && (AfterLoads(s'.c.at) && !AfterLoads(s.c.at) ==> s.c.deferred == map[])
  }

  lemma SameTableFacts(s: State, s': State, t: string)
    requires PerTableOk(s, t) && PoolOk(s'.c) && OnlyWaits(s, s')
    ensures PerTableOk(s', t)
  {
    hide LoadsOf, LoadedOf, PhaseOf, ChunksOf, PoolOk;
  }

  lemma ShapeIsPool(s: State)
    requires ShapeOk(s)
    ensures PoolOk(s.c)
  {
    hide PoolOk, WaitsOk, BoundOk, EndOk, Orderly;
  }

  lemma WaitingKeeps(s: State, s': State)
    requires Inv(s) && OnlyWaits(s, s') && ShapeOk(s')
    ensures Inv(s')
  {
    hide ShapeOk, PerTableOk, OnlyWaits;
    ShapeIsPool(s');
    forall t ensures PerTableOk(s', t) {
      assert PerTableOk(s, t);
      SameTableFacts(s, s', t);
    }
  }

  lemma SamePool(c: Client, c': Client)
    requires PoolOk(c) && c'.taken == c.taken && c'.jobs == c.jobs && c'.finished == c.finished
             && c'.dropped == c.dropped
    requires c'.created == c.created
    ensures PoolOk(c')
  {
  }

  /** The loop forgets a wait only for a job that has finished. */
  lemma FewerWaits(c: Client, c': Client)
    requires PoolOk(c) && WaitsOk(c)
    requires c'.jobs == c.jobs && c'.finished == c.finished && c'.created == c.created
    requires forall t :: t in c'.ddls ==> t in c.ddls && c'.ddls[t] == c.ddls[t]
    requires forall t :: t in c.ddls && t !in c'.ddls ==> c.ddls[t] in c.finished
    requires forall j :: j in c'.loads ==> j in c.loads
    requires forall j :: j in c.loads && j !in c'.loads ==> j in c.finished
    ensures WaitsOk(c')
  {
    hide PoolOk;
    forall i | 0 <= i < |c'.loads| ensures c'.loads[i] < |c.jobs| && c.jobs[c'.loads[i]].LoadData? {
      assert c'.loads[i] in c'.loads;
    }
  }

  lemma TakeKeeps(s: State)
    requires Inv(s) && CanTake(s)
    ensures Inv(s.(c := s.c.(taken := s.c.taken + 1)))
  {
    hide PerTableOk, Orderly;
    WaitingKeeps(s, s.(c := s.c.(taken := s.c.taken + 1)));
  }

  lemma DrainKeeps(s: State, gone: set<nat>)
    requires Inv(s) && CanDrain(s.c, gone)
    ensures Inv(s.(c := Drained(s.c, gone)))
  {
    hide PerTableOk, Orderly, PoolOk, WaitsOk, Keep;
    var s' := s.(c := Drained(s.c, gone));
    KeepFacts(s.c.loads, gone);
    SamePool(s.c, s'.c);
    FewerWaits(s.c, s'.c);
    WaitingKeeps(s, s');
  }

  lemma EndDrainKeeps(s: State)
    requires Inv(s) && CanEndDrain(s.c)
    ensures Inv(s.(c := EndedDrain(s.c)))
  {
    hide PerTableOk, Orderly, PoolOk, WaitsOk, Ready;
    var s' := s.(c := EndedDrain(s.c));
    SamePool(s.c, s'.c);
    FewerWaits(s.c, s'.c);
    WaitingKeeps(s, s');
  }

  lemma FirstLoad(c: Client, c': Client)
    requires PoolOk(c) && WaitsOk(c) && OldestDone(c)
    requires c' == c.(loads := c.loads[1..], at := c'.at)
    ensures PoolOk(c') && WaitsOk(c')
  {
    hide PoolOk, WaitsOk;
    SamePool(c, c');
    FewerWaits(c, c');
  }

  lemma TakeOldestKeeps(s: State)
    requires Inv(s) && s.c.at.AwaitingOldest? && OldestDone(s.c)
    ensures Inv(s.(c := TookOldest(s.c)))
  {
    hide PerTableOk, Orderly, PoolOk, WaitsOk;
    var s' := s.(c := TookOldest(s.c));
    FirstLoad(s.c, s'.c);
    WaitingKeeps(s, s');
  }

  lemma FinishLoadKeeps(s: State)
    requires Inv(s) && CanFinishLoad(s.c)
    ensures Inv(s.(c := s.c.(loads := s.c.loads[1..])))
  {
    hide PerTableOk, Orderly, PoolOk, WaitsOk;
    var s' := s.(c := s.c.(loads := s.c.loads[1..]));
    FirstLoad(s.c, s'.c);
    WaitingKeeps(s, s');
  }

  lemma FinishDdlKeeps(s: State, t: string)
    requires Inv(s) && CanFinishDdl(s.c, t)
    ensures Inv(s.(c := s.c.(ddls := s.c.ddls - {t})))
  {
    hide PerTableOk, Orderly, PoolOk, WaitsOk;
    var s' := s.(c := s.c.(ddls := s.c.ddls - {t}));
    SamePool(s.c, s'.c);
    FewerWaits(s.c, s'.c);
    WaitingKeeps(s, s');
  }

  /** The loop moves on without changing anything else. */
  lemma MovesKeep(s: State, backups: map<string, Rows>, at: Where)
    requires Inv(s) && !s.c.at.Finished? && !at.Finished? && BoundOk(s.c.(at := at))
    requires AfterLoads(at) && !AfterLoads(s.c.at) ==> s.c.deferred == map[]
    requires EndOk(s.(backups := backups, c := s.c.(at := at)))
    ensures Inv(s.(backups := backups, c := s.c.(at := at)))
  {
    hide PerTableOk, Orderly, PoolOk, WaitsOk, EndOk, BoundOk;
    var s' := s.(backups := backups, c := s.c.(at := at));
    SamePool(s.c, s'.c);
    FewerWaits(s.c, s'.c);
    WaitingKeeps(s, s');
  }

  // ------------------------------------------------------------------
  // Workers
  // ------------------------------------------------------------------

  lemma DropShape(s: State, j: nat)
    requires ShapeOk(s) && CanDrop(s, j)
    ensures ShapeOk(DroppedTable(s, j))
  {
    hide Orderly;
  }

  lemma DropTable(s: State, j: nat, t: string)
    requires PerTableOk(s, t) && CanDrop(s, j) && PoolOk(DroppedTable(s, j).c)
    ensures PerTableOk(DroppedTable(s, j), t)
  {
    hide LoadsOf, LoadedOf, PhaseOf, ChunksOf;
  }

  lemma DropKeeps(s: State, j: nat)
    requires Inv(s) && CanDrop(s, j)
    ensures Inv(DroppedTable(s, j))
  {
    DropShape(s, j);
    hide ShapeOk, PerTableOk, DroppedTable, CanDrop;
    ShapeIsPool(DroppedTable(s, j));
    forall t ensures PerTableOk(DroppedTable(s, j), t) {
      assert PerTableOk(s, t);
      DropTable(s, j, t);
    }
  }

  lemma DonePool(c: Client, j: nat)
    requires PoolOk(c) && WaitsOk(c) && Running(c, j) && (c.jobs[j].CreateTable? ==> j in c.dropped)
    ensures PoolOk(c.(finished := c.finished + {j})) && WaitsOk(c.(finished := c.finished + {j}))
  {
  }

  lemma DoneShape(s: State, j: nat)
    requires ShapeOk(s) && CanComplete(s, j)
    ensures ShapeOk(CompletedJob(s, j))
  {
    hide Orderly, PoolOk, WaitsOk;
    DonePool(s.c, j);
  }

  lemma DoneRest(s: State, j: nat, t: string)
    requires PerTableOk(s, t) && CanComplete(s, j) && PoolOk(CompletedJob(s, j).c)
    ensures ReadOk(CompletedJob(s, j), t) && CheckpointOk(CompletedJob(s, j), t)
  {
    hide LoadsOf, LoadedOf, PhaseOf, ChunksOf, TableOk, CompleteOk, PoolOk;
  }

  lemma DoneComplete(s: State, j: nat, t: string)
    requires PerTableOk(s, t) && CanComplete(s, j) && PoolOk(CompletedJob(s, j).c)
    ensures CompleteOk(CompletedJob(s, j), t)
  {
    hide LoadsOf, LoadedOf, PhaseOf, ChunksOf, TableOk, ReadOk;
  }

  lemma DoneLoads(s: State, j: nat, t: string)
    requires PoolOk(s.c) && TableOk(s, t) && CanComplete(s, j) && PoolOk(CompletedJob(s, j).c)
    ensures TableOk(CompletedJob(s, j), t)
  {
    hide LoadedOf;
    LoadedOfFinish(s.c.jobs, s.c.finished, j, t);
    if s.c.jobs[j] == CreateTable(t) { FirstLoads(s.c, t); }
  }

  lemma DoneKeeps(s: State, j: nat)
    requires Inv(s) && CanComplete(s, j)
    ensures Inv(CompletedJob(s, j))
  {
    DoneShape(s, j);
    ShapeIsPool(CompletedJob(s, j));
    hide ShapeOk, PoolOk, CanComplete, LoadedOf, LoadsOf, ReadOk, CompleteOk, CheckpointOk, TableOk;
    forall t ensures PerTableOk(CompletedJob(s, j), t) {
      assert PerTableOk(s, t);
      DoneRest(s, j, t);
      DoneComplete(s, j, t);
      if !s.posted { DoneLoads(s, j, t); }
    }
  }

  /** No load of a table has finished before its CREATE has. */
  lemma FirstLoads(c: Client, t: string)
    requires PoolOk(c) && t in c.created && c.created[t] !in c.finished
    ensures LoadedOf(c.jobs, c.finished, t) == multiset{}
  {
    NoneLoaded(c.jobs, c.finished, t);
  }

  lemma {:induction false} NoneLoaded(jobs: seq<Job>, finished: set<nat>, t: string)
    requires forall j :: 0 <= j < |jobs| ==> !(jobs[j].LoadData? && jobs[j].table == t)
    ensures LoadedOf(jobs, finished, t) == multiset{} && LoadsOf(jobs, t) == []
  {
    if jobs != [] { NoneLoaded(jobs[..|jobs| - 1], finished, t); }
  }

  // ------------------------------------------------------------------
  // Messages
  // ------------------------------------------------------------------

  lemma PrefixStep(s: State, t: string)
    requires Orderly(s.setup.stream) && s.c.pos < |s.setup.stream|
    ensures var m := s.setup.stream[s.c.pos];
            var before, after := PhaseOf(Seen(s), t), PhaseOf(s.setup.stream[..s.c.pos + 1], t);
            && after == (if m.table == t then Advance(before, m) else before)
            && !after.Broken?
            && ChunksOf(s.setup.stream[..s.c.pos + 1], t) ==
               ChunksOf(Seen(s), t) + if m.Data? && m.table == t then [m.data] else []
  {
    var m := s.setup.stream[s.c.pos];
    ReadOne(s);
    PhaseOfAppend(Seen(s), m, t);
    ChunksOfAppend(Seen(s), m, t);
    GoodPrefix(s.setup.stream, s.c.pos + 1, t);
  }

  /** The next message is read and is not about a table an earlier run completed. */
  ghost predicate Acted(s: State) {
    CanReceive(s) && s.c.pos < |s.setup.stream| && !Passed(s.c, s.setup.stream[s.c.pos])
  }

  function Next(s: State): Msg
    requires s.c.pos < |s.setup.stream|
  {
    s.setup.stream[s.c.pos]
  }

  lemma ActedTable(s: State)
    requires Inv(s) && Acted(s)
    ensures var m := Next(s);
            && (m.Schema? ==> m.table !in s.c.created && m.table !in s.c.completed && PhaseOf(Seen(s), m.table).Absent?)
            && (m.Data? || (m.TableDone? && !PhaseOf(Seen(s), m.table).Absent?) ==>
                  && m.table in s.c.created && m.table in s.c.schemas && s.c.created[m.table] in s.c.finished
                  && PhaseOf(Seen(s), m.table).Open? && m.table !in Completed(s.checkpoint) && m.table !in s.c.deferred)
            && (m.TableDone? && m.table in s.c.created ==> !PhaseOf(Seen(s), m.table).Absent?)
            && (m.TableDone? ==> m.table !in s.c.deferred && EndFits(PhaseOf(Seen(s), m.table), m.rows))
  {
    hide LoadsOf, LoadedOf, PhaseOf, ChunksOf, Orderly, TableOk, CompleteOk, PoolOk, EndOk, BoundOk;
    assert PerTableOk(s, Next(s).table);
    PrefixStep(s, Next(s).table);
  }

  /** The end of a table is the end of an open one, or of one that was never announced. */
  predicate EndFits(ph: Phase, rows: nat) { ph == Open(rows) || (ph.Absent? && rows == 0) }

  // A message passed over

  lemma PassShape(s: State)
    requires ShapeOk(s) && CanReceive(s) && s.c.pos < |s.setup.stream|
    ensures ShapeOk(s.(c := PassOver(s.c, Next(s))))
  {
    hide Orderly, PoolOk, WaitsOk, Passed;
    var s' := s.(c := PassOver(s.c, Next(s)));
    SamePool(s.c, s'.c);
    FewerWaits(s.c, s'.c);
  }

  lemma PassTable(s: State, t: string)
    requires Inv(s) && CanReceive(s) && s.c.pos < |s.setup.stream| && Passed(s.c, Next(s))
    requires PoolOk(PassOver(s.c, Next(s)))
    ensures PerTableOk(s.(c := PassOver(s.c, Next(s))), t)
  {
    hide LoadsOf, LoadedOf, PhaseOf, ChunksOf, WaitsOk, BoundOk, EndOk, Orderly, TableOk, CompleteOk, PoolOk;
    hide ReadOk, CheckpointOk;
    assert PerTableOk(s, t);
    PassRead(s, t);
    PassCheckpoint(s, t);
    SameContents(s, s.(c := PassOver(s.c, Next(s))), t);
  }

  lemma PassRead(s: State, t: string)
    requires Inv(s) && CanReceive(s) && s.c.pos < |s.setup.stream| && Passed(s.c, Next(s))
    ensures ReadOk(s.(c := PassOver(s.c, Next(s))), t)
  {
    if Next(s).table == t { PassReadSame(s); } else { PassReadOther(s, t); }
  }

  lemma PassReadOther(s: State, t: string)
    requires Inv(s) && s.c.pos < |s.setup.stream| && Next(s).table != t
    ensures ReadOk(s.(c := PassOver(s.c, Next(s))), t)
  {
    hide LoadsOf, LoadedOf, PhaseOf, ChunksOf, WaitsOk, BoundOk, EndOk, Orderly, TableOk, CompleteOk, PoolOk;
    hide CheckpointOk;
    assert PerTableOk(s, t);
    PrefixStep(s, t);
  }

  lemma PassReadSame(s: State)
    requires Inv(s) && s.c.pos < |s.setup.stream| && Passed(s.c, Next(s))
    ensures ReadOk(s.(c := PassOver(s.c, Next(s))), Next(s).table)
  {
    LoadPassesNone(s);
    PassedIsCompleted(s);
    hide LoadsOf, LoadedOf, PhaseOf, ChunksOf, WaitsOk, BoundOk, EndOk, Orderly, TableOk, CompleteOk, PoolOk;
    hide CheckpointOk, Passed;
    assert PerTableOk(s, Next(s).table);
    PrefixStep(s, Next(s).table);
  }

  /** A message passed over is about a table that an earlier run completed, and announces it or comes
      after it was announced. */
  lemma PassedIsCompleted(s: State)
    requires Inv(s) && s.c.pos < |s.setup.stream| && Passed(s.c, Next(s))
    ensures var t := Next(s).table;
            t in s.c.completed && t !in s.c.created && (Next(s).Schema? || Begun(PhaseOf(Seen(s), t)))
  {
    hide LoadsOf, LoadedOf, PhaseOf, ChunksOf, WaitsOk, BoundOk, EndOk, Orderly, TableOk, CompleteOk, PoolOk;
    hide CheckpointOk;
    assert PerTableOk(s, Next(s).table);
  }

  lemma PassCheckpoint(s: State, t: string)
    requires Inv(s) && CanReceive(s) && s.c.pos < |s.setup.stream| && Passed(s.c, Next(s))
    ensures CheckpointOk(s.(c := PassOver(s.c, Next(s))), t)
  {
    hide LoadsOf, LoadedOf, PhaseOf, ChunksOf, WaitsOk, BoundOk, EndOk, Orderly, TableOk, CompleteOk, PoolOk;
    assert PerTableOk(s, t);
    PrefixStep(s, t);
  }

  lemma LoadPassesNone(s: State)
    requires ShapeOk(s)
    ensures s.setup.load ==> s.c.completed == {}
  {
    hide PoolOk, WaitsOk, BoundOk, Orderly;
  }

  lemma SameContents(s: State, s': State, t: string)
    requires PoolOk(s.c) && PoolOk(s'.c) && s'.before == s.before && s'.posted == s.posted && s'.edited == s.edited
             && CompleteOk(s, t) && (!s.posted ==> TableOk(s, t))
    requires s'.c.created == s.c.created && s'.c.jobs == s.c.jobs && s'.c.finished == s.c.finished
             && s'.c.dropped == s.c.dropped
    requires s'.checkpoint == s.checkpoint && s'.done == s.done && s'.tables == s.tables
    ensures CompleteOk(s', t) && (!s'.posted ==> TableOk(s', t))
  {
    hide LoadedOf, PoolOk;
  }

  lemma PassKeeps(s: State)
    requires Inv(s) && CanReceive(s) && s.c.pos < |s.setup.stream| && Passed(s.c, Next(s))
    ensures Inv(s.(c := PassOver(s.c, Next(s))))
  {
    PassShape(s);
    ShapeIsPool(s.(c := PassOver(s.c, Next(s))));
    hide ShapeOk, PerTableOk, CanReceive, Passed, Inv;
    forall t ensures PerTableOk(s.(c := PassOver(s.c, Next(s))), t) { PassTable(s, t); }
    Combine(s.(c := PassOver(s.c, Next(s))));
  }

  lemma Combine(s: State)
    requires ShapeOk(s) && forall t :: PerTableOk(s, t)
    ensures Inv(s)
  {
  }

  // A schema

  ghost function Announced(s: State, t: string): State { s.(backups := BackedUp(s, t), c := Announce(s.c, t)) }

  lemma AnnouncePool(c: Client, t: string)
    requires PoolOk(c) && WaitsOk(c) && t !in c.created
    ensures PoolOk(Announce(c, t)) && WaitsOk(Announce(c, t))
  {
    hide WaitsOk;
    AnnounceWaits(c, t);
    var c' := Announce(c, t);
    assert c'.jobs == c.jobs + [CreateTable(t)];
    forall j | 0 <= j < |c'.jobs|
      ensures c'.jobs[j].CreateTable? ==> c'.jobs[j].table in c'.created && c'.created[c'.jobs[j].table] == j
      ensures c'.jobs[j].LoadData? ==>
                c'.jobs[j].table in c'.created && c'.created[c'.jobs[j].table] in c'.finished
    {
      assert j < |c.jobs| ==> c'.jobs[j] == c.jobs[j];
    }
  }

  lemma AnnounceWaits(c: Client, t: string)
    requires WaitsOk(c) && t !in c.created
    requires forall u :: u in c.created ==> c.created[u] < |c.jobs|
    ensures WaitsOk(Announce(c, t))
  {
    assert Announce(c, t).jobs == c.jobs + [CreateTable(t)];
  }

  lemma AnnounceShape(s: State, t: string)
    requires ShapeOk(s) && s.c.at.Receiving? && s.c.pos < |s.setup.stream| && t !in s.c.created
    ensures ShapeOk(Announced(s, t))
  {
    hide Orderly, BackedUp, PoolOk, WaitsOk;
    AnnouncePool(s.c, t);
  }

  lemma AnnounceTable(s: State, u: string, t: string)
    requires PerTableOk(s, t) && Orderly(s.setup.stream) && s.c.pos < |s.setup.stream| && Next(s) == Schema(u)
    requires u !in s.c.created && u !in s.c.completed && PhaseOf(Seen(s), u).Absent?
    requires PoolOk(Announced(s, u).c)
    ensures PerTableOk(Announced(s, u), t)
  {
    hide LoadsOf, LoadedOf, PhaseOf, ChunksOf, Orderly, BackedUp;
    PrefixStep(s, t);
    LoadsOfAppend(s.c.jobs, CreateTable(u), t);
    LoadedOfAppend(s.c.jobs, CreateTable(u), s.c.finished, t);
    if t == u { NothingLoaded(s, u); }
    assert !s.posted ==> TableOk(Announced(s, u), t) by { hide ReadOk, CheckpointOk, CompleteOk; }
    hide TableOk;
    assert ReadOk(Announced(s, u), t) by { hide PoolOk, CheckpointOk, CompleteOk; }
  }

  lemma NothingLoaded(s: State, t: string)
    requires PoolOk(s.c) && s.c.pos <= |s.setup.stream| && t !in s.c.created && PhaseOf(Seen(s), t).Absent?
    ensures LoadsOf(s.c.jobs, t) == [] && ChunksOf(Seen(s), t) == []
  {
    NoneLoaded(s.c.jobs, s.c.finished, t);
    AbsentNoChunks(Seen(s), t);
  }

  lemma {:induction false} AbsentNoChunks(ms: seq<Msg>, t: string)
    ensures PhaseOf(ms, t).Absent? ==> ChunksOf(ms, t) == []
  {
    if ms != [] { AbsentNoChunks(ms[..|ms| - 1], t); }
  }

  lemma AnnounceKeeps(s: State, u: string)
    requires Inv(s) && Acted(s) && Next(s) == Schema(u)
    ensures Inv(Announced(s, u))
  {
    ActedTable(s);
    AnnounceShape(s, u);
    ShapeIsPool(Announced(s, u));
    hide ShapeOk, PerTableOk, Acted, Announced, PoolOk, WaitsOk;
    ShapeStream(s);
    forall t ensures PerTableOk(Announced(s, u), t) {
      assert PerTableOk(s, t);
      AnnounceTable(s, u, t);
    }
  }

  lemma ShapeStream(s: State)
    requires ShapeOk(s)
    ensures Orderly(s.setup.stream) && PoolOk(s.c) && WaitsOk(s.c)
  {
    hide PoolOk, WaitsOk, BoundOk, EndOk, Orderly;
  }

  // A chunk

  lemma SubmitPool(c: Client, t: string, data: Rows)
    requires PoolOk(c) && WaitsOk(c) && t in c.created && c.created[t] in c.finished
    ensures PoolOk(Submit(c, t, data)) && WaitsOk(Submit(c, t, data))
  {
    var c' := Submit(c, t, data);
    assert c'.jobs == c.jobs + [LoadData(t, data)];
    assert c'.loads == c.loads + [|c.jobs|];
    assert PoolOk(c') by { hide WaitsOk; }
    assert WaitsOk(c') by { SubmitWaits(c, t, data); }
  }

  lemma SubmitWaits(c: Client, t: string, data: Rows)
    requires WaitsOk(c) && t in c.created && c.created[t] in c.finished
    requires forall u :: u in c.created ==> c.created[u] < |c.jobs|
    ensures WaitsOk(Submit(c, t, data))
  {
    var c' := Submit(c, t, data);
    forall j | 0 <= j < |c'.jobs| && c'.jobs[j].LoadData? ensures j in c'.finished || j in c'.loads {
      if j < |c.jobs| { assert c.jobs[j] == c'.jobs[j]; } else { assert c'.loads[|c.loads|] == j; }
    }
  }

  lemma SubmitShape(s: State, t: string, data: Rows)
    requires ShapeOk(s) && s.c.at.Receiving? && s.c.pos < |s.setup.stream| && t in s.c.created
             && s.c.created[t] in s.c.finished
    ensures ShapeOk(s.(c := Submit(s.c, t, data)))
  {
    hide Orderly, PoolOk, WaitsOk;
    SubmitPool(s.c, t, data);
  }

  lemma SubmitTable(s: State, u: string, data: Rows, t: string)
    requires PerTableOk(s, t) && Orderly(s.setup.stream) && s.c.pos < |s.setup.stream|
    requires Next(s).Data? && Next(s).table == u && Next(s).data == data
    requires u in s.c.created && u !in Completed(s.checkpoint) && u !in s.c.deferred && u in s.c.schemas
    requires !s.c.at.Finished?
    requires PoolOk(Submit(s.c, u, data))
    ensures PerTableOk(s.(c := Submit(s.c, u, data)), t)
  {
    hide LoadsOf, LoadedOf, PhaseOf, ChunksOf, Orderly;
    PrefixStep(s, t);
    LoadsOfAppend(s.c.jobs, LoadData(u, data), t);
    LoadedOfAppend(s.c.jobs, LoadData(u, data), s.c.finished, t);
  }

  lemma SubmitKeeps(s: State)
    requires Inv(s) && Acted(s) && Next(s).Data?
    ensures Inv(s.(c := Submit(s.c, Next(s).table, Next(s).data)))
  {
    var u, data := Next(s).table, Next(s).data;
    var s' := s.(c := Submit(s.c, u, data));
    ActedTable(s);
    SubmitShape(s, u, data);
    ShapeIsPool(s');
    assert !s.c.at.Finished?;
    hide ShapeOk, PerTableOk, Acted, PoolOk, WaitsOk, Submit;
    ShapeStream(s);
    forall t ensures PerTableOk(s', t) {
      assert PerTableOk(s, t);
      SubmitTable(s, u, data, t);
    }
  }

  // A table's end

  lemma DoneMessageShape(s: State, c': Client)
    requires ShapeOk(s) && s.c.at.Receiving? && s.c.pos < |s.setup.stream| && Next(s).TableDone?
    requires Next(s).table in s.c.created ==> s.c.created[Next(s).table] in s.c.finished
    requires c' == if s.setup.load then Forget(s.c, Next(s).table) else Defer(s.c, Next(s).table, Next(s).rows)
    ensures ShapeOk(s.(c := c'))
  {
    hide Orderly, PoolOk, WaitsOk;
    SamePool(s.c, c');
    ShapeWaits(s, Next(s).table);
    FewerWaits(s.c, c');
  }

  lemma ShapeWaits(s: State, t: string)
    requires ShapeOk(s)
    ensures t in s.c.ddls ==> t in s.c.created && s.c.ddls[t] == s.c.created[t]
  {
    hide Orderly, PoolOk, BoundOk, EndOk;
  }

  lemma DoneMessageTable(s: State, c': Client, t: string)
    requires PerTableOk(s, t) && Orderly(s.setup.stream) && s.c.pos < |s.setup.stream| && Next(s).TableDone?
    requires Next(s).table in s.c.created ==>
               s.c.created[Next(s).table] in s.c.finished && Next(s).table !in Completed(s.checkpoint)
    requires EndFits(PhaseOf(Seen(s), Next(s).table), Next(s).rows) && Next(s).table !in s.c.deferred
    requires PhaseOf(Seen(s), Next(s).table).Open? ==> Next(s).table in s.c.created
    requires c' == if s.setup.load then Forget(s.c, Next(s).table) else Defer(s.c, Next(s).table, Next(s).rows)
    requires !s.c.at.Finished? && !AfterLoads(c'.at) && PoolOk(c') && (s.setup.load ==> s.c.completed == {})
    ensures PerTableOk(s.(c := c'), t)
  {
    hide LoadsOf, LoadedOf, PhaseOf, ChunksOf, Orderly, TableOk, CompleteOk, PoolOk;
    PrefixStep(s, t);
    SameContents(s, s.(c := c'), t);
  }

  lemma LoadIsFresh(s: State)
    requires ShapeOk(s)
    ensures s.setup.load ==> s.c.completed == {}
    ensures AfterLoads(s.c.at) ==> Seen(s) == s.setup.stream
  {
    hide PoolOk, WaitsOk, BoundOk, Orderly;
  }

  lemma DoneMessageKeeps(s: State, c': Client)
    requires Inv(s) && Acted(s) && Next(s).TableDone?
    requires c' == if s.setup.load then Forget(s.c, Next(s).table) else Defer(s.c, Next(s).table, Next(s).rows)
    ensures Inv(s.(c := c'))
  {
    hide ShapeOk, PerTableOk, PoolOk, WaitsOk;
    ActedTable(s);
    LoadIsFresh(s);
    DoneMessageShape(s, c');
    ShapeIsPool(s.(c := c'));
    ShapeStream(s);
    forall t ensures PerTableOk(s.(c := c'), t) {
      assert PerTableOk(s, t);
      DoneMessageTable(s, c', t);
    }
  }

  lemma ReceiveKeeps(s: State)
    requires Inv(s) && CanReceive(s)
    ensures Inv(Received(s))
  {
    hide Inv, BackedUp;
    if s.c.pos >= |s.setup.stream| {
      EndOfStream(s);
    } else if Passed(s.c, Next(s)) {
      PassKeeps(s);
    } else {
      match Next(s)
      case Schema(u) => AnnounceKeeps(s, u);
      case Data(u, rows, data) => SubmitKeeps(s);
      case TableDone(u, rows) => DoneMessageKeeps(s, Received(s).c);
    }
  }

  lemma EndOfStream(s: State)
    requires Inv(s) && s.c.at.Receiving? && s.c.pos >= |s.setup.stream|
    ensures Inv(s.(c := s.c.(at := Finishing)))
  {
    hide PerTableOk, Orderly, PoolOk, WaitsOk;
    MovesKeep(s, s.backups, Finishing);
  }

  // ------------------------------------------------------------------
  // Checkpointing
  // ------------------------------------------------------------------

  /** Nothing of a table follows its end. */
  lemma {:induction false} EndedChunks(ms: seq<Msg>, n: nat, t: string)
    requires n <= |ms| && PhaseOf(ms[..n], t).Ended? && !PhaseOf(ms, t).Broken?
    ensures ChunksOf(ms, t) == ChunksOf(ms[..n], t) && PhaseOf(ms, t) == PhaseOf(ms[..n], t)
    decreases |ms| - n
  {
    if n == |ms| {
      assert ms[..n] == ms;
    } else {
      assert ms[..n + 1] == ms[..n] + [ms[n]];
      PhaseOfAppend(ms[..n], ms[n], t);
      ChunksOfAppend(ms[..n], ms[n], t);
      GoodPrefix(ms, n + 1, t);
      if ms[n].table != t { EndedChunks(ms, n + 1, t); }
    }
  }

  /** A deferred table that was created and has no pending load holds all its chunks. */
  lemma ReadyIsComplete(s: State, t: string)
    requires Inv(s) && Ready(s.c, t) && t in s.c.created
    ensures s.c.created[t] in s.c.finished
    ensures forall j :: 0 <= j < |s.c.jobs| && s.c.jobs[j].LoadData? && s.c.jobs[j].table == t ==> j in s.c.finished
    ensures !s.posted ==> t in s.tables && multiset(s.tables[t].loads) == multiset(ChunksOf(s.setup.stream, t))
    ensures PhaseOf(s.setup.stream, t) == Ended(s.c.deferred[t])
  {
    hide LoadsOf, LoadedOf, PhaseOf, ChunksOf, CompleteOk, BoundOk, EndOk;
    assert PerTableOk(s, t);
    ReadyLoads(s.c, t);
    AllLoaded(s.c.jobs, s.c.finished, t);
    EndedChunks(s.setup.stream, s.c.pos, t);
    ReadyCreated(s, t);
  }

  lemma ReadyLoads(c: Client, t: string)
    requires PoolOk(c) && WaitsOk(c) && Ready(c, t)
    ensures forall j :: 0 <= j < |c.jobs| && c.jobs[j].LoadData? && c.jobs[j].table == t ==> j in c.finished
  {
    hide PoolOk;
  }

  lemma ReadyCreated(s: State, t: string)
    requires PerTableOk(s, t) && t in s.c.deferred && t in s.c.created
    ensures s.c.created[t] in s.c.finished && PhaseOf(Seen(s), t).Ended?
  {
    hide LoadsOf, LoadedOf, PhaseOf, ChunksOf, CompleteOk, TableOk, CheckpointOk;
  }

  lemma FinalizeShape(s: State, t: string)
    requires ShapeOk(s) && CanFinalize(s, t)
    ensures ShapeOk(Finalized(s, t))
  {
    hide Orderly, PoolOk, WaitsOk, ChunksOf;
    SamePool(s.c, Finalized(s, t).c);
    FewerWaits(s.c, Finalized(s, t).c);
  }

  lemma FinalizeTable(s: State, u: string, t: string)
    requires Inv(s) && CanFinalize(s, u) && PoolOk(Finalized(s, u).c)
    ensures PerTableOk(Finalized(s, u), t)
  {
    hide LoadsOf, LoadedOf, PhaseOf, ChunksOf, PoolOk, ShapeOk, Orderly, ReadOk, CompleteOk, TableOk, CheckpointOk;
    assert PerTableOk(s, t) && PerTableOk(s, u);
    SeenSome(s);
    if u in s.c.created { ReadyIsComplete(s, u); }
    FinalizeRest(s, u, t);
    FinalizeComplete(s, u, t);
  }

  lemma SeenSome(s: State)
    requires Inv(s)
    ensures s.c.pos <= |s.setup.stream| && PoolOk(s.c)
  {
    hide PerTableOk, PoolOk, WaitsOk, BoundOk, EndOk, Orderly;
  }

  lemma FinalizeRest(s: State, u: string, t: string)
    requires PerTableOk(s, t) && PerTableOk(s, u) && CanFinalize(s, u) && PoolOk(Finalized(s, u).c)
    requires u in s.c.created ==>
               forall j :: 0 <= j < |s.c.jobs| && s.c.jobs[j].LoadData? && s.c.jobs[j].table == u ==> j in s.c.finished
    ensures ReadOk(Finalized(s, u), t) && CheckpointOk(Finalized(s, u), t)
    ensures !s.posted ==> TableOk(Finalized(s, u), t)
  {
    hide LoadsOf, LoadedOf, PhaseOf, ChunksOf, PoolOk, CompleteOk;
  }

  lemma FinalizeComplete(s: State, u: string, t: string)
    requires Inv(s) && CanFinalize(s, u)
    ensures CompleteOk(Finalized(s, u), t)
  {
    hide LoadsOf, LoadedOf, PhaseOf, ChunksOf, PoolOk, ShapeOk, Orderly;
    assert PerTableOk(s, t);
    if u in s.c.created { ReadyIsComplete(s, u); }
  }

  lemma FinalizeKeeps(s: State, u: string)
    requires Inv(s) && CanFinalize(s, u)
    ensures Inv(Finalized(s, u))
  {
    FinalizeShape(s, u);
    ShapeIsPool(Finalized(s, u));
    hide Inv, ShapeOk, PerTableOk, PoolOk, Finalized;
    forall t ensures PerTableOk(Finalized(s, u), t) { FinalizeTable(s, u, t); }
    Combine(Finalized(s, u));
  }

  // ------------------------------------------------------------------
  // Finishing
  // ------------------------------------------------------------------

  lemma ReplaceShape(s: State, t: string)
    requires ShapeOk(s) && CanReplace(s, t)
    ensures ShapeOk(ReplacedRows(s, t))
  {
    hide Orderly, PoolOk, WaitsOk;
    SamePool(s.c, ReplacedRows(s, t).c);
    FewerWaits(s.c, ReplacedRows(s, t).c);
  }

  lemma ReplaceTable(s: State, u: string, t: string)
    requires PerTableOk(s, t) && CanReplace(s, u) && PoolOk(ReplacedRows(s, u).c)
    ensures PerTableOk(ReplacedRows(s, u), t)
  {
    hide LoadsOf, LoadedOf, PhaseOf, ChunksOf, PoolOk;
  }

  lemma ReplaceKeeps(s: State, u: string)
    requires Inv(s) && CanReplace(s, u)
    ensures Inv(ReplacedRows(s, u))
  {
    ReplaceShape(s, u);
    ShapeIsPool(ReplacedRows(s, u));
    hide ShapeOk, PerTableOk, PoolOk;
    forall t ensures PerTableOk(ReplacedRows(s, u), t) {
      assert PerTableOk(s, t);
      ReplaceTable(s, u, t);
    }
  }

  lemma PostedTable(s: State, t: string)
    requires PerTableOk(s, t) && s.c.at.Posting? && s.c.at.next < |s.setup.post| && PoolOk(Posted(s).c)
    ensures PerTableOk(Posted(s), t)
  {
    hide LoadsOf, LoadedOf, PhaseOf, ChunksOf, PoolOk, AfterPost;
  }

  lemma PostedKeeps(s: State)
    requires Inv(s) && s.c.at.Posting? && s.c.at.next < |s.setup.post|
    ensures Inv(Posted(s))
  {
    hide Orderly, PoolOk, WaitsOk, PerTableOk, AfterPost;
    SamePool(s.c, Posted(s).c);
    FewerWaits(s.c, Posted(s).c);
    forall t ensures PerTableOk(Posted(s), t) {
      assert PerTableOk(s, t);
      PostedTable(s, t);
    }
  }

  ghost function Cleaned(s: State): State { s.(checkpoint := None, c := s.c.(at := Finished)) }

  lemma CleanedTable(s: State, t: string)
    requires PerTableOk(s, t) && s.c.at.Posting? && PoolOk(Cleaned(s).c)
    ensures PerTableOk(Cleaned(s), t)
  {
    hide LoadsOf, LoadedOf, PhaseOf, ChunksOf, PoolOk;
  }

  lemma CleanedKeeps(s: State)
    requires Inv(s) && s.c.at.Posting?
    ensures Inv(Cleaned(s))
  {
    hide Orderly, PoolOk, WaitsOk, PerTableOk;
    SamePool(s.c, Cleaned(s).c);
    FewerWaits(s.c, Cleaned(s).c);
    forall t ensures PerTableOk(Cleaned(s), t) {
      assert PerTableOk(s, t);
      CleanedTable(s, t);
    }
  }

  // ------------------------------------------------------------------
  // Every step, and every history
  // ------------------------------------------------------------------

  lemma StepKeeps(s: State, step: Step)
    requires Inv(s) && Enabled(s, step)
    ensures Inv(Apply(s, step))
  {
    hide PerTableOk, Orderly, PoolOk, WaitsOk, Inv, CanReceive, CanDrain, CanFinalize, CanEndDrain, CanTake, CanDrop,
         CanComplete;
    match step
    case Receive => ReceiveKeeps(s);
    case Drain(gone) => DrainKeeps(s, gone);
    case Finalize(t) => FinalizeKeeps(s, t);
    case EndDrain => EndDrainKeeps(s);
    case TakeOldest => TakeOldestKeeps(s);
    case FinishDdl(t) => FinishDdlKeeps(s, t);
    case FinishLoad => FinishLoadKeeps(s);
    case BeginRestore => LateMoves(s, s.backups, Restoring);
    case Replace(t) => ReplaceKeeps(s, t);
    case DropBackup => LateMoves(s, s.backups - {s.c.at.table}, Restoring);
    case BeginPost => LateMoves(s, s.backups, Posting(0));
    case RunPost => PostedKeeps(s);
    case Cleanup => CleanedKeeps(s);
    case WorkerTake => TakeKeeps(s);
    case WorkerDrop(j) => DropKeeps(s, j);
    case WorkerDone(j) => DoneKeeps(s, j);
    case Die => LateMoves(s, s.backups, Dead);
  }

  lemma LateMoves(s: State, backups: map<string, Rows>, at: Where)
    requires Inv(s) && !s.c.at.Finished?
    requires || (at.Restoring? && (CanRestore(s.c) || s.c.at.Replaced?))
             || (at == Posting(0) && s.c.at.Restoring? && s.backups == map[] == backups)
             || at.Dead?
    ensures Inv(s.(backups := backups, c := s.c.(at := at)))
  {
    hide PerTableOk, Orderly, PoolOk, WaitsOk;
    MovesKeep(s, backups, at);
  }

  lemma StartKeeps(s: State, setup: Setup, resume: bool, clean: bool)
    requires Inv(s) && CanStart(s, setup, resume, clean) && Orderly(setup.stream)
    ensures Inv(Started(s, setup, clean))
  {
    hide Orderly;
    var s' := Started(s, setup, clean);
    forall t ensures PerTableOk(s', t) {
      assert PerTableOk(s, t);
      StartTable(s, setup, resume, clean, t);
    }
  }

  lemma StartTable(s: State, setup: Setup, resume: bool, clean: bool, t: string)
    requires PerTableOk(s, t) && CanStart(s, setup, resume, clean)
    ensures PerTableOk(Started(s, setup, clean), t)
  {
    hide Orderly;
    assert setup.stream[..0] == [];
  }

  /** Every run of the history is given an orderly stream. */
  ghost predicate GoodStreams(actions: seq<Action>) {
    forall i :: 0 <= i < |actions| && actions[i].Start? ==> Orderly(actions[i].setup.stream)
  }

  lemma {:induction false} HistoryKeeps(s: State, actions: seq<Action>, s': State)
    requires Inv(s) && History(s, actions, s') && GoodStreams(actions)
    ensures Inv(s')
    decreases |actions|
  {
    hide Inv, Apply, Started, CanStart, Enabled;
    if actions != [] {
      match actions[0] {
        case Start(setup, resume, clean) => StartKeeps(s, setup, resume, clean);
        case Do(step) => StepKeeps(s, step);
      }
      HistoryKeeps(Act(s, actions[0]), actions[1..], s');
    }
  }
}
