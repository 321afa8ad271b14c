/** The message loop's own loops: collecting finished loads, and checkpointing the tables whose
    loads are all in. They refine steps of the import machine. */
module MessageLoop {
  import opened Bytes
  import opened Streams
  import opened LocalDb
  import opened ImportMachine

  /** Rows inserted, and rows sent but skipped for a duplicate key. */
  datatype LoadResult = LoadResult(rows: nat, dropped: nat)

  function LoadedRows(loads: seq<nat>, gone: set<nat>, results: nat -> LoadResult): nat {
    if loads == [] then 0
    else
      var j := loads[|loads| - 1];
      LoadedRows(loads[..|loads| - 1], gone, results) + if j in gone then results(j).rows else 0
  }

  /** A load of table `t`. */
  predicate LoadOf(jobs: seq<Job>, j: nat, t: string) { j < |jobs| && jobs[j].table == t }

  function DroppedRows(loads: seq<nat>, gone: set<nat>, results: nat -> LoadResult, jobs: seq<Job>, t: string): nat {
    if loads == [] then 0
    else
      var j := loads[|loads| - 1];
      DroppedRows(loads[..|loads| - 1], gone, results, jobs, t)
      + if j in gone && LoadOf(jobs, j, t) then results(j).dropped else 0
  }

  /** A deferred table none of whose loads is pending. */
  ghost predicate Complete(loads: seq<nat>, deferred: map<string, nat>, jobs: seq<Job>, t: string) {
    t in deferred && forall i :: 0 <= i < |loads| ==> !LoadOf(jobs, loads[i], t)
  }

  ghost function CompleteTables(loads: seq<nat>, deferred: map<string, nat>, jobs: seq<Job>): set<string> {
    set t | t in deferred && Complete(loads, deferred, jobs, t)
  }

  /** The checkpoint with the row counts of the tables `ts`. */
  ghost function Logged(checkpoint: map<string, nat>, deferred: map<string, nat>, ts: set<string>): map<string, nat> {
    checkpoint + map t | t in deferred && t in ts :: deferred[t]
  }

  lemma LogNone(checkpoint: map<string, nat>, deferred: map<string, nat>)
    ensures Logged(checkpoint, deferred, {}) == checkpoint && deferred - {} == deferred
  {
  }

  lemma LogOne(checkpoint: map<string, nat>, deferred: map<string, nat>, ts: set<string>, t: string)
    requires t in deferred && t !in ts
    ensures Logged(checkpoint, deferred, ts + {t}) == Logged(checkpoint, deferred, ts)[t := deferred[t]]
    ensures deferred - (ts + {t}) == deferred - ts - {t} && t in deferred - ts && (deferred - ts)[t] == deferred[t]
    ensures t in Logged(checkpoint, deferred, ts) <==> t in checkpoint
  {
  }

  class Loop {
    var loads: seq<nat>
    var deferred: map<string, nat>
    var schemas: set<string>
    var checkpoint: map<string, nat>
    var rowsImported: nat
    var dropped: map<string, nat>

    function Dropped(t: string): nat
      reads this
    {
      if t in dropped then dropped[t] else 0
    }

    /** Takes the results that have arrived, then checkpoints. `ok` is false when a table is
        already in the checkpoint. */
    method DrainCompletedLoads(jobs: seq<Job>, arrived: set<nat>, results: nat -> LoadResult) returns (ok: bool)
      requires forall i :: 0 <= i < |loads| ==> loads[i] < |jobs|
      modifies this
      ensures loads == Keep(old(loads), arrived)
      ensures rowsImported == old(rowsImported) + LoadedRows(old(loads), arrived, results)
      ensures forall t :: Dropped(t) == old(Dropped(t)) + DroppedRows(old(loads), arrived, results, jobs, t)
      ensures Checkpointed(jobs, ok, old(deferred), old(checkpoint), old(schemas))
    {
      hide Keep, LoadedRows, DroppedRows, LoadOf, CompleteTables, Logged;
      var still: seq<nat> := [];
      CollectNone(jobs, arrived, results);
      for i := 0 to |loads|
        invariant loads == old(loads) && deferred == old(deferred) && schemas == old(schemas)
                  && checkpoint == old(checkpoint)
        invariant still == Keep(loads[..i], arrived)
        invariant rowsImported == old(rowsImported) + LoadedRows(loads[..i], arrived, results)
        invariant forall t :: Dropped(t) == old(Dropped(t)) + DroppedRows(loads[..i], arrived, results, jobs, t)
      {
        var j := loads[i];
        CollectOne(loads, i, jobs, arrived, results);
        if j in arrived {
          rowsImported := rowsImported + results(j).rows;
          RecordDropped(jobs[j].table, results(j).dropped);
        } else {
          still := still + [j];
        }
      }
      assert loads[..|loads|] == loads;
      loads := still;
      ok := FinalizeCompletedTables(jobs);
    }

    /** No entry is made for a table that lost nothing. */
    method RecordDropped(t: string, n: nat)
      modifies this`dropped
      ensures forall u :: Dropped(u) == old(Dropped(u)) + if u == t then n else 0
    {
      if n > 0 { dropped := dropped[t := Dropped(t) + n]; }
    }

    /** What checkpointing leaves, given what was there before. */
    ghost predicate Checkpointed(jobs: seq<Job>, ok: bool, wasDeferred: map<string, nat>, wasLogged: map<string, nat>,
                                 wasOpen: set<string>)
      reads this
    {
      var complete := CompleteTables(loads, wasDeferred, jobs);
      && (ok <==> complete !! wasLogged.Keys)
      && (ok ==> deferred == wasDeferred - complete && schemas == wasOpen - complete
                 && checkpoint == Logged(wasLogged, wasDeferred, complete))
    }

    method FinalizeCompletedTables(jobs: seq<Job>) returns (ok: bool)
      modifies this`deferred, this`schemas, this`checkpoint
      ensures Checkpointed(jobs, ok, old(deferred), old(checkpoint), old(schemas))
    {
      var pending := set i | 0 <= i < |loads| && loads[i] < |jobs| :: jobs[loads[i]].table;
      var ready := set t | t in deferred && t !in pending;
      assert ready == CompleteTables(loads, deferred, jobs);
      hide CompleteTables, Logged;
      ok := MarkComplete(ready);
    }

    /** One table at a time leaves the deferred ones and is checkpointed. */
    method MarkComplete(tables: set<string>) returns (ok: bool)
      requires tables <= deferred.Keys
      modifies this`deferred, this`schemas, this`checkpoint
      ensures ok <==> tables !! old(checkpoint).Keys
      ensures ok ==> deferred == old(deferred) - tables && schemas == old(schemas) - tables
      ensures ok ==> checkpoint == Logged(old(checkpoint), old(deferred), tables)
    {
      hide Logged;
      var todo := tables;
      ghost var marked: set<string> := {};
      LogNone(checkpoint, deferred);
      while todo != {}
        invariant marked == tables - todo && todo <= tables && marked !! old(checkpoint).Keys
        invariant deferred == old(deferred) - marked && schemas == old(schemas) - marked
        invariant checkpoint == Logged(old(checkpoint), old(deferred), marked)
        decreases |todo|
      {
        var t :| t in todo;
        LogOne(old(checkpoint), old(deferred), marked, t);
        var rows := deferred[t];
        deferred, schemas := deferred - {t}, schemas - {t};
        if t in checkpoint {
          assert t in tables && t in old(checkpoint).Keys;
          return false;
        }
        checkpoint := checkpoint[t := rows];
        todo, marked := todo - {t}, marked + {t};
      }
      assert marked == tables;
      ok := true;
    }
  }

  lemma CollectNone(jobs: seq<Job>, gone: set<nat>, results: nat -> LoadResult)
    ensures Keep([], gone) == [] && LoadedRows([], gone, results) == 0
    ensures forall t :: DroppedRows([], gone, results, jobs, t) == 0
  {
  }

  lemma CollectOne(loads: seq<nat>, i: nat, jobs: seq<Job>, gone: set<nat>, results: nat -> LoadResult)
    requires i < |loads| && loads[i] < |jobs|
    ensures var j := loads[i];
            && Keep(loads[..i + 1], gone) == Keep(loads[..i], gone) + (if j in gone then [] else [j])
            && LoadedRows(loads[..i + 1], gone, results) ==
                 LoadedRows(loads[..i], gone, results) + (if j in gone then results(j).rows else 0)
            && forall t :: DroppedRows(loads[..i + 1], gone, results, jobs, t) ==
                 DroppedRows(loads[..i], gone, results, jobs, t)
                 + if j in gone && jobs[j].table == t then results(j).dropped else 0
  {
    assert loads[..i + 1] == loads[..i] + [loads[i]];
    KeepOne(loads[..i], loads[i], gone);
  }

  lemma {:induction false} KeepOne(loads: seq<nat>, j: nat, gone: set<nat>)
    ensures Keep(loads + [j], gone) == Keep(loads, gone) + if j in gone then [] else [j]
  {
    if loads == [] {
      assert [j][1..] == [];
    } else {
      KeepOne(loads[1..], j, gone);
      assert (loads + [j])[1..] == loads[1..] + [j];
    }
  }

  // ------------------------------------------------------------------
  // The loops are steps of the machine
  // ------------------------------------------------------------------

  ghost function DoneWith(s: State, ts: set<string>): map<string, Completion> {
    s.done + map t | t in ts :: CompletionOf(s, t)
  }

  ghost function FinalizedAll(s: State, ts: set<string>): State
    requires s.checkpoint.Some?
  {
    s.(checkpoint := Some(Logged(s.checkpoint.value, s.c.deferred, ts)),
       done := DoneWith(s, ts),
       c := s.c.(deferred := s.c.deferred - ts, schemas := s.c.schemas - ts))
  }

  lemma LoggedFirst(log: map<string, nat>, deferred: map<string, nat>, ts: set<string>, t: string)
    requires t in ts && t in deferred
    ensures Logged(log[t := deferred[t]], deferred - {t}, ts - {t}) == Logged(log, deferred, ts)
  {
  }

  lemma DoneFirst(s: State, ts: set<string>, t: string)
    requires t in ts && t in s.c.deferred && s.checkpoint.Some?
    ensures DoneWith(Finalized(s, t), ts - {t}) == DoneWith(s, ts)
  {
    hide CompletionOf;
    SameCompletions(s, t);
  }

  lemma SameCompletions(s: State, t: string)
    requires t in s.c.deferred && s.checkpoint.Some?
    ensures forall u :: CompletionOf(Finalized(s, t), u) == CompletionOf(s, u)
  {
    hide ChunksOf;
  }

  lemma FinalizeFirst(s: State, ts: set<string>, t: string)
    requires s.checkpoint.Some? && t in ts && t in s.c.deferred
    ensures FinalizedAll(Finalized(s, t), ts - {t}) == FinalizedAll(s, ts)
  {
    hide CompletionOf, Logged, DoneWith;
    DoneFirst(s, ts, t);
    LoggedFirst(s.checkpoint.value, s.c.deferred, ts, t);
    assert s.c.deferred - {t} - (ts - {t}) == s.c.deferred - ts;
    assert s.c.schemas - {t} - (ts - {t}) == s.c.schemas - ts;
  }

  lemma FinalizeNone(s: State)
    requires s.checkpoint.Some?
    ensures FinalizedAll(s, {}) == s
  {
    hide CompletionOf;
    LogNone(s.checkpoint.value, s.c.deferred);
  }

  lemma FinalizeOne(s: State, ts: set<string>, t: string)
    requires s.c.at.Swept? && s.checkpoint.Some? && ts !! s.checkpoint.value.Keys && t in ts
    requires ts <= CompleteTables(s.c.loads, s.c.deferred, s.c.jobs)
    requires forall i :: 0 <= i < |s.c.loads| ==> s.c.loads[i] < |s.c.jobs|
    ensures Allowed(s, Do(Finalize(t))) && Act(s, Do(Finalize(t))) == Finalized(s, t) && t in s.c.deferred
    ensures var next := Finalized(s, t);
            && next.c.at.Swept? && next.checkpoint.Some? && ts - {t} !! next.checkpoint.value.Keys
            && next.c.loads == s.c.loads && next.c.jobs == s.c.jobs
            && ts - {t} <= CompleteTables(next.c.loads, next.c.deferred, next.c.jobs)
  {
    hide CompletionOf;
    assert CanFinalize(s, t);
  }

  /** Checkpointing a set of tables is a Finalize step for each, in any order. */
  lemma {:induction false} FinalizesAll(s: State, ts: set<string>) returns (actions: seq<Action>)
    requires s.c.at.Swept? && s.checkpoint.Some? && ts !! s.checkpoint.value.Keys
    requires ts <= CompleteTables(s.c.loads, s.c.deferred, s.c.jobs)
    requires forall i :: 0 <= i < |s.c.loads| ==> s.c.loads[i] < |s.c.jobs|
    ensures History(s, actions, FinalizedAll(s, ts))
    decreases |ts|
  {
    hide Finalized, FinalizedAll, Allowed, Act, CompleteTables, Ready;
    if ts == {} {
      FinalizeNone(s);
      actions := [];
    } else {
      var t :| t in ts;
      FinalizeOne(s, ts, t);
      FinalizeFirst(s, ts, t);
      var rest := FinalizesAll(Finalized(s, t), ts - {t});
      HistoryPrepend(s, Do(Finalize(t)), rest, FinalizedAll(s, ts));
      actions := [Do(Finalize(t))] + rest;
    }
  }

  /** One call of `drain_completed_loads` is a Drain step, a Finalize step for each complete
      table and the end of the drain: the machine reaches the state the call leaves. */
  lemma DrainIsSteps(s: State, gone: set<nat>) returns (actions: seq<Action>, s': State)
    requires CanDrain(s.c, gone) && s.checkpoint.Some?
    requires forall i :: 0 <= i < |s.c.loads| ==> s.c.loads[i] < |s.c.jobs|
    requires CompleteTables(Keep(s.c.loads, gone), s.c.deferred, s.c.jobs) !! s.checkpoint.value.Keys
    ensures History(s, actions, s')
    ensures var complete := CompleteTables(Keep(s.c.loads, gone), s.c.deferred, s.c.jobs);
            && s'.c.loads == Keep(s.c.loads, gone) && s'.c.deferred == s.c.deferred - complete
            && s'.c.schemas == s.c.schemas - complete
            && s'.checkpoint == Some(Logged(s.checkpoint.value, s.c.deferred, complete))
            && (s'.c.at.Receiving? || s'.c.at.AwaitingOldest?)
  {
    var drained := s.(c := Drained(s.c, gone));
    var complete := CompleteTables(Keep(s.c.loads, gone), s.c.deferred, s.c.jobs);
    KeptInRange(s.c.loads, gone, |s.c.jobs|);
    var finals := FinalizesAll(drained, complete);
    var swept := FinalizedAll(drained, complete);
    NoneReady(drained, complete);
    s' := swept.(c := EndedDrain(swept.c));
    HistoryAppend(drained, finals, swept, Do(EndDrain));
    actions := [Do(Drain(gone))] + (finals + [Do(EndDrain)]);
    assert actions[1..] == finals + [Do(EndDrain)];
  }

  lemma NoneReady(s: State, complete: set<string>)
    requires s.c.at.Swept? && s.checkpoint.Some? && complete == CompleteTables(s.c.loads, s.c.deferred, s.c.jobs)
    ensures CanEndDrain(FinalizedAll(s, complete).c)
  {
    hide CompletionOf;
  }

  lemma {:induction false} KeptInRange(loads: seq<nat>, gone: set<nat>, n: nat)
    requires forall i :: 0 <= i < |loads| ==> loads[i] < n
    ensures forall i :: 0 <= i < |Keep(loads, gone)| ==> Keep(loads, gone)[i] < n
  {
    if loads != [] { KeptInRange(loads[1..], gone, n); }
  }
}
