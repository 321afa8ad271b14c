/** Which rows an import puts back. A resumed run backs up what its rules match in the local
    tables, and an interrupted run may have loaded rows there: exactly when that happens, rows are
    put back that were not there to be preserved. */
module ImportBackups {
  import opened Bytes
  import opened Streams
  import opened LocalDb
  import opened ImportMachine
  import opened ImportInvariants
  import opened ImportSteps
  import opened ImportSafety
  import opened ImportPreserve

  ghost predicate AllMatch(rules: PreserveRules, t: string, rows: Rows) {
    forall k :: k in rows ==> rules.keeps(t, k, rows[k])
  }

  /** The table's rows are those it had when the import was first started. */
  ghost predicate AsAtFirst(s: State, t: string) {
    t in s.tables && t in s.base && Content(s.tables[t]) == Content(s.base[t])
  }

  /** Some row of the table was loaded by a chunk, not put back, and matches the rules. */
  ghost predicate LoadedMatch(s: State, t: string)
    requires t in s.tables
  {
    var table := s.tables[t];
    exists k :: k in Loaded(table.loads) && k !in table.restored && s.setup.rules.keeps(t, k, Loaded(table.loads)[k])
  }

  /** The rows that were put back into the table, or are to be. */
  ghost function PutBack(s: State, t: string): Rows {
    if t in s.backups then s.backups[t]
    else if t in s.tables && t in s.rebuilt then s.tables[t].restored
    else Kept(s, t)
  }

  /** Backups and rows put back match the rules; a table not created by this import is as at
      first, and its backup right; what was put back into one that was holds the rows to preserve
      unless they still are in the backup. */
  ghost predicate BackOk(s: State, t: string) {
    var kept, rules := Kept(s, t), s.setup.rules;
    && (t in s.backups ==> t in rules.tables && AllMatch(rules, t, s.backups[t]))
    && (t in s.tables && t !in s.rebuilt ==> AsAtFirst(s, t))
    && (t in s.backups && t !in s.rebuilt ==> s.backups[t] == kept)
    && (t in s.tables && t in s.rebuilt ==>
          var restored := s.tables[t].restored;
          && AllMatch(rules, t, restored) && (restored != map[] ==> t in rules.tables)
          && (if t in s.backups then Within(restored, s.backups[t]) else Within(kept, restored)))
    && (s.c.at == Replaced(t) && t in s.backups && t in s.rebuilt ==>
          t in s.tables && Within(s.backups[t], s.tables[t].restored))
    && (t in s.c.created && s.c.created[t] in s.c.finished ==> t in s.rebuilt)
    && (t in s.c.created && s.c.created[t] !in s.c.finished && t !in s.backups ==>
          kept == map[] && (t in s.tables && t in s.rebuilt ==> s.tables[t].restored == map[]))
  }

  ghost predicate BackAll(s: State) { Edited(s) || forall t :: BackOk(s, t) }

  // ------------------------------------------------------------------
  // Taking a backup
  // ------------------------------------------------------------------

  /** The rows the rules match in the table as it is. */
  ghost function Matched(s: State, t: string): Rows
    requires t in s.tables
  {
    Matching(s.setup.rules, t, Content(s.tables[t]))
  }

  /** What the rules match is exactly what is to be preserved, if and only if the table is as at
      first, or nothing a chunk loaded into it matches and only rows to preserve were put back. */
  lemma MatchedIsKept(s: State, t: string)
    requires BackOk(s, t) && KeptOk(s, t) && t in s.tables && t !in s.backups && t in s.setup.rules.tables
    ensures Within(Kept(s, t), Matched(s, t))
    ensures Matched(s, t) == Kept(s, t) <==>
            AsAtFirst(s, t) || (!LoadedMatch(s, t) && Within(s.tables[t].restored, Kept(s, t)))
  {
    hide Loaded;
    var table, kept, rows := s.tables[t], Kept(s, t), Matched(s, t);
    KeptMatches(s, t);
    assert forall k ::
           k in Loaded(table.loads) && k !in table.restored && s.setup.rules.keeps(t, k, Loaded(table.loads)[k])
           ==> k in rows;
    if !AsAtFirst(s, t) {
      if !LoadedMatch(s, t) && Within(table.restored, kept) {
        assert rows == kept;
      }
      if rows == kept {
        forall k | k in table.restored ensures k in kept && kept[k] == table.restored[k] { assert k in rows; }
      }
    }
  }

  lemma KeptMatches(s: State, t: string)
    requires KeptOk(s, t) && t in s.tables && t !in s.backups
    ensures AllMatch(s.setup.rules, t, Kept(s, t)) && Within(Kept(s, t), Content(s.tables[t]))
  {
    hide Content;
  }

  /** Until set blocks run, at every moment of every history: when a run reads the schema of a
      table that has a rule, a local table and no backup, it backs up exactly the rows to preserve
      if and only if the local table is as it was when the import was first started, or no row a
      chunk loaded into it matches the rules and only rows to preserve were put back into it. */
  lemma BackupExact(s0: State, actions: seq<Action>, s: State, t: string)
    requires Came(s0, actions, s) && !Edited(s)
    requires Acted(s) && Next(s) == Message.Schema(t)
    requires t in s.setup.rules.tables && t !in s.backups && t in s.tables
    ensures Received(s).backups == (if Kept(s, t) == map[] then s.backups else s.backups[t := Kept(s, t)])
            <==> AsAtFirst(s, t) || (!LoadedMatch(s, t) && Within(s.tables[t].restored, Kept(s, t)))
  {
    hide Came, KeptOk, BackOk, LoadedMatch, AsAtFirst, Within, Kept, Content, Matching;
    HistoryBacks(s0, actions, s, t);
    assert KeptOk(s, t) && BackOk(s, t);
    MatchedIsKept(s, t);
    NothingWithin(Kept(s, t), Matched(s, t));
    assert Received(s).backups == BackedUp(s, t);
    if Matched(s, t) != map[] && Kept(s, t) != map[] {
      assert s.backups[t := Matched(s, t)][t] == Matched(s, t);
    }
  }

  lemma NothingWithin(a: Rows, b: Rows)
    ensures Within(a, b) && b == map[] ==> a == map[]
  {
    if k :| k in a { assert Within(a, b) ==> k in b; }
  }

  // ------------------------------------------------------------------
  // Steps
  // ------------------------------------------------------------------

  ghost predicate SameBack(s: State, s': State) {
    && s'.base == s.base && s'.setup == s.setup && s'.backups == s.backups && s'.tables == s.tables
    && s'.rebuilt == s.rebuilt
    && s'.c.created == s.c.created && s'.c.finished == s.c.finished
    && (s'.c.at.Replaced? ==> s'.c.at == s.c.at)
  }

  lemma BackFrame(s: State, s': State, t: string)
    requires BackOk(s, t) && SameBack(s, s')
    ensures BackOk(s', t) && PutBack(s', t) == PutBack(s, t)
  {
    hide Within, AllMatch, Content, Matching;
  }

  lemma BackDrop(s: State, j: nat, t: string)
    requires PoolOk(s.c) && BackOk(s, t) && CanDrop(s, j) && !s.c.at.Replaced?
    ensures BackOk(DroppedTable(s, j), t) && PutBack(DroppedTable(s, j), t) == PutBack(s, t)
  {
    hide Content, Matching, AllMatch;
    var s' := DroppedTable(s, j);
    SameKeptRows(s, s', t);
    if s.c.jobs[j].table == t && t in s.tables && t !in s.backups {
      assert t in s.rebuilt ==> s.tables[t].restored == map[];
    }
  }

  lemma BackCreate(s: State, j: nat, t: string)
    requires PoolOk(s.c) && BackOk(s, t) && CanComplete(s, j) && s.c.jobs[j].CreateTable? && !s.c.at.Replaced?
    requires s.c.jobs[j].table !in s.tables
    ensures BackOk(CompletedJob(s, j), t) && PutBack(CompletedJob(s, j), t) == PutBack(s, t)
  {
    hide Content, Matching, Loaded;
    SameKeptRows(s, CompletedJob(s, j), t);
  }

  lemma BackLoad(s: State, j: nat, t: string)
    requires PoolOk(s.c) && BackOk(s, t) && CanComplete(s, j) && s.c.jobs[j].LoadData? && !s.c.at.Replaced?
    requires s.c.jobs[j].table in s.rebuilt
    ensures BackOk(CompletedJob(s, j), t) && PutBack(CompletedJob(s, j), t) == PutBack(s, t)
  {
    hide Content, Matching, AllMatch, Within;
    SameKeptRows(s, CompletedJob(s, j), t);
  }

  lemma BackReplace(s: State, u: string, t: string)
    requires BackOk(s, t) && KeptOk(s, t) && CanReplace(s, u)
    requires forall v :: v in s.c.created ==> s.c.created[v] in s.c.finished
    ensures BackOk(ReplacedRows(s, u), t) && PutBack(ReplacedRows(s, u), t) == PutBack(s, t)
  {
    hide Loaded, Matching;
    var s' := ReplacedRows(s, u);
    SameKeptRows(s, s', t);
    if t == u {
      if t in s.rebuilt { ReplaceRebuilt(s, t); } else { ReplaceFirst(s, t); }
    }
  }

  /** Rows put back into a table that was never dropped change nothing. */
  lemma ReplaceFirst(s: State, t: string)
    requires BackOk(s, t) && CanReplace(s, t) && t !in s.rebuilt
    ensures AsAtFirst(ReplacedRows(s, t), t)
  {
    hide Loaded;
  }

  lemma ReplaceRebuilt(s: State, t: string)
    requires BackOk(s, t) && CanReplace(s, t) && t in s.rebuilt
    ensures var s' := ReplacedRows(s, t);
            && Within(s'.tables[t].restored, s.backups[t]) && Within(s.backups[t], s'.tables[t].restored)
            && AllMatch(s.setup.rules, t, s'.tables[t].restored)
  {
  }

  ghost function WithoutBackup(s: State): State
    requires s.c.at.Replaced?
  {
    s.(backups := s.backups - {s.c.at.table}, c := s.c.(at := Restoring))
  }

  lemma BackDropBackup(s: State, t: string)
    requires BackOk(s, t) && KeptOk(s, t) && s.c.at.Replaced? && s.c.at.table in s.backups
    requires forall v :: v in s.c.created ==> s.c.created[v] in s.c.finished
    ensures BackOk(WithoutBackup(s), t) && PutBack(WithoutBackup(s), t) == PutBack(s, t)
  {
    hide Content, Matching;
    SameKeptRows(s, WithoutBackup(s), t);
    if t == s.c.at.table && t in s.rebuilt { WithinBoth(s.backups[t], s.tables[t].restored); }
  }

  lemma WithinBoth(a: Rows, b: Rows)
    requires Within(a, b) && Within(b, a)
    ensures a == b
  {
    forall k ensures k in a <==> k in b { }
  }

  lemma BackAnnounce(s: State, u: string, t: string)
    requires BackOk(s, t) && KeptOk(s, t) && s.c.at.Receiving? && u !in s.c.created
    requires forall v :: v in s.c.created ==> s.c.created[v] < |s.c.jobs|
    requires |s.c.jobs| !in s.c.finished
    ensures BackOk(Announced(s, u), t)
    ensures t != u ==> PutBack(Announced(s, u), t) == PutBack(s, t)
  {
    hide Content, Matching, Kept, Within, AllMatch;
    var s' := Announced(s, u);
    SameKeptRows(s, s', t);
    if t == u {
      if t !in s.backups && t in s.tables && t in s.setup.rules.tables {
        BackTaken(s, t);
      } else {
        NoBackupTaken(s, t);
      }
    } else {
      assert t in s'.backups <==> t in s.backups;
    }
  }

  lemma NoBackupTaken(s: State, t: string)
    requires BackOk(s, t) && KeptOk(s, t) && (t in s.backups || t !in s.tables || t !in s.setup.rules.tables)
    ensures BackedUp(s, t) == s.backups
    ensures t !in s.backups
            ==> Kept(s, t) == map[] && (t in s.tables && t in s.rebuilt ==> s.tables[t].restored == map[])
  {
    hide Content, Matching;
  }

  /** A backup taken holds all that was put back, and the rows to preserve. */
  lemma BackTaken(s: State, t: string)
    requires BackOk(s, t) && KeptOk(s, t) && t in s.tables && t !in s.backups && t in s.setup.rules.tables
    ensures BackedUp(s, t) == if Matched(s, t) == map[] then s.backups else s.backups[t := Matched(s, t)]
    ensures AllMatch(s.setup.rules, t, Matched(s, t)) && Within(Kept(s, t), Matched(s, t))
    ensures t !in s.rebuilt ==> Matched(s, t) == Kept(s, t)
    ensures t in s.rebuilt ==> Within(s.tables[t].restored, Matched(s, t))
    ensures Matched(s, t) == map[] ==> Kept(s, t) == map[] && (t in s.rebuilt ==> s.tables[t].restored == map[])
  {
    hide Loaded;
    KeptMatches(s, t);
    NothingWithin(Kept(s, t), Matched(s, t));
    if t in s.rebuilt { NothingWithin(s.tables[t].restored, Matched(s, t)); }
  }

  // ------------------------------------------------------------------
  // When rows are put back that were not there to be preserved
  // ------------------------------------------------------------------

  /** The run is about to back up a row a chunk of an earlier run loaded: the table has a rule, no
      backup, is no longer as at first, and holds such a row. */
  ghost predicate TakesForeign(s: State, t: string) {
    && Acted(s) && Next(s) == Message.Schema(t)
    && t in s.setup.rules.tables && t !in s.backups && t in s.tables
    && !AsAtFirst(s, t) && LoadedMatch(s, t)
  }

  lemma AnnouncePutsBack(s: State, t: string)
    requires BackOk(s, t) && KeptOk(s, t) && Acted(s) && Next(s) == Message.Schema(t)
    ensures PutBack(Announced(s, t), t) == Kept(Announced(s, t), t)
            <==> PutBack(s, t) == Kept(s, t) && !TakesForeign(s, t)
  {
    hide Content, Matching, Kept, Within, AllMatch, LoadedMatch, AsAtFirst, BackOk, KeptOk, Acted;
    var s' := Announced(s, t);
    SameKeptRows(s, s', t);
    if t !in s.backups && t in s.tables && t in s.setup.rules.tables {
      BackTaken(s, t);
      MatchedIsKept(s, t);
      PutBackSoFar(s, t);
      LoadedIsMatched(s, t);
    } else {
      NoBackupTaken(s, t);
    }
  }

  /** Before a backup is taken, what was put back is right exactly when it is nothing more than the
      rows to preserve. */
  lemma PutBackSoFar(s: State, t: string)
    requires BackOk(s, t) && KeptOk(s, t) && t in s.tables && t !in s.backups
    ensures t !in s.rebuilt ==> PutBack(s, t) == Kept(s, t) && AsAtFirst(s, t)
    ensures t in s.rebuilt ==> (PutBack(s, t) == Kept(s, t) <==> Within(s.tables[t].restored, Kept(s, t)))
    ensures t in s.rebuilt && AsAtFirst(s, t) ==> Within(s.tables[t].restored, Kept(s, t))
  {
    hide Loaded;
    if t in s.rebuilt && Within(s.tables[t].restored, Kept(s, t)) { WithinBoth(s.tables[t].restored, Kept(s, t)); }
  }

  lemma LoadedIsMatched(s: State, t: string)
    requires t in s.tables
    ensures LoadedMatch(s, t) ==> Matched(s, t) != map[]
  {
    hide Loaded;
    var table := s.tables[t];
    if LoadedMatch(s, t) {
      var k :| k in Loaded(table.loads) && k !in table.restored && s.setup.rules.keeps(t, k, Loaded(table.loads)[k]);
      assert k in Matched(s, t);
    }
  }

  ghost predicate Fresh(s: State, a: Action) { a.Start? && (a.clean || !HasPreviousState(s)) }

  /** Since the import was first started, some run has backed up a row an earlier one had loaded. */
  ghost predicate Tainted(s: State, actions: seq<Action>, t: string, was: bool)
    decreases |actions|
  {
    if actions == [] || !Allowed(s, actions[0]) then was
    else
      Tainted(Act(s, actions[0]), actions[1..], t,
              !Fresh(s, actions[0]) && (was || (actions[0] == Do(Receive) && TakesForeign(s, t))))
  }

  ghost predicate RightUnless(s: State, t: string, tainted: bool) {
    Edited(s) || (PutBack(s, t) == Kept(s, t) <==> !tainted)
  }

  lemma BackFacts(s: State)
    requires Inv(s)
    ensures PoolOk(s.c) && |s.c.jobs| !in s.c.finished
    ensures s.c.at.Restoring? || s.c.at.Replaced? ==> forall u :: u in s.c.created ==> s.c.created[u] in s.c.finished
    ensures s.c.at.Replaced? ==> s.c.at.table in s.backups
  {
    hide PerTableOk, BoundOk, Orderly;
    if AfterLoads(s.c.at) { AllJobsFinished(s); }
  }

  lemma BackDone(s: State, j: nat, t: string)
    requires Inv(s) && !Edited(s) && CanComplete(s, j) && !s.c.at.Replaced?
    requires BackOk(s, t) && BackOk(s, s.c.jobs[j].table)
    ensures BackOk(CompletedJob(s, j), t) && PutBack(CompletedJob(s, j), t) == PutBack(s, t)
  {
    hide LoadsOf, LoadedOf, ReadOk, CompleteOk, CheckpointOk, EndOk, BoundOk, WaitsOk, Orderly, CompletedJob, PutBack,
         Kept;
    var u := s.c.jobs[j].table;
    assert PerTableOk(s, u);
    if s.c.jobs[j].CreateTable? { BackCreate(s, j, t); } else { BackLoad(s, j, t); }
  }

  lemma BackReceive(s: State, t: string)
    requires Inv(s) && KeptOk(s, t) && BackOk(s, t) && CanReceive(s)
    ensures BackOk(Received(s), t)
    ensures PutBack(Received(s), t) == Kept(Received(s), t) <==> PutBack(s, t) == Kept(s, t) && !TakesForeign(s, t)
  {
    hide Inv, KeptOk, BackOk, BackedUp, DdlDone, Passed, PutBack, AsAtFirst, LoadedMatch, Kept;
    if Acted(s) && Next(s).Schema? {
      var u := Next(s).table;
      NewTable(s);
      CreatedInRange(s);
      BackFacts(s);
      BackAnnounce(s, u, t);
      SameKeptRows(s, Announced(s, u), t);
      if t == u { AnnouncePutsBack(s, t); }
    } else {
      ReceiveFrame(s);
      BackFrame(s, Received(s), t);
      SameKeptRows(s, Received(s), t);
    }
  }

  lemma NewTable(s: State)
    requires Inv(s) && Acted(s) && Next(s).Schema?
    ensures Next(s).table !in s.c.created && s.c.at.Receiving?
  {
    hide Inv, PhaseOf;
    ActedTable(s);
  }

  lemma BackStep(s: State, step: Step, t: string)
    requires Inv(s) && KeptOk(s, t) && Enabled(s, step) && !Edited(s) && !Edited(Apply(s, step))
    requires forall u :: BackOk(s, u)
    ensures BackOk(Apply(s, step), t) && (step != Receive ==> PutBack(Apply(s, step), t) == PutBack(s, t))
  {
    NotReplaced(s);
    BackFacts(s);
    assert BackOk(s, t);
    hide Inv, PoolOk, KeptOk, BackOk, PutBack, Ready, ChunksOf, Drained, Received, ReplacedRows, DroppedTable,
         CompletedJob, CompletionOf;
    match step
    case Receive => BackReceive(s, t);
    case Replace(u) => BackReplace(s, u, t);
    case DropBackup => BackDropBackup(s, t);
    case WorkerDrop(j) => BackDrop(s, j, t);
    case WorkerDone(j) => BackDone(s, j, t);
    case RunPost =>
    case _ => BackFrame(s, Apply(s, step), t);
  }

  lemma BackStart(s: State, setup: Setup, resume: bool, clean: bool, t: string)
    requires CanStart(s, setup, resume, clean) && (clean || !HasPreviousState(s) || BackOk(s, t))
    ensures BackOk(Started(s, setup, clean), t)
    ensures clean || !HasPreviousState(s) ==> PutBack(Started(s, setup, clean), t) == Kept(Started(s, setup, clean), t)
    ensures !(clean || !HasPreviousState(s)) ==>
              PutBack(Started(s, setup, clean), t) == PutBack(s, t) && Kept(Started(s, setup, clean), t) == Kept(s, t)
  {
    hide Content, Within, AllMatch, Matching;
    var s' := Started(s, setup, clean);
    if clean || !HasPreviousState(s) {
      assert t !in s'.backups && s'.base == s.tables;
    } else {
      SameKeptRows(s, s', t);
    }
  }

  lemma ActBacks(s: State, a: Action, t: string, was: bool)
    requires Inv(s) && KeptAll(s) && BackAll(s) && Allowed(s, a) && RightUnless(s, t, was)
    ensures BackAll(Act(s, a))
    ensures RightUnless(Act(s, a), t, !Fresh(s, a) && (was || (a == Do(Receive) && TakesForeign(s, t))))
  {
    hide Inv, KeptOk, BackOk, PutBack, Kept, Apply, Enabled, TakesForeign, CanStart, Started;
    match a
    case Start(setup, resume, clean) =>
      StartedEdited(s, setup, clean);
      if !Edited(Started(s, setup, clean)) {
        forall u ensures BackOk(Started(s, setup, clean), u) { BackStart(s, setup, resume, clean, u); }
        BackStart(s, setup, resume, clean, t);
      }
    case Do(step) =>
      StaysEdited(s, step);
      if !Edited(Apply(s, step)) {
        forall u ensures BackOk(Apply(s, step), u) { BackStep(s, step, u); }
        BackStep(s, step, t);
        SameKeptRows(s, Apply(s, step), t);
        if step.Receive? { ReceivesRight(s, t); }
      }
  }

  lemma ReceivesRight(s: State, t: string)
    requires Inv(s) && KeptOk(s, t) && BackOk(s, t) && Enabled(s, Receive)
    ensures PutBack(Apply(s, Receive), t) == Kept(Apply(s, Receive), t)
            <==> PutBack(s, t) == Kept(s, t) && !TakesForeign(s, t)
  {
    hide Inv, KeptOk, BackOk, PutBack, Kept, Received, TakesForeign;
    BackReceive(s, t);
  }

  lemma StartedEdited(s: State, setup: Setup, clean: bool)
    ensures Edited(Started(s, setup, clean)) <==> !(clean || !HasPreviousState(s)) && Edited(s)
  {
  }

  lemma {:induction false} HistoryPutsBack(s: State, actions: seq<Action>, s': State, t: string, was: bool)
    requires Inv(s) && KeptAll(s) && BackAll(s) && RightUnless(s, t, was) && History(s, actions, s')
             && GoodStreams(actions)
    ensures Inv(s') && KeptAll(s') && BackAll(s') && RightUnless(s', t, Tainted(s, actions, t, was))
    decreases |actions|
  {
    hide Inv, KeptAll, BackAll, RightUnless, Apply, Started, CanStart, Enabled, TakesForeign, Fresh;
    if actions != [] {
      var a := actions[0];
      ActBacks(s, a, t, was);
      match a {
        case Start(setup, resume, clean) =>
          StartKeeps(s, setup, resume, clean);
          KeptStart(s, setup, resume, clean);
        case Do(step) =>
          StepKeeps(s, step);
          StepKeepsKept(s, step);
      }
      HistoryPutsBack(Act(s, a), actions[1..], s', t,
                      !Fresh(s, a) && (was || (a == Do(Receive) && TakesForeign(s, t))));
    }
  }

  lemma HistoryBacks(s0: State, actions: seq<Action>, s: State, t: string)
    requires Came(s0, actions, s)
    ensures Inv(s) && KeptAll(s) && BackAll(s) && RightUnless(s, t, Tainted(s0, actions, t, false))
  {
    hide Inv, KeptAll, BackAll, History, Tainted;
    UntouchedInv(s0);
    UntouchedKept(s0);
    UntouchedBack(s0, t);
    HistoryPutsBack(s0, actions, s, t, false);
  }

  lemma UntouchedBack(s: State, t: string)
    requires Untouched(s)
    ensures BackAll(s) && RightUnless(s, t, false)
  {
    hide Content, Matching;
  }

  // ------------------------------------------------------------------
  // The rows that come back
  // ------------------------------------------------------------------

  /** Over any history: what was put back into a table, or is to be, is exactly the rows to
      preserve, if and only if no run since the import was first started has backed up a row an
      earlier one had loaded. A backup once wrong is kept, and so are the rows it put back. */
  lemma PutBackExact(s0: State, actions: seq<Action>, s: State, t: string)
    requires Came(s0, actions, s) && !Edited(s)
    ensures PutBack(s, t) == Kept(s, t) <==> !Tainted(s0, actions, t, false)
  {
    hide Came, PutBack, Kept, Tainted, Inv, KeptAll, BackAll;
    HistoryBacks(s0, actions, s, t);
  }

  /** Once the restore is over, a table the import has created holds its chunks under what was put
      back. That is the rows to preserve, and the table is right, exactly unless some run backed up
      a loaded row; and then the table is still right exactly when each such row is also among the
      chunks the table was last sent. */
  lemma RestoredExact(s0: State, actions: seq<Action>, s: State, t: string)
    requires Came(s0, actions, s) && !Edited(s) && (s.c.at.Posting? || s.c.at.Finished?) && t in s.tables
             && t in s.rebuilt
    ensures var table, kept := s.tables[t], Kept(s, t);
            && (table.restored == kept <==> !Tainted(s0, actions, t, false))
            && (Content(table) == Loaded(table.loads) + kept <==>
                  forall k :: k in table.restored && k !in kept ==>
                    k in Loaded(table.loads) && Loaded(table.loads)[k] == table.restored[k])
  {
    hide Came, Kept, Tainted, Inv, Loaded;
    HistoryBacks(s0, actions, s, t);
    NoBackups(s);
    assert BackOk(s, t);
    UnderPutBack(s.tables[t], Kept(s, t));
  }

  lemma UnderPutBack(table: Table, kept: Rows)
    requires Within(kept, table.restored)
    ensures Content(table) == Loaded(table.loads) + kept <==>
            forall k :: k in table.restored && k !in kept
                ==> k in Loaded(table.loads) && Loaded(table.loads)[k] == table.restored[k]
  {
    hide Loaded;
    var right := Loaded(table.loads) + kept;
    if forall k :: k in table.restored && k !in kept
        ==> k in Loaded(table.loads) && Loaded(table.loads)[k] == table.restored[k] {
      assert Content(table) == right;
    }
    if Content(table) == right {
      forall k | k in table.restored && k !in kept
        ensures k in Loaded(table.loads) && Loaded(table.loads)[k] == table.restored[k]
      {
        assert k in Content(table) && Content(table)[k] == table.restored[k];
      }
    }
  }
}
