/** Preserved rows survive any sequence of crashes and resumed runs. */
module ImportPreserve {
  import opened Bytes
  import opened Streams
  import opened LocalDb
  import opened ImportMachine
  import opened ImportInvariants
  import opened ImportSteps
  import opened ImportSafety

  /** Some run of this import has executed a set block or after statement. */
  ghost predicate Edited(s: State) { s.posted || s.edited }

  /** A kept row is in the backup if the table has one, and else in the table; a table whose
      CREATE is still to come has its rows in the backup. */
  ghost predicate KeptOk(s: State, t: string) {
    var kept := Kept(s, t);
    && (t in s.backups ==> Within(kept, s.backups[t]))
    && (t !in s.backups && kept != map[] ==> t in s.tables && Within(kept, Content(s.tables[t])))
    && (t in s.c.created && s.c.created[t] !in s.c.finished ==> t in s.backups || kept == map[])
    && (s.c.at == Replaced(t) && t in s.backups ==> t in s.tables && Within(s.backups[t], Content(s.tables[t])))
  }

  ghost predicate KeptAll(s: State) { Edited(s) || forall t :: KeptOk(s, t) }

  // ------------------------------------------------------------------
  // Steps
  // ------------------------------------------------------------------

  /** A load only adds rows to a table. */
  lemma LoadAdds(table: Table, data: Rows)
    ensures Within(Content(table), Content(table.(loads := table.loads + [data])))
  {
    assert (table.loads + [data])[..|table.loads|] == table.loads;
  }

  lemma KeptFrame(s: State, s': State, t: string)
    requires KeptOk(s, t) && s'.base == s.base && s'.setup == s.setup && s'.backups == s.backups
             && s'.tables == s.tables
    requires s'.c.created == s.c.created && s.c.finished <= s'.c.finished
    requires s'.c.at.Replaced? ==> s'.c.at == s.c.at
    ensures KeptOk(s', t)
  {
    hide Within, Content, Matching;
  }

  lemma KeptDrop(s: State, j: nat, t: string)
    requires PoolOk(s.c) && KeptOk(s, t) && CanDrop(s, j) && !s.c.at.Replaced?
    ensures KeptOk(DroppedTable(s, j), t)
  {
    hide Within, Content, Matching;
  }

  lemma KeptDone(s: State, j: nat, t: string)
    requires PoolOk(s.c) && KeptOk(s, t) && CanComplete(s, j) && !s.c.at.Replaced?
    ensures KeptOk(CompletedJob(s, j), t)
  {
    hide Content, Matching, Within;
    var job := s.c.jobs[j];
    if job.LoadData? { KeptLoad(s, j, t); }
  }

  lemma KeptLoad(s: State, j: nat, t: string)
    requires PoolOk(s.c) && KeptOk(s, t) && CanComplete(s, j) && s.c.jobs[j].LoadData? && !s.c.at.Replaced?
    ensures KeptOk(CompletedJob(s, j), t)
  {
    hide Content, Matching, Within, PoolOk, Kept;
    var job, s' := s.c.jobs[j], CompletedJob(s, j);
    if job.table == t {
      var before, after := Content(s.tables[t]), Content(s'.tables[t]);
      LoadAdds(s.tables[t], job.data);
      assert Kept(s', t) == Kept(s, t) by { SameKeptRows(s, s', t); }
      WithinTrans(Kept(s, t), before, after);
    } else {
      SameKeptRows(s, s', t);
    }
  }

  lemma WithinTrans(a: Rows, b: Rows, c: Rows)
    ensures Within(a, b) && Within(b, c) ==> Within(a, c)
  {
  }

  lemma SameKeptRows(s: State, s': State, t: string)
    requires s'.base == s.base && s'.setup.rules == s.setup.rules
    ensures Kept(s', t) == Kept(s, t)
  {
    hide Content, Matching;
  }

  lemma KeptAnnounce(s: State, u: string, t: string)
    requires KeptOk(s, t) && s.c.at.Receiving?
    requires forall v :: v in s.c.created ==> s.c.created[v] < |s.c.jobs|
    ensures KeptOk(Announced(s, u), t)
  {
    hide Content, Within, Matching, Kept;
    var s' := Announced(s, u);
    SameKeptRows(s, s', t);
    if t == u {
      KeptNothing(s, t);
      if t in s.tables && t !in s.backups { MatchingKeeps(s, t); }
    } else {
      assert t in s'.backups <==> t in s.backups;
    }
  }

  lemma KeptNothing(s: State, t: string)
    ensures t !in s.setup.rules.tables ==> Kept(s, t) == map[]
    ensures Kept(s, t) == map[] ==> forall rows :: Within(Kept(s, t), rows)
  {
  }

  /** The rows a rule matched before still match it. */
  lemma MatchingKeeps(s: State, t: string)
    requires t in s.tables && Within(Kept(s, t), Content(s.tables[t]))
    ensures Within(Kept(s, t), Matching(s.setup.rules, t, Content(s.tables[t])))
    ensures Matching(s.setup.rules, t, Content(s.tables[t])) == map[] ==> Kept(s, t) == map[]
  {
    hide Content;
    var rows := Matching(s.setup.rules, t, Content(s.tables[t]));
    if k :| k in Kept(s, t) { assert k in rows; }
  }

  lemma KeptReplace(s: State, u: string, t: string)
    requires KeptOk(s, t) && CanReplace(s, u)
    ensures KeptOk(ReplacedRows(s, u), t)
  {
    hide Matching, Loaded, Within;
    if t == u {
      var table := s.tables[t];
      ReplacedWithin(table, s.backups[t]);
    }
  }

  lemma ReplacedWithin(table: Table, rows: Rows)
    ensures Within(rows, Content(table.(restored := table.restored + rows)))
  {
    hide Loaded;
  }

  lemma KeptDropBackup(s: State, t: string)
    requires KeptOk(s, t) && s.c.at.Replaced?
    requires forall u :: u in s.c.created ==> s.c.created[u] in s.c.finished
    ensures KeptOk(s.(backups := s.backups - {s.c.at.table}, c := s.c.(at := Restoring)), t)
  {
    hide Matching, Content;
  }

  lemma NotReplaced(s: State)
    requires Inv(s)
    ensures forall j :: Running(s.c, j) ==> !s.c.at.Replaced?
    ensures s.c.at.Replaced? ==> forall u :: u in s.c.created ==> s.c.created[u] in s.c.finished
    ensures PoolOk(s.c)
  {
    hide PerTableOk, BoundOk, Orderly;
    if AfterLoads(s.c.at) { AllJobsFinished(s); }
  }

  lemma KeptStep(s: State, step: Step, t: string)
    requires Inv(s) && KeptOk(s, t) && Enabled(s, step) && !Edited(Apply(s, step))
    ensures KeptOk(Apply(s, step), t)
  {
    NotReplaced(s);
    hide Inv, PoolOk, KeptOk, Ready, ChunksOf, Drained, Received, Announced, ReplacedRows, DroppedTable, CompletedJob;
    match step
    case Receive => KeptReceive(s, t);
    case Replace(u) => KeptReplace(s, u, t);
    case DropBackup => KeptDropBackup(s, t);
    case WorkerDrop(j) => KeptDrop(s, j, t);
    case WorkerDone(j) => KeptDone(s, j, t);
    case RunPost =>
    case Drain(gone) => KeptFrame(s, Apply(s, step), t);
    case _ => KeptFrame(s, Apply(s, step), t);
  }

  lemma KeptReceive(s: State, t: string)
    requires Inv(s) && KeptOk(s, t) && CanReceive(s)
    ensures KeptOk(Received(s), t)
  {
    hide Inv, KeptOk, BackedUp, DdlDone, Passed;
    if s.c.pos < |s.setup.stream| && !Passed(s.c, Next(s)) && Next(s).Schema? {
      CreatedInRange(s);
      KeptAnnounce(s, Next(s).table, t);
    } else {
      ReceiveFrame(s);
      KeptFrame(s, Received(s), t);
    }
  }

  lemma CreatedInRange(s: State)
    requires Inv(s)
    ensures forall v :: v in s.c.created ==> s.c.created[v] < |s.c.jobs|
  {
    hide PerTableOk, BoundOk, Orderly, EndOk, WaitsOk;
  }

  ghost predicate SameKept(s: State, s': State) {
    && s'.base == s.base && s'.setup == s.setup && s'.backups == s.backups && s'.tables == s.tables
    && s'.c.created == s.c.created && s'.c.finished == s.c.finished && !s'.c.at.Replaced?
    && s'.checkpoint == s.checkpoint && s'.done == s.done && s'.rebuilt == s.rebuilt
  }

  lemma DataFrame(s: State)
    requires CanReceive(s) && s.c.pos < |s.setup.stream| && !Passed(s.c, Next(s)) && Next(s).Data?
    ensures SameKept(s, Received(s))
  {
    hide BackedUp, DdlDone, Passed, Announce, Defer, Forget;
  }

  lemma TableDoneFrame(s: State)
    requires CanReceive(s) && s.c.pos < |s.setup.stream| && !Passed(s.c, Next(s)) && Next(s).TableDone?
    ensures SameKept(s, Received(s))
  {
    hide BackedUp, DdlDone, Passed, Announce, Submit;
  }

  /** Only a schema changes the backups. */
  lemma ReceiveFrame(s: State)
    requires CanReceive(s) && (s.c.pos >= |s.setup.stream| || Passed(s.c, Next(s)) || !Next(s).Schema?)
    ensures SameKept(s, Received(s))
  {
    hide BackedUp, DdlDone, Passed, Announce;
    if s.c.pos < |s.setup.stream| && !Passed(s.c, Next(s)) {
      if Next(s).Data? { DataFrame(s); } else { TableDoneFrame(s); }
    }
  }

  lemma KeptStart(s: State, setup: Setup, resume: bool, clean: bool)
    requires KeptAll(s) && CanStart(s, setup, resume, clean)
    ensures KeptAll(Started(s, setup, clean))
  {
    hide KeptOk;
    if !Edited(Started(s, setup, clean)) {
      forall t ensures KeptOk(Started(s, setup, clean), t) { KeptStartTable(s, setup, resume, clean, t); }
    }
  }

  lemma KeptStartTable(s: State, setup: Setup, resume: bool, clean: bool, t: string)
    requires CanStart(s, setup, resume, clean) && (clean || !HasPreviousState(s) || KeptOk(s, t))
    ensures KeptOk(Started(s, setup, clean), t)
  {
    hide Content;
    var s' := Started(s, setup, clean);
    if clean || !HasPreviousState(s) {
      assert t !in s'.backups && s'.base == s.tables;
    } else {
      assert Kept(s', t) == Kept(s, t);
    }
  }

  lemma {:induction false} HistoryKeepsKept(s: State, actions: seq<Action>, s': State)
    requires Inv(s) && KeptAll(s) && History(s, actions, s') && GoodStreams(actions)
    ensures KeptAll(s')
    decreases |actions|
  {
    hide Inv, Apply, Started, CanStart, Enabled, KeptOk;
    if actions != [] {
      var next := Act(s, actions[0]);
      match actions[0] {
        case Start(setup, resume, clean) =>
          StartKeeps(s, setup, resume, clean);
          KeptStart(s, setup, resume, clean);
        case Do(step) =>
          StepKeeps(s, step);
          StepKeepsKept(s, step);
      }
      HistoryKeepsKept(next, actions[1..], s');
    }
  }

  lemma StepKeepsKept(s: State, step: Step)
    requires Inv(s) && KeptAll(s) && Enabled(s, step)
    ensures KeptAll(Apply(s, step))
  {
    hide Inv, KeptOk, Enabled, Apply;
    StaysEdited(s, step);
    if !Edited(Apply(s, step)) {
      forall t ensures KeptOk(Apply(s, step), t) { KeptStep(s, step, t); }
    }
  }

  lemma StaysEdited(s: State, step: Step)
    requires Enabled(s, step)
    ensures Edited(s) ==> Edited(Apply(s, step))
    ensures Apply(s, step).base == s.base && Apply(s, step).setup == s.setup
  {
    hide CanReceive, CanDrain, CanFinalize, CanEndDrain, CanTake, CanDrop, CanComplete, Received, AfterPost, ChunksOf,
         Keep;
    match step
    case Receive => ReceivedBase(s);
    case _ =>
  }

  lemma ReceivedBase(s: State)
    requires CanReceive(s)
    ensures Received(s).base == s.base && Received(s).setup == s.setup && (Edited(Received(s)) <==> Edited(s))
  {
    hide DdlDone, Passed, BackedUp, Announce, Submit, Defer, Forget;
    if s.c.pos < |s.setup.stream| { ReceivedReads(s, []); }
  }

  // ------------------------------------------------------------------
  // The guarantee
  // ------------------------------------------------------------------

  /** Which rows are preserved is settled when an import is first started, or restarted with
      `--clean`: the rows the rules then match. No crash and no resumed run changes it. */
  lemma KeptIsSettled(s: State, a: Action, t: string)
    requires Allowed(s, a)
    ensures var s' := Act(s, a);
            if a.Start? && (a.clean || !HasPreviousState(s))
            then Kept(s', t) == (if t in s.tables && t in a.setup.rules.tables
                                 then Matching(a.setup.rules, t, Content(s.tables[t])) else map[])
            else Kept(s', t) == Kept(s, t)
  {
    hide Content, Matching, Enabled, Apply;
    if a.Do? { StaysEdited(s, a.step); }
  }

  /** Until set blocks and after statements run, every row to preserve is at every moment in its
      table or its backup, however often the import was interrupted and resumed; and when the
      restore is over it is in its table. */
  lemma PreservedRowsSurvive(s0: State, actions: seq<Action>, s: State, t: string, k: nat)
    requires Came(s0, actions, s) && !s.posted && !s.edited && k in Kept(s, t)
    ensures || (t in s.backups && k in s.backups[t] && s.backups[t][k] == Kept(s, t)[k])
            || (t in s.tables && k in Content(s.tables[t]) && Content(s.tables[t])[k] == Kept(s, t)[k])
    ensures s.c.at.Posting? || s.c.at.Finished?
            ==> t in s.tables && k in Content(s.tables[t]) && Content(s.tables[t])[k] == Kept(s, t)[k]
  {
    hide History, Inv, Content, Kept;
    UntouchedInv(s0);
    UntouchedKept(s0);
    HistoryKeepsKept(s0, actions, s);
    HistoryKeeps(s0, actions, s);
    NoBackups(s);
    assert KeptOk(s, t);
  }

  /** Only `--clean` gives up what an interrupted run left: any other start keeps every backed-up row
      and every checkpointed table, and when there are any, it must be a resume of an import, under the
      same rules, which goes on preserving the same rows. */
  lemma StartGivesUpNothing(s: State, setup: Setup, resume: bool, clean: bool)
    requires CanStart(s, setup, resume, clean) && !clean
    ensures var s' := Started(s, setup, clean);
            && s'.backups == s.backups && Completed(s.checkpoint) <= Completed(s'.checkpoint)
            && (s.backups != map[] || s.checkpoint.Some? ==>
                  resume && !setup.load && setup.rules == s.setup.rules && s'.base == s.base)
  {
  }

  /** Row `k` of the table was there when the import was first started, or restarted with `--clean`,
      and its rules say to keep it. */
  ghost predicate ToPreserve(s: State, t: string, k: nat) {
    && t in s.setup.rules.tables && t in s.base && k in Content(s.base[t])
    && s.setup.rules.keeps(t, k, Content(s.base[t])[k])
  }

  /** Row by row: a row to preserve is in its table or its backup, as it was, at every moment. */
  lemma LocalRowSurvives(s0: State, actions: seq<Action>, s: State, t: string, k: nat)
    requires Came(s0, actions, s) && !s.posted && !s.edited && ToPreserve(s, t, k)
    ensures || (t in s.backups && k in s.backups[t] && s.backups[t][k] == Content(s.base[t])[k])
            || (t in s.tables && k in Content(s.tables[t]) && Content(s.tables[t])[k] == Content(s.base[t])[k])
    ensures s.c.at.Posting? || s.c.at.Finished?
            ==> t in s.tables && k in Content(s.tables[t]) && Content(s.tables[t])[k] == Content(s.base[t])[k]
  {
    hide Came, Content;
    KeptRow(s, t, k);
    PreservedRowsSurvive(s0, actions, s, t, k);
  }

  lemma KeptRow(s: State, t: string, k: nat)
    ensures k in Kept(s, t) <==> ToPreserve(s, t, k)
    ensures ToPreserve(s, t, k) ==> Kept(s, t)[k] == Content(s.base[t])[k]
  {
    hide Content;
  }

  lemma UntouchedKept(s: State)
    requires Untouched(s)
    ensures KeptAll(s)
  {
    hide Content;
  }

  lemma NoBackups(s: State)
    requires Inv(s)
    ensures s.c.at.Posting? || s.c.at.Finished? ==> s.backups == map[]
  {
    hide PerTableOk, PoolOk, BoundOk, Orderly, WaitsOk;
  }
}
