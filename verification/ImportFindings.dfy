/** A resumed import can take rows an interrupted run loaded for rows to preserve, and put them
    back over the source's. `ImportBackups` says exactly when. */
module ImportFindings {
  import opened Bytes
  import opened Streams
  import opened LocalDb
  import opened ImportMachine
  import opened ImportSteps
  import opened ImportSafety

  /** Every row of table `t` is to be preserved. */
  function KeepAll(): PreserveRules { PreserveRules({"t"}, (t, k, v) => true) }

  function RowOf(value: string): Rows { map[1 := value] }

  /** A run that is sent one table with one row. */
  function Run(value: string): Setup {
    Setup(false, 1, [Message.Schema("t"), Message.Data("t", 1, RowOf(value)), Message.TableDone("t", 1)], KeepAll(), [])
  }

  // The client as it creates the table, loads the row and finishes.

  function C0(): Client { NewClient({}) }
  function C1(): Client { Announce(C0(), "t") }
  function C2(): Client { C1().(taken := 1) }
  function C3(): Client { C2().(dropped := {0}) }
  function C4(): Client { C3().(finished := {0}) }
  function C5(v: string): Client { Submit(C4(), "t", RowOf(v)) }
  function C6(v: string): Client { C5(v).(taken := 2) }
  function C7(v: string): Client { C6(v).(finished := C6(v).finished + {1}) }
  function C8(v: string): Client { Defer(C7(v), "t", 1) }
  function C9(v: string): Client { C8(v).(loads := [], at := Swept(false)) }
  function C10(v: string): Client { C9(v).(deferred := C9(v).deferred - {"t"}, schemas := C9(v).schemas - {"t"}) }

  ghost predicate Leads(s: State, a: Action, s': State) { Allowed(s, a) && Act(s, a) == s' }

  lemma Then(s: State, a: Action, s': State, rest: seq<Action>, end: State)
    requires Leads(s, a, s') && History(s', rest, end)
    ensures History(s, [a] + rest, end)
  {
    hide Allowed, Act;
    HistoryPrepend(s, a, rest, end);
  }

  lemma End(s: State)
    ensures History(s, [], s)
  {
  }

  // ------------------------------------------------------------------
  // Creating and filling the table
  // ------------------------------------------------------------------

  lemma Takes(s: State)
    requires s.c == C1() && s.setup.workers == 1
    ensures Leads(s, Do(WorkerTake), s.(c := C2()))
  {
    assert RunningJobs(C1()) == {} && |RunningJobs(C1())| == 0;
    assert C1().jobs == [CreateTable("t")];
  }

  lemma Drops(s: State)
    requires s.c == C2()
    ensures Leads(s, Do(WorkerDrop(0)), s.(tables := s.tables - {"t"}, c := C3()))
  {
    assert C2().jobs == [CreateTable("t")];
    assert {} + {0} == {0};
  }

  ghost function Created(s: State): State {
    s.(tables := s.tables["t" := Table([], map[])], rebuilt := s.rebuilt + {"t"}, c := C4())
  }

  lemma Creates(s: State)
    requires s.c == C3()
    ensures Leads(s, Do(WorkerDone(0)), Created(s))
  {
    assert C3().jobs == [CreateTable("t")];
    assert {} + {0} == {0};
  }

  lemma Submits(s: State, v: string)
    requires s.c == C4() && s.setup == Run(v)
    ensures Leads(s, Do(Receive), s.(c := C5(v)))
  {
    assert C4().ddls == map["t" := 0];
  }

  lemma TakesRow(s: State, v: string)
    requires s.c == C5(v) && s.setup.workers == 1
    ensures Leads(s, Do(WorkerTake), s.(c := C6(v)))
  {
    assert RunningJobs(C5(v)) == {} && |RunningJobs(C5(v))| == 0;
    assert C5(v).jobs == [CreateTable("t"), LoadData("t", RowOf(v))];
  }

  ghost function Filled(s: State, v: string): State {
    s.(tables := s.tables["t" := Table([RowOf(v)], map[])], c := C7(v))
  }

  lemma LoadsRow(s: State, v: string)
    requires s.c == C6(v) && "t" in s.tables && s.tables["t"] == Table([], map[])
    ensures Leads(s, Do(WorkerDone(1)), Filled(s, v))
  {
    assert C6(v).jobs == [CreateTable("t"), LoadData("t", RowOf(v))];
    assert [] + [RowOf(v)] == [RowOf(v)];
    assert CanComplete(s, 1);
    hide C6, C7, Run, RowOf;
    FinishedRow(v);
  }

  lemma FinishedRow(v: string)
    ensures C7(v) == C6(v).(finished := C6(v).finished + {1})
  {
  }

  /** From the schema to the row: the table is dropped, created and filled. */
  ghost function Rebuilt(s: State, v: string): State {
    s.(tables := s.tables["t" := Table([RowOf(v)], map[])], rebuilt := s.rebuilt + {"t"}, c := C7(v))
  }

  lemma Rebuilds(s: State, v: string) returns (h: seq<Action>)
    requires s.c == C1() && s.setup == Run(v)
    ensures History(s, h, Rebuilt(s, v))
  {
    var s2 := s.(c := C2());
    var s3 := s2.(tables := s2.tables - {"t"}, c := C3());
    var s4 := Created(s3);
    var s5 := s4.(c := C5(v));
    var s6 := s5.(c := C6(v));
    var s7 := Filled(s6, v);
    assert s6.tables["t"] == Table([], map[]) && s4.setup == Run(v);
    assert s7 == Rebuilt(s, v) by { assert s7.tables == s.tables["t" := Table([RowOf(v)], map[])]; }
    hide Leads, History, C1, C2, C3, C4, C5, C6, C7, Run, Created, Filled, Rebuilt;
    RunsOne(v);
    LoadsRow(s6, v);
    TakesRow(s5, v);
    Submits(s4, v);
    Creates(s3);
    Drops(s2);
    Takes(s);
    End(s7);
    h := [];
    Then(s6, Do(WorkerDone(1)), s7, h, s7);
    h := [Do(WorkerDone(1))] + h;
    Then(s5, Do(WorkerTake), s6, h, s7);
    h := [Do(WorkerTake)] + h;
    Then(s4, Do(Receive), s5, h, s7);
    h := [Do(Receive)] + h;
    Then(s3, Do(WorkerDone(0)), s4, h, s7);
    h := [Do(WorkerDone(0))] + h;
    Then(s2, Do(WorkerDrop(0)), s3, h, s7);
    h := [Do(WorkerDrop(0))] + h;
    Then(s, Do(WorkerTake), s2, h, s7);
    h := [Do(WorkerTake)] + h;
  }

  lemma RunsOne(v: string)
    ensures Run(v).workers == 1
  {
  }

  // ------------------------------------------------------------------
  // The first run: it fills the table and dies
  // ------------------------------------------------------------------

  /** The import's state while it runs: nothing is completed, and there was nothing locally when it
      was first started. */
  ghost predicate Running(s: State, v: string, backups: map<string, Rows>) {
    s.setup == Run(v) && s.checkpoint == Some(map[]) && s.base == map[] && s.backups == backups && !s.posted
    && !s.edited
  }

  lemma Begins(s: State) returns (s': State)
    requires Untouched(s) && s.tables == map[]
    ensures Leads(s, Start(Run("old"), false, false), s')
    ensures Running(s', "old", map[]) && s'.c == C0() && s'.tables == map[]
  {
    s' := Started(s, Run("old"), false);
  }

  lemma Announces(s: State, v: string)
    requires s.c == C0() && s.setup == Run(v)
    ensures Leads(s, Do(Receive), s.(backups := BackedUp(s, "t"), c := C1()))
  {
    hide BackedUp;
  }

  lemma NoBackup(s: State)
    requires s.tables == map[]
    ensures BackedUp(s, "t") == s.backups
  {
  }

  lemma Dies(s: State)
    requires s.c == C7("old")
    ensures Leads(s, Do(Die), s.(c := C7("old").(at := Dead)))
  {
  }

  lemma FirstRun(s0: State) returns (h: seq<Action>, d: State)
    requires Untouched(s0) && s0.tables == map[]
    ensures History(s0, h, d) && Running(d, "old", map[]) && d.c == C7("old").(at := Dead)
    ensures "t" in d.tables && d.tables["t"] == Table([RowOf("old")], map[])
  {
    hide History, Leads, Untouched, C0, C1, C7, Run, BackedUp;
    var s1 := Begins(s0);
    Announces(s1, "old");
    NoBackup(s1);
    var s2 := s1.(backups := BackedUp(s1, "t"), c := C1());
    var mid := Rebuilds(s2, "old");
    var s3 := Rebuilt(s2, "old");
    d := s3.(c := C7("old").(at := Dead));
    Dies(s3);
    End(d);
    Then(s3, Do(Die), d, [], d);
    HistoryConcat(s2, mid, s3, [Do(Die)] + [], d);
    Then(s1, Do(Receive), s2, mid + ([Do(Die)] + []), d);
    Then(s0, Start(Run("old"), false, false), s1, [Do(Receive)] + (mid + ([Do(Die)] + [])), d);
    h := [Start(Run("old"), false, false)] + ([Do(Receive)] + (mid + ([Do(Die)] + [])));
  }

  // ------------------------------------------------------------------
  // The resumed run: it backs the row up, and finishes
  // ------------------------------------------------------------------

  lemma Resumes(s: State) returns (s': State)
    requires Running(s, "old", map[]) && s.c == C7("old").(at := Dead)
    ensures Leads(s, Start(Run("new"), true, false), s')
    ensures Running(s', "new", map[]) && s'.c == C0() && s'.tables == s.tables
  {
    s' := Started(s, Run("new"), false);
    var log: Option<map<string, nat>> := Some(map[]);
    assert Completed(log) == {};
  }

  lemma BacksUp(s: State)
    requires Running(s, "new", map[]) && "t" in s.tables && s.tables["t"] == Table([RowOf("old")], map[])
    ensures BackedUp(s, "t") == map["t" := RowOf("old")]
  {
    assert [RowOf("old")][..0] == [];
    assert Content(s.tables["t"]) == RowOf("old");
    var rows := Matching(s.setup.rules, "t", Content(s.tables["t"]));
    assert rows == RowOf("old") && 1 in rows;
    assert map[]["t" := rows] == map["t" := rows];
  }

  lemma EndsTable(s: State)
    requires s.c == C7("new") && s.setup == Run("new")
    ensures Leads(s, Do(Receive), s.(c := C8("new")))
  {
    assert C7("new").ddls == map[] by { assert C4().ddls == map["t" := 0]; }
    assert C7("new").completed == {} && C7("new").skipped == {};
    hide C8;
    EightIs();
  }

  lemma EightIs()
    ensures C8("new") == Defer(C7("new"), "t", 1)
  {
  }

  lemma Drains(s: State)
    requires s.c == C8("new")
    ensures Leads(s, Do(Drain({1})), s.(c := C9("new")))
  {
    assert C8("new").loads == [1] && 1 in C8("new").finished;
    assert Keep([1], {1}) == [] by { assert [1][1..] == []; }
  }

  ghost function Marked(s: State): State {
    s.(checkpoint := Some(map["t" := 1]), done := s.done["t" := CompletionOf(s, "t")], c := C10("new"))
  }

  lemma Marks(s: State)
    requires s.c == C9("new") && s.checkpoint == Some(map[])
    ensures Leads(s, Do(Finalize("t")), Marked(s))
  {
    hide CompletionOf;
    assert C9("new").deferred == map["t" := 1];
    var log: map<string, nat> := map[];
    assert log["t" := 1] == map["t" := 1];
  }

  lemma SweepEnds(s: State)
    requires s.c == C10("new")
    ensures Leads(s, Do(EndDrain), s.(c := C10("new").(at := Receiving)))
  {
    assert C10("new").deferred == map[];
  }

  lemma StreamEnds(s: State)
    requires s.c == C10("new").(at := Receiving) && s.setup == Run("new")
    ensures Leads(s, Do(Receive), s.(c := C10("new").(at := Finishing)))
  {
    assert C10("new").pos == 3;
  }

  lemma Restores(s: State)
    requires s.c == C10("new").(at := Finishing)
    ensures Leads(s, Do(BeginRestore), s.(c := C10("new").(at := Restoring)))
  {
    assert C10("new").deferred == map[] && C10("new").ddls == map[] by { assert C4().ddls == map["t" := 0]; }
  }

  ghost function PutBackState(s: State): State {
    s.(tables := s.tables["t" := Table([RowOf("new")], RowOf("old"))], c := C10("new").(at := Replaced("t")))
  }

  lemma PutsBack(s: State)
    requires s.c == C10("new").(at := Restoring) && s.backups == map["t" := RowOf("old")]
    requires "t" in s.tables && s.tables["t"] == Table([RowOf("new")], map[])
    ensures Leads(s, Do(Replace("t")), PutBackState(s))
  {
    assert map[] + RowOf("old") == RowOf("old");
    hide C10;
  }

  lemma DropsBackup(s: State)
    requires s.c == C10("new").(at := Replaced("t")) && s.backups == map["t" := RowOf("old")]
    ensures Leads(s, Do(DropBackup), s.(backups := map[], c := C10("new").(at := Restoring)))
  {
    hide C10;
    assert s.backups - {"t"} == map[];
  }

  lemma Posts(s: State)
    requires s.c == C10("new").(at := Restoring) && s.backups == map[]
    ensures Leads(s, Do(BeginPost), s.(c := C10("new").(at := Posting(0))))
  {
    hide C10;
  }

  lemma Cleans(s: State)
    requires s.c == C10("new").(at := Posting(0)) && s.setup == Run("new")
    ensures Leads(s, Do(Cleanup), s.(checkpoint := None, c := C10("new").(at := Where.Finished)))
  {
    hide C10;
  }

  /** From the filled table to the checkpoint. */
  lemma Checkpoints(s: State) returns (h: seq<Action>)
    requires Running(s, "new", s.backups) && s.c == C7("new")
    ensures History(s, h, Marked(s.(c := C9("new"))).(c := C10("new").(at := Finishing)))
  {
    hide History, Leads, C7, C8, C9, C10, Run, CompletionOf;
    var s1, s2 := s.(c := C8("new")), s.(c := C9("new"));
    var s3 := Marked(s2);
    var s4, s5 := s3.(c := C10("new").(at := Receiving)), s3.(c := C10("new").(at := Finishing));
    EndsTable(s);
    Drains(s1);
    Marks(s2);
    SweepEnds(s3);
    StreamEnds(s4);
    End(s5);
    Then(s4, Do(Receive), s5, [], s5);
    h := [Do(Receive)] + [];
    Then(s3, Do(EndDrain), s4, h, s5);
    h := [Do(EndDrain)] + h;
    Then(s2, Do(Finalize("t")), s3, h, s5);
    h := [Do(Finalize("t"))] + h;
    Then(s1, Do(Drain({1})), s2, h, s5);
    h := [Do(Drain({1}))] + h;
    Then(s, Do(Receive), s1, h, s5);
    h := [Do(Receive)] + h;
  }

  /** From there to the end. */
  lemma Finishes(s: State) returns (h: seq<Action>, s': State)
    requires s.setup == Run("new") && s.backups == map["t" := RowOf("old")] && s.c == C10("new").(at := Finishing)
    requires "t" in s.tables && s.tables["t"] == Table([RowOf("new")], map[])
    ensures History(s, h, s') && s'.c.at == Where.Finished && s'.setup == Run("new") && s'.base == s.base
            && !(s'.edited && !s.edited)
    ensures "t" in s'.tables && s'.tables["t"] == Table([RowOf("new")], RowOf("old"))
  {
    hide History, Leads, C10, Run;
    var s1 := s.(c := C10("new").(at := Restoring));
    var s2 := PutBackState(s1);
    var s3 := s2.(backups := map[], c := C10("new").(at := Restoring));
    var s4 := s3.(c := C10("new").(at := Posting(0)));
    s' := s4.(checkpoint := None, c := C10("new").(at := Where.Finished));
    Restores(s);
    PutsBack(s1);
    DropsBackup(s2);
    Posts(s3);
    Cleans(s4);
    End(s');
    Then(s4, Do(Cleanup), s', [], s');
    h := [Do(Cleanup)] + [];
    Then(s3, Do(BeginPost), s4, h, s');
    h := [Do(BeginPost)] + h;
    Then(s2, Do(DropBackup), s3, h, s');
    h := [Do(DropBackup)] + h;
    Then(s1, Do(Replace("t")), s2, h, s');
    h := [Do(Replace("t"))] + h;
    Then(s, Do(BeginRestore), s1, h, s');
    h := [Do(BeginRestore)] + h;
  }

  lemma SecondRun(d: State) returns (h: seq<Action>, s: State)
    requires Running(d, "old", map[]) && d.c == C7("old").(at := Dead)
    requires "t" in d.tables && d.tables["t"] == Table([RowOf("old")], map[])
    ensures History(d, h, s) && s.c.at == Where.Finished && s.setup == Run("new") && s.base == map[] && !s.edited
    ensures "t" in s.tables && s.tables["t"] == Table([RowOf("new")], RowOf("old"))
  {
    hide History, Leads, C0, C1, C7, C9, C10, Run, BackedUp, CompletionOf, RowOf;
    var s1 := Resumes(d);
    Announces(s1, "new");
    BacksUp(s1);
    var s2 := s1.(backups := BackedUp(s1, "t"), c := C1());
    var mid := Rebuilds(s2, "new");
    var s3 := Rebuilt(s2, "new");
    var more := Checkpoints(s3);
    var s4 := Marked(s3.(c := C9("new"))).(c := C10("new").(at := Finishing));
    var last;
    last, s := Finishes(s4);
    HistoryConcat(s3, more, s4, last, s);
    HistoryConcat(s2, mid, s3, more + last, s);
    Then(s1, Do(Receive), s2, mid + (more + last), s);
    Then(d, Start(Run("new"), true, false), s1, [Do(Receive)] + (mid + (more + last)), s);
    h := [Start(Run("new"), true, false)] + ([Do(Receive)] + (mid + (more + last)));
  }

  /** The local database holds nothing to preserve. The first run loads its row and dies; the
      resumed run is sent another value for it, and finishes with the first one in the table. */
  lemma ImportedRowPreserved(s0: State)
    requires Untouched(s0) && s0.tables == map[]
    ensures exists actions, s :: History(s0, actions, s)
              && s.c.at == Where.Finished && s.setup == Run("new") && !s.edited && Kept(s, "t") == map[]
              && "t" in s.tables && s.tables["t"].loads == [RowOf("new")] && Content(s.tables["t"]) == RowOf("old")
  {
    var first, d := FirstRun(s0);
    var second, s := SecondRun(d);
    HistoryConcat(s0, first, d, second, s);
    assert Kept(s, "t") == map[];
    assert [RowOf("new")][..0] == [];
    assert Content(s.tables["t"]) == RowOf("old");
  }

  // ------------------------------------------------------------------
  // A resumed run that never ends
  // ------------------------------------------------------------------

  /** A run that is sent the end of a table, and never its schema: it was looked up in vain. */
  function InVain(): Setup {
    Setup(false, 1, [Message.TableDone("t", 0)], PreserveRules({}, (t, k, v) => false), [])
  }

  lemma InVainIsOrderly()
    ensures Orderly(InVain().stream) && PhaseOf(InVain().stream, "t").Bare?
  {
    var ms := InVain().stream;
    assert ms[..0] == [];
    forall t ensures PhaseOf(ms, t) == if t == "t" then Bare else Absent {
      assert PhaseOf(ms[..0], t) == Absent;
    }
  }

  lemma VainBegins(s: State) returns (s': State)
    requires Untouched(s)
    ensures Leads(s, Start(InVain(), false, false), s')
    ensures s'.c == C0() && s'.setup == InVain() && s'.checkpoint == Some(map[])
  {
    s' := Started(s, InVain(), false);
  }

  lemma VainReads(s: State)
    requires s.c == C0() && s.setup == InVain()
    ensures Leads(s, Do(Receive), s.(c := Defer(C0(), "t", 0)))
  {
  }

  function VainSwept(): Client { Defer(C0(), "t", 0).(at := Swept(false)) }

  lemma VainDrains(s: State)
    requires s.c == Defer(C0(), "t", 0)
    ensures Leads(s, Do(Drain({})), s.(c := VainSwept()))
  {
  }

  lemma VainMarks(s: State) returns (s': State)
    requires s.c == VainSwept() && s.checkpoint == Some(map[]) && s.setup == InVain()
    ensures Leads(s, Do(Finalize("t")), s') && s'.c.at == Swept(false) && s'.setup == InVain()
    ensures s'.checkpoint == Some(map["t" := 0])
  {
    hide CompletionOf;
    s' := Finalized(s, "t");
    assert s.c.deferred == map["t" := 0];
    var log: map<string, nat> := map[];
    assert log["t" := 0] == map["t" := 0];
  }

  lemma VainDies(s: State)
    requires s.c.at == Swept(false)
    ensures Leads(s, Do(Die), s.(c := s.c.(at := Dead)))
  {
  }

  /** The first run reads the end, checkpoints the table and dies. */
  lemma EntersCheckpoint(s0: State) returns (h: seq<Action>, d: State)
    requires Untouched(s0)
    ensures History(s0, h, d) && d.checkpoint == Some(map["t" := 0]) && d.c.at == Dead && d.setup == InVain()
    ensures forall i :: 0 <= i < |h| && h[i].Start? ==> h[i].setup == InVain()
  {
    hide History, Leads, Untouched, InVain, C0, VainSwept;
    var s1 := VainBegins(s0);
    var s2, s3 := s1.(c := Defer(C0(), "t", 0)), s1.(c := VainSwept());
    VainReads(s1);
    VainDrains(s2);
    var s4 := VainMarks(s3);
    d := s4.(c := s4.c.(at := Dead));
    VainDies(s4);
    End(d);
    Then(s4, Do(Die), d, [], d);
    h := [Do(Die)] + [];
    Then(s3, Do(Finalize("t")), s4, h, d);
    h := [Do(Finalize("t"))] + h;
    Then(s2, Do(Drain({})), s3, h, d);
    h := [Do(Drain({}))] + h;
    Then(s1, Do(Receive), s2, h, d);
    h := [Do(Receive)] + h;
    Then(s0, Start(InVain(), false, false), s1, h, d);
    h := [Start(InVain(), false, false)] + h;
  }

  /** On the same stream, the run that resumes is doomed: none of its continuations ends. */
  lemma SameStreamNeverEnds(s0: State)
    requires Untouched(s0)
    ensures exists actions, s :: Came(s0, actions, s) && s.setup == InVain() && !Idle(s) && Doomed(s)
              && forall run: nat -> State ::
                   run(0) == s && (forall i: nat :: Follows(run(i), run(i + 1))) ==> !Ends(run)
  {
    var h, d := EntersCheckpoint(s0);
    var s := Started(d, InVain(), false);
    var a := Start(InVain(), true, false);
    InVainIsOrderly();
    assert CanStart(d, InVain(), true, false);
    HistoryAppend(s0, h, d, a);
    assert "t" in s.c.completed;
    assert Came(s0, h + [a], s);
    hide Came, Follows, Ends, Doomed, InVain;
    forall run: nat -> State | run(0) == s && forall i: nat :: Follows(run(i), run(i + 1)) ensures !Ends(run) {
      EveryRunEnds(s0, h + [a], run);
    }
  }
}
