/** The client as a state machine: the message loop, the loader pool's workers over a FIFO
    queue, the checkpoint, the preserve backups, and crashes after which a new run starts on
    whatever the local database holds. `jibs load` is the same loop without a checkpoint. */
module ImportMachine {
  import opened Bytes
  import opened Streams
  import opened LocalDb

  type Msg = Message<Rows>

  /** The `preserve` rules: the tables that have one, and the rows they keep. */
  datatype PreserveRules = PreserveRules(tables: set<string>, keeps: (string, nat, string) -> bool)

  /** One run's fixed data. The server's `Done`, or the dump's terminator, is the end of
      `stream`. `post` are the set blocks and after statements. */
  datatype Setup = Setup(
    load: bool,
    workers: nat,
    stream: seq<Msg>,
    rules: PreserveRules,
    post: seq<map<string, Rows> -> map<string, Rows>>)

  const MAX_PENDING_CHUNKS: nat := 100

  datatype Job = CreateTable(table: string) | LoadData(table: string, data: Rows)

  /** Where the message loop is. A phase that waits does so for a worker. */
  datatype Where =
    | Receiving
    | Draining(limited: bool)
    | Swept(limited: bool)
    | AwaitingOldest
    | Finishing
    | Restoring
    | Replaced(table: string)
    | Posting(next: nat)
    | Finished
    | Dead

  /** The client's memory, lost in a crash. `jobs` are all jobs submitted; the first `taken`
      left the queue. `created` maps a table to its CREATE job. */
  datatype Client = Client(
    pos: nat,
    completed: set<string>,
    skipped: set<string>,
    schemas: set<string>,
    jobs: seq<Job>,
    taken: nat,
    dropped: set<nat>,
    finished: set<nat>,
    created: map<string, nat>,
    ddls: map<string, nat>,
    loads: seq<nat>,
    deferred: map<string, nat>,
    at: Where)

  /** How a table came into the checkpoint: with these chunks; or its end came without a schema,
      and what the local table held was left alone. */
  datatype Completion = Rebuilt(chunks: seq<Rows>, rows: nat) | LeftAlone(loads: Option<seq<Rows>>)

  /** The local database, the running client, and the history the properties speak of: `done`,
      how each checkpointed table was completed; `base`, the tables when this import was first
      started, and `before`, when its last run started; `rebuilt`, the tables it has created;
      `posted`, that this run, and `edited`, that an earlier run of this import executed a set
      block or after statement. */
  datatype State = State(
    tables: map<string, Table>,
    checkpoint: Option<map<string, nat>>,
    backups: map<string, Rows>,
    setup: Setup,
    c: Client,
    done: map<string, Completion>,
    base: map<string, Table>,
    before: map<string, Table>,
    rebuilt: set<string>,
    posted: bool,
    edited: bool)

  datatype Step =
    | Receive
    | Drain(gone: set<nat>)
    | Finalize(table: string)
    | EndDrain
    | TakeOldest
    | FinishDdl(table: string)
    | FinishLoad
    | BeginRestore
    | Replace(table: string)
    | DropBackup
    | BeginPost
    | RunPost
    | Cleanup
    | WorkerTake
    | WorkerDrop(job: nat)
    | WorkerDone(job: nat)
    | Die

  // ------------------------------------------------------------------
  // Helpers
  // ------------------------------------------------------------------

  ghost function Completed(checkpoint: Option<map<string, nat>>): set<string> {
    if checkpoint.Some? then checkpoint.value.Keys else {}
  }

  function LoadsIn(tables: map<string, Table>, t: string): Option<seq<Rows>> {
    if t in tables then Some(tables[t].loads) else None
  }

  ghost predicate HasPreviousState(s: State) { s.checkpoint.Some? || s.backups != map[] }

  /** The rows of a table the rules keep. */
  ghost function Matching(rules: PreserveRules, t: string, rows: Rows): Rows {
    map k | k in rows && rules.keeps(t, k, rows[k]) :: rows[k]
  }

  /** The local rows to preserve: those the rules matched when the import was first started. */
  ghost function Kept(s: State, t: string): Rows {
    if t in s.base && t in s.setup.rules.tables then Matching(s.setup.rules, t, Content(s.base[t])) else map[]
  }

  /** `backup_preserved_rows`: an existing backup is kept; otherwise the matching rows are
      copied, unless the table is missing or none match. */
  ghost function BackedUp(s: State, t: string): map<string, Rows> {
    if t !in s.setup.rules.tables || t in s.backups || t !in s.tables then s.backups
    else
      var rows := Matching(s.setup.rules, t, Content(s.tables[t]));
      if rows == map[] then s.backups else s.backups[t := rows]
  }

  ghost predicate Running(c: Client, j: nat) { j < c.taken <= |c.jobs| && j !in c.finished }

  ghost function RunningJobs(c: Client): set<nat> { set j | 0 <= j < c.taken && j !in c.finished }

  ghost predicate DdlDone(c: Client, t: string) { t in c.ddls ==> c.ddls[t] in c.finished }

  ghost function Keep(loads: seq<nat>, gone: set<nat>): seq<nat> {
    if loads == [] then []
    else (if loads[0] in gone then [] else [loads[0]]) + Keep(loads[1..], gone)
  }

  /** No load of the table is pending. */
  ghost predicate Ready(c: Client, t: string) {
    t in c.deferred && forall i :: 0 <= i < |c.loads| && c.loads[i] < |c.jobs| ==> c.jobs[c.loads[i]].table != t
  }

  ghost function ChunksOf(ms: seq<Msg>, t: string): seq<Rows> {
    if ms == [] then []
    else
      var m := ms[|ms| - 1];
      ChunksOf(ms[..|ms| - 1], t) + if m.Data? && m.table == t then [m.data] else []
  }

  ghost function AfterPost(tables: map<string, Table>, f: map<string, Rows> -> map<string, Rows>): map<string, Table> {
    var rows := f(Contents(tables));
    map t | t in rows :: Table([rows[t]], map[])
  }

  // ------------------------------------------------------------------
  // Starting a run
  // ------------------------------------------------------------------

  function NewClient(completed: set<string>): Client {
    Client(0, completed, {}, {}, [], 0, {}, {}, map[], map[], [], map[], Receiving)
  }

  /** No process is running. */
  ghost predicate Idle(s: State) { s.c.at == Dead || s.c.at == Finished }

  /** A run may start on a database without state from an interrupted import; or with
      `--resume`, under the same preserve rules, on one that has such state; or with `--clean`,
      which discards it. `jibs load` cannot resume. */
  ghost predicate CanStart(s: State, setup: Setup, resume: bool, clean: bool) {
    && Idle(s) && setup.workers > 0
    && (HasPreviousState(s) && !clean ==> resume && !setup.load && setup.rules == s.setup.rules)
  }

  ghost function Started(s: State, setup: Setup, clean: bool): State {
    var first := clean || !HasPreviousState(s);
    var checkpoint := if first then None else s.checkpoint;
    var log := if setup.load then checkpoint else if checkpoint.Some? then checkpoint else Some(map[]);
    State(
      s.tables, log, if first then map[] else s.backups, setup,
      NewClient(Completed(log)),
      if first then map[] else s.done,
      if first then s.tables else s.base, s.tables, if first then {} else s.rebuilt,
      false, !first && (s.edited || s.posted))
  }

  // ------------------------------------------------------------------
  // Messages
  // ------------------------------------------------------------------

  /** A message about a table an earlier run completed. */
  ghost predicate Passed(c: Client, m: Msg) {
    if m.Schema? then m.table in c.completed else m.table in c.skipped
  }

  /** A chunk or a table's end waits for the table's CREATE; a chunk of a table without a
      schema is an error. */
  ghost predicate CanReceive(s: State) {
    var c := s.c;
    && c.at == Receiving
    && (c.pos < |s.setup.stream| ==>
          var m := s.setup.stream[c.pos];
          Passed(c, m) || m.Schema? || (DdlDone(c, m.table) && (m.Data? ==> m.table in c.schemas)))
  }

  function PassOver(c: Client, m: Msg): Client {
    if m.Schema? then c.(pos := c.pos + 1, skipped := c.skipped + {m.table}) else c.(pos := c.pos + 1)
  }

  function Announce(c: Client, t: string): Client {
    c.(pos := c.pos + 1, schemas := c.schemas + {t}, jobs := c.jobs + [CreateTable(t)],
       created := c.created[t := |c.jobs|], ddls := c.ddls[t := |c.jobs|])
  }

  function Submit(c: Client, t: string, data: Rows): Client {
    var loads := c.loads + [|c.jobs|];
    c.(pos := c.pos + 1, ddls := c.ddls - {t}, jobs := c.jobs + [LoadData(t, data)], loads := loads,
       at := if |loads| > MAX_PENDING_CHUNKS then Draining(true) else Receiving)
  }

  function Defer(c: Client, t: string, rows: nat): Client {
    c.(pos := c.pos + 1, ddls := c.ddls - {t}, deferred := c.deferred[t := rows], at := Draining(false))
  }

  /** `jibs load` keeps no checkpoint: a table's end only drops its schema. */
  function Forget(c: Client, t: string): Client {
    c.(pos := c.pos + 1, ddls := c.ddls - {t}, schemas := c.schemas - {t})
  }

  ghost function Received(s: State): State {
    var c := s.c;
    if c.pos >= |s.setup.stream| then s.(c := c.(at := Finishing))
    else
      var m := s.setup.stream[c.pos];
      if Passed(c, m) then s.(c := PassOver(c, m))
      else
        match m
        case Schema(t) => s.(backups := BackedUp(s, t), c := Announce(c, t))
        case Data(t, _, data) => s.(c := Submit(c, t, data))
        case TableDone(t, rows) => s.(c := if s.setup.load then Forget(c, t) else Defer(c, t, rows))
  }

  // ------------------------------------------------------------------
  // Draining and checkpointing
  // ------------------------------------------------------------------

  ghost predicate CanDrain(c: Client, gone: set<nat>) {
    c.at.Draining? && gone <= c.finished && forall j :: j in gone ==> j in c.loads
  }

  ghost function Drained(c: Client, gone: set<nat>): Client
    requires c.at.Draining?
  {
    c.(loads := Keep(c.loads, gone), at := Swept(c.at.limited))
  }

  /** The checkpoint's primary key refuses a table that is already there. */
  ghost predicate CanFinalize(s: State, t: string) {
    && (s.c.at.Swept? || (s.c.at.Finishing? && s.c.ddls == map[] && s.c.loads == []))
    && Ready(s.c, t) && s.checkpoint.Some? && t !in s.checkpoint.value
  }

  /** What a table holds when it is ended: this run's chunks, or, when it was not announced,
      what it held before. */
  /** The table's chunks, and the number of rows its end tells. */
  ghost function Sent(stream: seq<Msg>, t: string): Completion {
    Rebuilt(ChunksOf(stream, t), if PhaseOf(stream, t).Ended? then PhaseOf(stream, t).rows else 0)
  }

  ghost function CompletionOf(s: State, t: string): Completion {
    if t in s.c.created then Sent(s.setup.stream, t) else LeftAlone(LoadsIn(s.before, t))
  }

  ghost function Finalized(s: State, t: string): State
    requires t in s.c.deferred && s.checkpoint.Some?
  {
    s.(checkpoint := Some(s.checkpoint.value[t := s.c.deferred[t]]),
       done := s.done[t := CompletionOf(s, t)],
       c := s.c.(deferred := s.c.deferred - {t}, schemas := s.c.schemas - {t}))
  }

  ghost predicate CanEndDrain(c: Client) {
    c.at.Swept? && forall t :: t in c.deferred ==> !Ready(c, t)
  }

  function EndedDrain(c: Client): Client
    requires c.at.Swept?
  {
    c.(at := if c.at.limited && |c.loads| > MAX_PENDING_CHUNKS then AwaitingOldest else Receiving)
  }

  ghost predicate OldestDone(c: Client) { c.loads != [] && c.loads[0] in c.finished }

  function TookOldest(c: Client): Client
    requires c.loads != []
  {
    c.(loads := c.loads[1..], at := Receiving)
  }

  // ------------------------------------------------------------------
  // Finishing
  // ------------------------------------------------------------------

  ghost predicate CanFinishDdl(c: Client, t: string) { c.at.Finishing? && t in c.ddls && c.ddls[t] in c.finished }

  ghost predicate CanFinishLoad(c: Client) { c.at.Finishing? && c.ddls == map[] && OldestDone(c) }

  ghost predicate CanRestore(c: Client) { c.at.Finishing? && c.ddls == map[] && c.loads == [] && c.deferred == map[] }

  /** REPLACE INTO needs the table. */
  ghost predicate CanReplace(s: State, t: string) { s.c.at.Restoring? && t in s.backups && t in s.tables }

  ghost function ReplacedRows(s: State, t: string): State
    requires t in s.backups && t in s.tables
  {
    var table := s.tables[t];
    s.(tables := s.tables[t := table.(restored := table.restored + s.backups[t])], c := s.c.(at := Replaced(t)))
  }

  ghost function Posted(s: State): State
    requires s.c.at.Posting? && s.c.at.next < |s.setup.post|
  {
    s.(tables := AfterPost(s.tables, s.setup.post[s.c.at.next]), posted := true,
       c := s.c.(at := Posting(s.c.at.next + 1)))
  }

  // ------------------------------------------------------------------
  // Workers
  // ------------------------------------------------------------------

  ghost predicate CanTake(s: State) { s.c.taken < |s.c.jobs| && |RunningJobs(s.c)| < s.setup.workers }

  ghost predicate CanDrop(s: State, j: nat) { Running(s.c, j) && s.c.jobs[j].CreateTable? && j !in s.c.dropped }

  /** CREATE TABLE runs after its DROP; a load needs its table. */
  ghost predicate CanComplete(s: State, j: nat) {
    Running(s.c, j) && if s.c.jobs[j].CreateTable? then j in s.c.dropped else s.c.jobs[j].table in s.tables
  }

  ghost function DroppedTable(s: State, j: nat): State
    requires j < |s.c.jobs|
  {
    s.(tables := s.tables - {s.c.jobs[j].table}, c := s.c.(dropped := s.c.dropped + {j}))
  }

  ghost function CompletedJob(s: State, j: nat): State
    requires j < |s.c.jobs| && (s.c.jobs[j].LoadData? ==> s.c.jobs[j].table in s.tables)
  {
    var job := s.c.jobs[j];
    var table := if job.CreateTable? then Table([], map[])
                 else s.tables[job.table].(loads := s.tables[job.table].loads + [job.data]);
    s.(tables := s.tables[job.table := table], c := s.c.(finished := s.c.finished + {j}),
       rebuilt := if job.CreateTable? then s.rebuilt + {job.table} else s.rebuilt)
  }

  // ------------------------------------------------------------------
  // Steps
  // ------------------------------------------------------------------

  ghost predicate Enabled(s: State, step: Step) {
    match step
    case Receive => CanReceive(s)
    case Drain(gone) => CanDrain(s.c, gone)
    case Finalize(t) => CanFinalize(s, t)
    case EndDrain => CanEndDrain(s.c)
    case TakeOldest => s.c.at.AwaitingOldest? && OldestDone(s.c)
    case FinishDdl(t) => CanFinishDdl(s.c, t)
    case FinishLoad => CanFinishLoad(s.c)
    case BeginRestore => CanRestore(s.c)
    case Replace(t) => CanReplace(s, t)
    case DropBackup => s.c.at.Replaced?
    case BeginPost => s.c.at.Restoring? && s.backups == map[]
    case RunPost => s.c.at.Posting? && s.c.at.next < |s.setup.post|
    case Cleanup => s.c.at.Posting? && s.c.at.next == |s.setup.post|
    case WorkerTake => CanTake(s)
    case WorkerDrop(j) => CanDrop(s, j)
    case WorkerDone(j) => CanComplete(s, j)
    case Die => s.c.at != Finished
  }

  ghost function Apply(s: State, step: Step): State
    requires Enabled(s, step)
  {
    match step
    case Receive => Received(s)
    case Drain(gone) => s.(c := Drained(s.c, gone))
    case Finalize(t) => Finalized(s, t)
    case EndDrain => s.(c := EndedDrain(s.c))
    case TakeOldest => s.(c := TookOldest(s.c))
    case FinishDdl(t) => s.(c := s.c.(ddls := s.c.ddls - {t}))
    case FinishLoad => s.(c := s.c.(loads := s.c.loads[1..]))
    case BeginRestore => s.(c := s.c.(at := Restoring))
    case Replace(t) => ReplacedRows(s, t)
    case DropBackup => s.(backups := s.backups - {s.c.at.table}, c := s.c.(at := Restoring))
    case BeginPost => s.(c := s.c.(at := Posting(0)))
    case RunPost => Posted(s)
    case Cleanup => s.(checkpoint := None, c := s.c.(at := Finished))
    case WorkerTake => s.(c := s.c.(taken := s.c.taken + 1))
    case WorkerDrop(j) => DroppedTable(s, j)
    case WorkerDone(j) => CompletedJob(s, j)
    case Die => s.(c := s.c.(at := Dead))
  }

  // ------------------------------------------------------------------
  // Histories
  // ------------------------------------------------------------------

  datatype Action = Start(setup: Setup, resume: bool, clean: bool) | Do(step: Step)

  ghost predicate Allowed(s: State, a: Action) {
    match a
    case Start(setup, resume, clean) => CanStart(s, setup, resume, clean)
    case Do(step) => Enabled(s, step)
  }

  ghost function Act(s: State, a: Action): State
    requires Allowed(s, a)
  {
    match a
    case Start(setup, resume, clean) => Started(s, setup, clean)
    case Do(step) => Apply(s, step)
  }

  /** A sequence of runs, with any interleaving of messages, worker steps and crashes. */
  ghost predicate History(s: State, actions: seq<Action>, s': State)
    decreases |actions|
  {
    if actions == [] then s' == s
    else Allowed(s, actions[0]) && History(Act(s, actions[0]), actions[1..], s')
  }

  lemma HistoryPrepend(s: State, a: Action, actions: seq<Action>, s': State)
    requires Allowed(s, a) && History(Act(s, a), actions, s')
    ensures History(s, [a] + actions, s')
  {
    hide Allowed, Act;
    assert ([a] + actions)[1..] == actions;
  }

  lemma {:induction false} HistoryAppend(s: State, actions: seq<Action>, s': State, a: Action)
    requires History(s, actions, s') && Allowed(s', a)
    ensures History(s, actions + [a], Act(s', a))
    decreases |actions|
  {
    hide Allowed, Act;
    if actions == [] {
      assert (actions + [a])[1..] == [];
      assert History(Act(s', a), [], Act(s', a));
    } else {
      HistoryAppend(Act(s, actions[0]), actions[1..], s', a);
      assert (actions + [a])[1..] == actions[1..] + [a];
    }
  }

  lemma {:induction false} HistoryConcat(s: State, a: seq<Action>, s': State, b: seq<Action>, s'': State)
    requires History(s, a, s') && History(s', b, s'')
    ensures History(s, a + b, s'')
    decreases |a|
  {
    hide Allowed, Act;
    if a == [] {
      assert a + b == b;
    } else {
      HistoryConcat(Act(s, a[0]), a[1..], s', b, s'');
      assert (a + b)[1..] == a[1..] + b;
    }
  }

  /** A database no import has touched. */
  ghost predicate Untouched(s: State) {
    && s.checkpoint == None && s.backups == map[] && s.done == map[] && s.rebuilt == {} && !s.posted && !s.edited
    && s.setup.stream == [] && !s.setup.load && s.base == s.before == s.tables && s.c == NewClient({}).(at := Dead)
  }
}
