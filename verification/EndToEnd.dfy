/** From the server's closure to the local tables: what an import leaves, in terms of the rows
    the plan reaches. */
module EndToEnd {
  import opened Bytes
  import opened RowKeys
  import opened Rows
  import opened StaticWalk
  import opened Database
  import opened Streams
  import opened Emission
  import opened Closure
  import opened Streaming
  import opened Schedule
  import opened Guarantees
  import LocalDb
  import ImportMachine
  import ImportInvariants
  import ImportSteps
  import ImportSafety
  import ImportPreserve
  import ImportResult

  /** How `LOAD DATA` stores a row: its local primary key, and its columns. */
  datatype Storage = Storage(key: (string, Row) -> nat, columns: (string, Row) -> string)

  /** The local primary key tells the source's rows apart. */
  ghost predicate Keyed(st: Storage, db: Database) {
    forall t, r, s :: r in RowsOf(db, t) && s in RowsOf(db, t) && st.key(t, r) == st.key(t, s) ==> r == s
  }

  /** A chunk as loaded. */
  function Stored(st: Storage, t: string, rows: seq<Row>): LocalDb.Rows {
    if rows == [] then map[]
    else
      var r := rows[|rows| - 1];
      map[st.key(t, r) := st.columns(t, r)] + Stored(st, t, rows[..|rows| - 1])
  }

  function Carry(st: Storage, m: RowMessage): ImportMachine.Msg {
    match m
    case Schema(t) => Message.Schema(t)
    case Data(t, n, rows) => Message.Data(t, n, Stored(st, t, rows))
    case TableDone(t, n) => Message.TableDone(t, n)
  }

  /** The client's view of the stream. */
  function CarryAll(st: Storage, ms: seq<RowMessage>): (out: seq<ImportMachine.Msg>)
    ensures |out| == |ms|
  {
    if ms == [] then [] else CarryAll(st, ms[..|ms| - 1]) + [Carry(st, ms[|ms| - 1])]
  }

  lemma {:induction false} CarryPhase(st: Storage, ms: seq<RowMessage>, t: string)
    ensures PhaseOf(CarryAll(st, ms), t) == PhaseOf(ms, t)
  {
    hide Stored;
    if ms != [] {
      var n := |ms| - 1;
      CarryPhase(st, ms[..n], t);
      PhaseOfAppend(CarryAll(st, ms[..n]), Carry(st, ms[n]), t);
    }
  }

  lemma CarryOrderly(st: Storage, ms: seq<RowMessage>)
    ensures Orderly(CarryAll(st, ms)) <==> Orderly(ms)
  {
    hide PhaseOf;
    forall t ensures PhaseOf(CarryAll(st, ms), t) == PhaseOf(ms, t) { CarryPhase(st, ms, t); }
  }

  // ------------------------------------------------------------------
  // The rows of one table
  // ------------------------------------------------------------------

  /** The local rows are these source rows. */
  ghost predicate Holds(st: Storage, t: string, local: LocalDb.Rows, rows: iset<Row>) {
    && (forall k :: k in local ==> exists r :: r in rows && st.key(t, r) == k && local[k] == st.columns(t, r))
    && (forall r :: r in rows ==> st.key(t, r) in local)
  }

  ghost function RowsIn(rows: seq<Row>): iset<Row> { iset r | r in rows }

  lemma {:induction false} StoredHolds(st: Storage, t: string, rows: seq<Row>)
    ensures Holds(st, t, Stored(st, t, rows), RowsIn(rows))
  {
    if rows != [] {
      var n := |rows| - 1;
      StoredHolds(st, t, rows[..n]);
      assert rows == rows[..n] + [rows[n]];
    }
  }

  /** The rows of a table in the stream so far. */
  ghost function SentRows(ms: seq<RowMessage>, t: string): iset<Row> { iset r | (t, r) in Flat(ms) }

  ghost predicate PartOf(st: Storage, t: string, chunk: LocalDb.Rows, rows: iset<Row>) {
    exists part :: part <= rows && Holds(st, t, chunk, part)
  }

  /** Each chunk the client is sent holds rows of the stream, and together they hold all. */
  ghost predicate ChunksHold(st: Storage, t: string, chunks: seq<LocalDb.Rows>, rows: iset<Row>) {
    && (forall i :: 0 <= i < |chunks| ==> PartOf(st, t, chunks[i], rows))
    && (forall r :: r in rows ==> exists i :: 0 <= i < |chunks| && st.key(t, r) in chunks[i])
  }

  lemma {:induction false} ChunksCarry(st: Storage, ms: seq<RowMessage>, t: string)
    ensures ChunksHold(st, t, ImportMachine.ChunksOf(CarryAll(st, ms), t), SentRows(ms, t))
  {
    hide Stored, Holds;
    if ms != [] {
      var n := |ms| - 1;
      var m := ms[n];
      ChunksCarry(st, ms[..n], t);
      ImportInvariants.ChunksOfAppend(CarryAll(st, ms[..n]), Carry(st, m), t);
      if m.Data? && m.table == t {
        StoredHolds(st, t, m.data);
        OneChunkMore(st, t, ImportMachine.ChunksOf(CarryAll(st, ms[..n]), t), SentRows(ms[..n], t),
                     Stored(st, t, m.data), RowsIn(m.data));
        TagRows(ms, t);
      } else {
        assert SentRows(ms, t) == SentRows(ms[..n], t);
        var chunks := ImportMachine.ChunksOf(CarryAll(st, ms[..n]), t);
        assert chunks + [] == chunks;
      }
    }
  }

  lemma TagRows(ms: seq<RowMessage>, t: string)
    requires ms != [] && ms[|ms| - 1].Data? && ms[|ms| - 1].table == t
    ensures SentRows(ms, t) == SentRows(ms[..|ms| - 1], t) + RowsIn(ms[|ms| - 1].data)
  {
    var rows := ms[|ms| - 1].data;
    forall r ensures (t, r) in Tag(t, rows) <==> r in rows {
      if i :| 0 <= i < |rows| && rows[i] == r { assert Tag(t, rows)[i] == (t, r); }
    }
  }

  lemma OneChunkMore(st: Storage, t: string, chunks: seq<LocalDb.Rows>, rows: iset<Row>, chunk: LocalDb.Rows,
                     more: iset<Row>)
    requires ChunksHold(st, t, chunks, rows) && Holds(st, t, chunk, more)
    ensures ChunksHold(st, t, chunks + [chunk], rows + more)
  {
    hide Holds;
    var all := chunks + [chunk];
    KeysOf(st, t, chunk, more);
    forall i | 0 <= i < |all| ensures PartOf(st, t, all[i], rows + more) {
      if i < |chunks| {
        var part :| part <= rows && Holds(st, t, chunks[i], part);
        assert part <= rows + more;
      } else {
        assert more <= rows + more;
      }
    }
    forall r | r in rows + more ensures exists i :: 0 <= i < |all| && st.key(t, r) in all[i] {
      if r in rows {
        var i :| 0 <= i < |chunks| && st.key(t, r) in chunks[i];
        assert st.key(t, r) in all[i];
      } else {
        assert st.key(t, r) in all[|chunks|];
      }
    }
  }

  lemma KeysOf(st: Storage, t: string, chunk: LocalDb.Rows, rows: iset<Row>)
    requires Holds(st, t, chunk, rows)
    ensures forall r :: r in rows ==> st.key(t, r) in chunk
  {
  }

  /** Rows with distinct keys load to the same table in any order: no chunk contradicts
      another, and together they hold the rows. */
  lemma ChunksGive(st: Storage, t: string, chunks: seq<LocalDb.Rows>, rows: iset<Row>)
    requires ChunksHold(st, t, chunks, rows)
    requires forall r, s :: r in rows && s in rows && st.key(t, r) == st.key(t, s) ==> r == s
    ensures LocalDb.Agreeing(chunks) && Holds(st, t, LocalDb.Loaded(chunks), rows)
  {
    forall i, k | 0 <= i < |chunks| && k in chunks[i]
      ensures exists r :: r in rows && st.key(t, r) == k && chunks[i][k] == st.columns(t, r)
    {
      var part :| part <= rows && Holds(st, t, chunks[i], part);
    }
    forall k ensures k in LocalDb.Loaded(chunks) <==> exists i :: 0 <= i < |chunks| && k in chunks[i]
             ensures k in LocalDb.Loaded(chunks) ==>
                       exists i :: 0 <= i < |chunks| && k in chunks[i] && LocalDb.Loaded(chunks)[k] == chunks[i][k] {
      LocalDb.LoadedKeys(chunks, k);
    }
  }

  /** The rows decide the table. */
  lemma HoldsSame(st: Storage, t: string, a: LocalDb.Rows, b: LocalDb.Rows, rows: iset<Row>)
    requires Holds(st, t, a, rows) && Holds(st, t, b, rows)
    requires forall r, s :: r in rows && s in rows && st.key(t, r) == st.key(t, s) ==> r == s
    ensures a == b
  {
  }

  // ------------------------------------------------------------------
  // What every run of the server sends
  // ------------------------------------------------------------------

  /** One run: its producers' streams, merged in some way. */
  ghost predicate ServerRun(env: Env, p: Parts, whole: seq<RowMessage>) {
    GoodRun(env, p) && MergedAll(Producers(p), whole)
  }

  /** No excluded root has rows: exactly then the client can read the stream
      (`Guarantees.StreamOrderly`). */
  ghost predicate Clean(env: Env) { forall t :: !ExcludedRoot(env, t) }

  /** The table is looked up in vain: its end is sent, and nothing else. */
  ghost predicate InVain(env: Env, t: string) {
    Queried(env, t) && !exists x: Item :: Met(env, x) && x.0 == t
  }

  lemma InVainIsNotSent(env: Env, t: string)
    requires SaneEnv(env) && Accepted(env, |env.plan.aggregates|) && InVain(env, t)
    ensures !SentTable(env, t)
  {
    hide Potential, Touched, Queried, Met, Sane, Accepted;
    QueriedTouches(env, t);
    TouchedNotExcluded(env, t);
  }

  /** The table belongs to some producer. */
  ghost predicate SentTable(env: Env, t: string) {
    MainSends(env, t) || WorkerCopies(env, t) || SpareCopies(env, t) || exists x: Item :: Met(env, x) && x.0 == t
  }

  ghost function ReachedRows(env: Env, t: string): iset<Row> { iset r | Met(env, (t, r)) || Copied(env, (t, r)) }

  /** Whatever the interleaving, the tables announced are the same, and so are those ended
      without a schema. */
  lemma AnnouncedIsSent(env: Env, p: Parts, whole: seq<RowMessage>, t: string)
    requires ServerRun(env, p, whole) && Clean(env)
    ensures PhaseOf(whole, t).Ended? <==> SentTable(env, t)
    ensures PhaseOf(whole, t).Bare? <==> InVain(env, t)
  {
    hide PhaseOf, Flat, Mentions, Sane, Potential, Touched, FullCopy, Accepted, Met, Queried, ExcludedRoot, MergedAll,
         SentTable;
    StreamPhase(env, p, whole, t);
    var parts := Producers(p);
    assert parts[0] == p.main && parts[1] == p.bfs;
    if InVain(env, t) {
      InVainIsNotSent(env, t);
    } else if k :| 0 <= k < |parts| && Mentions(parts[k], t) {
      SomeProducer(env, p, k, t);
      MentionedInWhole(env, p, whole, k, t);
    } else {
      MergedMentions(parts, whole, t);
      NoProducer(env, p, t);
    }
  }

  lemma SomeProducer(env: Env, p: Parts, k: nat, t: string)
    requires GoodRun(env, p) && Clean(env) && k < |Producers(p)| && Mentions(Producers(p)[k], t) && !InVain(env, t)
    ensures SentTable(env, t)
  {
    hide PhaseOf, Flat, Mentions, Sane, Potential, Touched, FullCopy, Accepted, Met, Queried, ExcludedRoot,
         WorkerCopies, SpareCopies;
    MentionsIsOwns(env, p, k, t);
    assert k >= 2 && k < 2 + |p.workers| ==> p.workers[k - 2] in p.workers;
    assert k >= 2 + |p.workers| ==> p.spares[k - 2 - |p.workers|] in p.spares;
  }

  lemma MentionedInWhole(env: Env, p: Parts, whole: seq<RowMessage>, k: nat, t: string)
    requires ServerRun(env, p, whole) && Clean(env) && k < |Producers(p)| && Mentions(Producers(p)[k], t)
    ensures PhaseOf(whole, t).Ended? || PhaseOf(whole, t).Bare?
  {
    hide PhaseOf, Flat, Mentions, Sane, Potential, Touched, FullCopy, Accepted, Met, Queried, ExcludedRoot, MergedAll,
         WorkerCopies, SpareCopies;
    forall i | 0 <= i < |Producers(p)| && i != k ensures !Mentions(Producers(p)[i], t) {
      if i < k { OneProducer(env, p, t, i, k); } else { OneProducer(env, p, t, k, i); }
    }
    MergedAllPhase(Producers(p), whole, t, k);
    ProducerPhase(env, p, k, t);
    StreamPhase(env, p, whole, t);
  }

  lemma NoProducer(env: Env, p: Parts, t: string)
    requires GoodRun(env, p) && forall k :: 0 <= k < |Producers(p)| ==> !Mentions(Producers(p)[k], t)
    ensures !SentTable(env, t)
  {
    hide PhaseOf, Flat, Mentions, Sane, Potential, Touched, FullCopy, Accepted, Met, Queried, WorkerCopies, SpareCopies;
    var parts := Producers(p);
    assert parts[0] == p.main && parts[1] == p.bfs;
    MentionsIsOwns(env, p, 0, t);
    if WorkerCopies(env, t) || SpareCopies(env, t) {
      var k := CopyIndex(env, p, t);
      MentionsIsOwns(env, p, k, t);
    }
  }

  lemma SentIsReached(env: Env, p: Parts, whole: seq<RowMessage>, t: string)
    requires ServerRun(env, p, whole)
    ensures SentRows(whole, t) == ReachedRows(env, t)
  {
    hide Flat, MergedAll, Met, Copied;
    forall r ensures (t, r) in Flat(whole) <==> Met(env, (t, r)) || Copied(env, (t, r)) {
      RowsSent(env, p, whole, (t, r));
    }
  }

  lemma ReachedAreRows(env: Env, t: string)
    requires SaneEnv(env)
    ensures forall r :: r in ReachedRows(env, t) ==> r in RowsOf(env.db, t)
  {
    hide Looks, Sane;
    forall r | Met(env, (t, r)) ensures r in RowsOf(env.db, t) {
      if i :| 0 <= i < |env.plan.aggregates| && (t, r) in RootItems(env.plan.aggregates[i]) {
        assert SaneAggregate(env, env.plan.aggregates[i]);
      }
    }
  }

  /** The data a run delivers does not depend on its interleaving or its chunks. */
  ghost predicate Carries(env: Env, st: Storage, data: ImportResult.TableData) {
    && (forall t :: t in data <==> SentTable(env, t))
    && (forall t :: t in data ==> Holds(st, t, data[t], ReachedRows(env, t)))
  }

  lemma RunDelivers(env: Env, st: Storage, p: Parts, whole: seq<RowMessage>, data: ImportResult.TableData)
    requires ServerRun(env, p, whole) && Clean(env) && Keyed(st, env.db) && Carries(env, st, data)
    ensures ImportResult.Delivers(CarryAll(st, whole), data)
  {
    hide PhaseOf, Flat, MergedAll, GoodRun, SentTable, ReachedRows, Holds, Clean, Stored, CarryAll;
    forall t ensures (t in data <==> PhaseOf(CarryAll(st, whole), t).Ended?)
                     && (t in data ==> ImportResult.Gives(ImportMachine.ChunksOf(CarryAll(st, whole), t), data[t])) {
      CarryPhase(st, whole, t);
      AnnouncedIsSent(env, p, whole, t);
      if t in data { TableGiven(env, st, p, whole, t, data[t]); }
    }
  }

  lemma RowKeysDiffer(env: Env, st: Storage, t: string)
    requires SaneEnv(env) && Keyed(st, env.db)
    ensures forall r, s ::
            r in ReachedRows(env, t) && s in ReachedRows(env, t) && st.key(t, r) == st.key(t, s) ==> r == s
  {
    hide ReachedRows, SaneEnv;
    ReachedAreRows(env, t);
  }

  lemma TableGiven(env: Env, st: Storage, p: Parts, whole: seq<RowMessage>, t: string, rows: LocalDb.Rows)
    requires ServerRun(env, p, whole) && Keyed(st, env.db) && Holds(st, t, rows, ReachedRows(env, t))
    ensures ImportResult.Gives(ImportMachine.ChunksOf(CarryAll(st, whole), t), rows)
  {
    hide PhaseOf, Flat, MergedAll, ReachedRows, Holds, Stored, CarryAll, SentRows, Keyed, SaneEnv, ChunksHold,
         LocalDb.Agreeing;
    var chunks := ImportMachine.ChunksOf(CarryAll(st, whole), t);
    SentIsReached(env, p, whole, t);
    ChunksCarry(st, whole, t);
    RowKeysDiffer(env, st, t);
    ChunksGive(st, t, chunks, ReachedRows(env, t));
    HoldsSame(st, t, LocalDb.Loaded(chunks), rows, ReachedRows(env, t));
  }

  ghost function TablesOf(ms: seq<RowMessage>): set<string> { set m | m in ms :: m.table }

  /** Some run exists, so there is such data. */
  lemma RunCarries(env: Env, st: Storage, p: Parts, whole: seq<RowMessage>) returns (data: ImportResult.TableData)
    requires ServerRun(env, p, whole) && Clean(env) && Keyed(st, env.db)
    ensures Carries(env, st, data)
  {
    hide PhaseOf, ServerRun, SentTable, ReachedRows, Holds, Clean, Keyed;
    data := map t | t in TablesOf(whole) && PhaseOf(whole, t).Ended? :: TableOf(st, whole, t);
    forall t ensures (t in data <==> SentTable(env, t)) && (t in data ==> Holds(st, t, data[t], ReachedRows(env, t))) {
      AnnouncedIsSent(env, p, whole, t);
      EndedIsMentioned(whole, t);
      TableCarried(env, st, p, whole, t);
    }
  }

  ghost function TableOf(st: Storage, whole: seq<RowMessage>, t: string): LocalDb.Rows {
    LocalDb.Loaded(ImportMachine.ChunksOf(CarryAll(st, whole), t))
  }

  lemma TableCarried(env: Env, st: Storage, p: Parts, whole: seq<RowMessage>, t: string)
    requires ServerRun(env, p, whole) && Keyed(st, env.db)
    ensures Holds(st, t, TableOf(st, whole, t), ReachedRows(env, t))
  {
    hide PhaseOf, Flat, MergedAll, ReachedRows, Holds, Stored, CarryAll, SentRows, Keyed, SaneEnv, ChunksHold;
    SentIsReached(env, p, whole, t);
    ChunksCarry(st, whole, t);
    RowKeysDiffer(env, st, t);
    ChunksGive(st, t, ImportMachine.ChunksOf(CarryAll(st, whole), t), ReachedRows(env, t));
  }

  lemma EndedIsMentioned(ms: seq<RowMessage>, t: string)
    ensures PhaseOf(ms, t).Ended? ==> t in TablesOf(ms)
  {
    Unmentioned(ms, t);
  }

  // ------------------------------------------------------------------
  // The theorem
  // ------------------------------------------------------------------

  lemma InVainNotSent(env: Env, p: Parts, whole: seq<RowMessage>, t: string)
    requires ServerRun(env, p, whole)
    ensures InVain(env, t) ==> !SentTable(env, t)
  {
    hide InVain, SentTable, PartsOk;
    if InVain(env, t) { InVainIsNotSent(env, t); }
  }

  /** The client is sent what some run of the server sends. */
  ghost predicate FromServer(env: Env, st: Storage, stream: seq<ImportMachine.Msg>) {
    exists p, whole :: ServerRun(env, p, whole) && stream == CarryAll(st, whole)
  }

  lemma ReadableStreams(env: Env, st: Storage, actions: seq<ImportMachine.Action>)
    requires Clean(env)
    requires forall i :: 0 <= i < |actions| && actions[i].Start? ==> FromServer(env, st, actions[i].setup.stream)
    ensures ImportSteps.GoodStreams(actions)
  {
    hide PhaseOf, MergedAll, GoodRun, CarryAll, Orderly;
    forall i | 0 <= i < |actions| && actions[i].Start? ensures Orderly(actions[i].setup.stream) {
      var p, whole :| ServerRun(env, p, whole) && actions[i].setup.stream == CarryAll(st, whole);
      StreamOrderly(env, p, whole);
      CarryOrderly(st, whole);
    }
  }

  /** Each table the server sends holds exactly the rows the plan reaches, under the local rows to
      preserve, and every other table is as it was, those looked up in vain included. */
  ghost predicate AsReached(env: Env, st: Storage, s: ImportMachine.State, tables: ImportResult.TableData) {
    && (forall t :: SentTable(env, t) ==>
          t in tables && exists imported :: Holds(st, t, imported, ReachedRows(env, t))
                                            && tables[t] == imported + ImportMachine.Kept(s, t))
    && (forall t :: InVain(env, t) ==> !SentTable(env, t))
    && (forall t :: !SentTable(env, t) ==>
          (t in tables <==> t in s.base) && (t in tables ==> tables[t] == LocalDb.Content(s.base[t])))
  }

  lemma ExpectedIsReached(env: Env, st: Storage, p: Parts, whole: seq<RowMessage>, s: ImportMachine.State,
                          data: ImportResult.TableData)
    requires ServerRun(env, p, whole) && Carries(env, st, data)
    ensures AsReached(env, st, s, ImportResult.Expected(s, data))
  {
    hide SentTable, ReachedRows, Holds, ServerRun, LocalDb.Content, ImportMachine.Kept, InVain;
    var tables := ImportResult.Expected(s, data);
    forall t | SentTable(env, t)
      ensures t in tables && exists imported :: Holds(st, t, imported, ReachedRows(env, t))
                                                && tables[t] == imported + ImportMachine.Kept(s, t)
    {
      assert Holds(st, t, data[t], ReachedRows(env, t)) && tables[t] == data[t] + ImportMachine.Kept(s, t);
    }
    forall t ensures InVain(env, t) ==> !SentTable(env, t) { InVainNotSent(env, p, whole, t); }
  }

  /** However the server's threads interleave, however often the import is interrupted and
      resumed, however its workers are scheduled, and live or from a dump: once it finishes, the
      local tables are those the plan reaches, with the set blocks and after statements run on
      them, once each and in order. */
  lemma ImportedIsReached(env: Env, st: Storage, p: Parts, whole: seq<RowMessage>,
                          s0: ImportMachine.State, actions: seq<ImportMachine.Action>, s: ImportMachine.State)
    requires ServerRun(env, p, whole) && Clean(env) && Keyed(st, env.db)
    requires ImportMachine.Untouched(s0) && ImportMachine.History(s0, actions, s)
    requires s.c.at.Finished? && !s.edited
    requires forall i :: 0 <= i < |actions| && actions[i].Start? ==> FromServer(env, st, actions[i].setup.stream)
    ensures exists reached ::
              && AsReached(env, st, s, reached)
              && LocalDb.Contents(s.tables) == ImportResult.Posts(s.setup.post, |s.setup.post|, reached)
  {
    hide Holds, Clean, Keyed, ServerRun, CarryAll, ImportResult.Delivers, AsReached, ImportResult.Posts;
    hide ImportMachine.Untouched, ImportMachine.History, Orderly, Carries, LocalDb.Contents, ImportResult.Expected;
    var data := RunCarries(env, st, p, whole);
    forall i | 0 <= i < |actions| && actions[i].Start? ensures ImportResult.Delivers(actions[i].setup.stream, data) {
      var p', whole' :| ServerRun(env, p', whole') && actions[i].setup.stream == CarryAll(st, whole');
      RunDelivers(env, st, p', whole', data);
    }
    ReadableStreams(env, st, actions);
    ImportResult.ImportLeaves(s0, actions, s, data);
    ExpectedIsReached(env, st, p, whole, s, data);
  }
}
