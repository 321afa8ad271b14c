/** Inputs on which the program does not do what its documentation says. */
module Findings {
  import opened Bytes
  import opened RowKeys
  import opened Rows
  import opened Plans = Plan
  import opened Database
  import opened Streams
  import opened Emission
  import opened Closure
  import opened Streaming
  import opened Schedule
  import opened Guarantees
  import Tsv

  // ------------------------------------------------------------------
  // A row with two keys
  // ------------------------------------------------------------------

  /** A row whose one column, its key, is 2 January 2024. */
  const DAY: Row := [SOther([50, 48, 50, 52, 45, 48, 49, 45, 48, 50], Date(2024, 1, 2, 0, 0, 0, 0))]

  /** One whose key is the number 42 in a ZEROFILL column of width 5: "00042" in text. */
  const CODE: Row := [SPadded(42, 5)]

  /** Table `t` holds the row, which references itself; the aggregate selects it. */
  function SelfReferring(row: Row): Env {
    Env(Database(map["t" := Rows.Schema.Schema(["k"], ["k"])], map["t" := {row}], (t, c, k, r) => true, r => 11),
        Plan([Relation("t", "k", "t", "k")], [Aggregate("t", {}, [], false, {row})], {}, {}, {}, false),
        {"t"})
  }

  lemma SelfReferringSane(row: Row)
    ensures SaneEnv(SelfReferring(row)) && Accepted(SelfReferring(row), 1)
  {
    var db := SelfReferring(row).db;
    assert forall t :: RowsOf(db, t) <= {row};
    hide KeyIn;
    assert KeysIdentify(db);
    assert MatchStable(db);
  }

  lemma TwoKeys(row: Row)
    requires |row| == 1 && ValidCell(row[0]) && !Steady(row[0])
    ensures !StableKey(SelfReferring(row).db, ("t", row))
  {
    var schema := Rows.Schema.Schema(["k"], ["k"]);
    assert KeyColumn(schema, 0);
    RowHasOneKey(schema, row);
  }

  lemma SelfFetched(row: Row)
    requires |row| == 1 && !row[0].SNull?
    ensures ("t", row) in Fetched(SelfReferring(row), SelfReferring(row).plan.aggregates[0])
  {
    var env := SelfReferring(row);
    var a, x := env.plan.aggregates[0], ("t", row);
    var rel := env.plan.relations[0];
    var d: Demand := ("t", "k", false, KeyOf(Image(row[0], Text)));
    assert row in RowsOf(env.db, "t");
    ReachedClosed(env, a);
    assert row in a.selected;
    assert Cell(SchemaOf(env.db, "t"), row, "k") == Some(row[0]);
    assert HasKey(env, x, "k", d.3);
    assert CallsFor(env, a, rel, x, d);
    assert Looks(env, a, d);
  }

  lemma SentTwice(row: Row, p: Parts, whole: seq<RowMessage>)
    requires |row| == 1 && ValidCell(row[0]) && !Steady(row[0])
    requires PartsOk(SelfReferring(row), p) && MergedAll(Producers(p), whole)
    ensures multiset(Flat(whole))[("t", row)] == 2
  {
    hide PartsOk, MergedAll, Flat, Fetched, StableKey, SaneEnv, Accepted;
    var env, x := SelfReferring(row), ("t", row);
    SelfReferringSane(row);
    TwoKeys(row);
    SelfFetched(row);
    assert x in RootItems(env.plan.aggregates[0]);
    RowsSent(env, p, whole, x);
  }

  /** The row with the date is sent twice, whatever the threads do, though a row of a table with a
      primary key is to be sent at most once. */
  lemma DateKeySentTwice(p: Parts, whole: seq<RowMessage>)
    requires PartsOk(SelfReferring(DAY), p) && MergedAll(Producers(p), whole)
    ensures multiset(Flat(whole))[("t", DAY)] == 2
  {
    hide PartsOk, MergedAll, Flat;
    SentTwice(DAY, p, whole);
  }

  /** So is the row with the zero-filled number, which holds nothing but an integer. */
  lemma ZeroFilledKeySentTwice(p: Parts, whole: seq<RowMessage>)
    requires PartsOk(SelfReferring(CODE), p) && MergedAll(Producers(p), whole)
    ensures multiset(Flat(whole))[("t", CODE)] == 2
  {
    hide PartsOk, MergedAll, Flat;
    CodeIsPadded();
    SentTwice(CODE, p, whole);
  }

  lemma CodeIsPadded()
    ensures !Steady(CODE[0])
  {
    assert Digits(4) == [52] && Decimal(42) == [52, 50];
    assert |Padded(42, 5)| == 5;
  }

  // ------------------------------------------------------------------
  // A referenced table without a matching row
  // ------------------------------------------------------------------

  const ORDER: Row := [SSigned(1), SSigned(7)]

  /** Order 1 references a user that does not exist; `users` is empty. */
  function Orders(): Env {
    Env(Database(map["orders" := Rows.Schema.Schema(["id", "user_id"], ["id"]),
                     "users" := Rows.Schema.Schema(["id"], ["id"])],
                 map["orders" := {ORDER}, "users" := {}], (t, c, k, r) => true, r => 4),
        Plan([Relation("orders", "user_id", "users", "id")],
             [Aggregate("orders", {}, [], false, {ORDER})], {}, {}, {}, false),
        {"orders", "users"})
  }

  lemma OrdersSane()
    ensures SaneEnv(Orders()) && Accepted(Orders(), 1)
  {
    var db := Orders().db;
    assert forall t :: RowsOf(db, t) <= {ORDER};
    hide KeyIn;
    assert KeysIdentify(db);
    assert MatchStable(db);
  }

  lemma UsersQueried()
    ensures Queries(Orders(), Orders().plan.aggregates[0], "users")
  {
    var env := Orders();
    var a, x := env.plan.aggregates[0], ("orders", ORDER);
    var d: Demand := ("users", "id", false, KeyOf(Image(ORDER[1], Text)));
    assert ORDER in RowsOf(env.db, "orders");
    ReachedClosed(env, a);
    assert ORDER in a.selected;
    UserCell();
    assert HasKey(env, x, "user_id", d.3);
    assert CallsFor(env, a, env.plan.relations[0], x, d);
    assert Looks(env, a, d);
  }

  lemma UserCell()
    ensures Cell(SchemaOf(Orders().db, "orders"), ORDER, "user_id") == Some(ORDER[1])
  {
    assert IndexOf(["user_id"], "user_id") == Some(0);
    assert ["id", "user_id"][1..] == ["user_id"];
  }

  /** The table's end is sent, its schema never is: the client's checkpoint then holds a table
      that a resumed run can not enter again (`ImportSafety.ResumeNeverEnds`). */
  lemma EmptyTableNotAnnounced(p: Parts, whole: seq<RowMessage>)
    requires PartsOk(Orders(), p) && MergedAll(Producers(p), whole)
    ensures PhaseOf(whole, "users") == Bare && !WellFormed(whole)
  {
    hide PartsOk, MergedAll, SaneEnv, Accepted, PhaseOf, Queries, Fetched, WellFormed;
    var env := Orders();
    OrdersSane();
    UsersQueried();
    assert Queried(env, "users");
    NoUsers();
    StreamPhase(env, p, whole, "users");
    NotWellFormed(whole, "users");
  }

  lemma NotWellFormed(whole: seq<RowMessage>, t: string)
    ensures PhaseOf(whole, t) == Bare ==> !WellFormed(whole)
  {
  }

  lemma NoUsers()
    ensures !(exists x: Item :: Met(Orders(), x) && x.0 == "users") && !ExcludedRoot(Orders(), "users")
  {
    hide Looks, Enters, Answers;
    var env := Orders();
    forall x: Item | x.0 == "users" ensures !Met(env, x) {
      assert x !in Universe(env.db);
    }
  }

  // ------------------------------------------------------------------
  // A full table that is also a root
  // ------------------------------------------------------------------

  /** Table `orders` is listed as full, and an aggregate whose query selects nothing starts
      from it. */
  function FullRoot(): Env {
    Orders().(plan := Orders().plan.(full := {"orders"}, aggregates := [Aggregate("orders", {}, [], false, {})]))
  }

  /** The full table is not copied: its row is not sent. */
  lemma FullRootNotCopied(p: Parts, whole: seq<RowMessage>)
    requires PartsOk(FullRoot(), p) && MergedAll(Producers(p), whole)
    ensures ("orders", ORDER) !in Flat(whole)
  {
    var env, x := FullRoot(), ("orders", ORDER);
    hide PartsOk, MergedAll, Flat, Met, Copied, Sane;
    OrdersSane();
    assert env.plan.aggregates[0] in env.plan.aggregates;
    RowsSent(env, p, whole, x);
    FullTarget(env, x);
  }

  // ------------------------------------------------------------------
  // An excluded table that is a root
  // ------------------------------------------------------------------

  /** Table `orders` is excluded, and an aggregate selects its row. */
  function ExcludedOrders(): Env {
    var plan := Orders().plan.(excluded := {"orders"}, relations := []);
    Orders().(plan := plan)
  }

  /** Two producers announce it: the client can not read the stream. */
  lemma ExcludedRootAnnouncedTwice(p: Parts, whole: seq<RowMessage>)
    requires PartsOk(ExcludedOrders(), p) && MergedAll(Producers(p), whole)
    ensures PhaseOf(whole, "orders").Broken? && !Orderly(whole)
  {
    hide PartsOk, MergedAll, PhaseOf, Orderly, Sane;
    var env := ExcludedOrders();
    OrdersSane();
    assert ("orders", ORDER) in RootItems(env.plan.aggregates[0]);
    assert IsRootItem(env, ("orders", ORDER));
    ExcludedRootBreaks(env, p, whole, "orders");
    BrokenIsNotOrderly(whole, "orders");
  }

  lemma BrokenIsNotOrderly(whole: seq<RowMessage>, t: string)
    ensures PhaseOf(whole, t).Broken? ==> !Orderly(whole)
  {
  }

  // ------------------------------------------------------------------
  // Unique values from two writers
  // ------------------------------------------------------------------

  /** A text column whose one faker value is "{unique()}". */
  const SERIAL: Tsv.Column := Tsv.Column(Tsv.Kind.Text, Tsv.FakeUnique([Tsv.SENTINEL]))

  /** A root row and a row found by foreign key are written by two writers: both get "0". */
  lemma UniqueTwice(root: seq<Value>, fetched: seq<Value>, render: Value -> seq<Byte>)
    ensures Tsv.Repeats([SERIAL], 0, [[root], [fetched]], render, 0, 0, 1, 0)
    ensures Tsv.LoadedUnique([SERIAL], 0, root, render, 0) == Tsv.LText(Decimal(0))
  {
    SerialHolds();
    Tsv.CountStarts([SERIAL], 0);
    hide Tsv.HoldsSentinel, Tsv.Loads, Tsv.ReadCell, Decimal;
    Tsv.UniqueLoads(SERIAL, Tsv.CellOf(root, 0), render, 0, 0, [], []);
    Tsv.UniqueLoads(SERIAL, Tsv.CellOf(fetched, 0), render, 0, 0, [], []);
    assert [] + Decimal(0) + [] == Decimal(0);
  }

  lemma SerialHolds()
    ensures Tsv.HoldsSentinel(Tsv.SENTINEL, [], [])
  {
    var s := Tsv.Ascii("{unique()}");
    assert Tsv.SENTINEL == s;
    assert [] + s + [] == s;
  }
}
