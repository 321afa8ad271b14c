/** What one aggregate's traversal should reach: the least set of rows closed under
    "a reached row pulls in the rows it references; a root row or a row reached backward
    also pulls in the rows that reference it". */
module Closure {
  import opened Bytes
  import opened RowKeys
  import opened Rows
  import opened Plan
  import opened Database

  /** One run's setting: the source data, the plan and the tables selected for import. */
  datatype Env = Env(db: Database, plan: Plan, importable: set<string>)

  /** A foreign-key lookup the traversal owes: table, column, "reached backward", value. */
  type Demand = (string, string, bool, CompactKey)

  ghost function Exclude(env: Env, a: Aggregate): set<string> { ExcludeSet(a, env.importable) }

  ghost predicate Enters(env: Env, a: Aggregate, t: string) {
    Enterable(env.plan, env.importable, Exclude(env, a), t)
  }

  // A relation followed forward (`back` false) leads from the referencing table to the
  // referenced one; followed backward, the other way.

  function Source(rel: Relation, back: bool): string { if back then rel.toTable else rel.fromTable }
  function SourceColumn(rel: Relation, back: bool): string { if back then rel.toColumn else rel.fromColumn }
  function Target(rel: Relation, back: bool): string { if back then rel.fromTable else rel.toTable }
  function TargetColumn(rel: Relation, back: bool): string { if back then rel.fromColumn else rel.toColumn }

  /** The relation survives the filters of `get_forward_relations` or
      `get_backward_relations` for this aggregate. */
  ghost predicate Usable(env: Env, a: Aggregate, rel: Relation, back: bool) {
    && !a.rootOnly && rel in env.plan.relations
    && rel.fromTable in env.importable && rel.toTable in env.importable
    && Target(rel, back) !in Exclude(env, a)
  }

  /** The row has a non-NULL value in the column, and one of its images has key `k`. */
  predicate HasKey(env: Env, x: Item, column: string, k: CompactKey) {
    var cell := Cell(SchemaOf(env.db, x.0), x.1, column);
    cell.Some? && !cell.value.SNull? && (k == KeyOf(Image(cell.value, Text)) || k == KeyOf(Image(cell.value, Binary)))
  }

  /** Row `s` is something the lookup finds. */
  predicate Answers(env: Env, d: Demand, s: Item) {
    s.0 == d.0 && s.1 in RowsOf(env.db, d.0) && env.db.matches(d.0, d.1, d.3, s.1)
  }

  /** Following the relation from row `x` finds row `s`. */
  ghost predicate Joins(env: Env, rel: Relation, back: bool, x: Item, s: Item) {
    x.0 == Source(rel, back) &&
    exists k :: HasKey(env, x, SourceColumn(rel, back), k)
                && Answers(env, (Target(rel, back), TargetColumn(rel, back), back, k), s)
  }

  /** `reached` and `wide` are closed; `wide` rows also pull in the rows referencing them. */
  ghost predicate Closed(env: Env, a: Aggregate, reached: set<Item>, wide: set<Item>) {
    && wide <= reached
    && (forall r :: r in a.selected ==> (a.root, r) in wide)
    && (forall rel, x, s ::
          (Usable(env, a, rel, false) && x in reached && Enters(env, a, rel.toTable) && Joins(env, rel, false, x, s))
          ==> s in reached)
    && (forall rel, x, s ::
          (Usable(env, a, rel, true) && x in wide && Enters(env, a, rel.fromTable) && Joins(env, rel, true, x, s))
          ==> s in wide)
  }

  /** The rows one aggregate reaches. */
  ghost function Reached(env: Env, a: Aggregate): set<Item> {
    set x | x in Universe(env.db) && forall r, w :: Closed(env, a, r, w) ==> x in r
  }

  /** Those it reaches as root rows or backward. */
  ghost function Wide(env: Env, a: Aggregate): set<Item> {
    set x | x in Universe(env.db) && forall r, w :: Closed(env, a, r, w) ==> x in w
  }

  ghost function RootItems(a: Aggregate): set<Item> { set r | r in a.selected :: (a.root, r) }

  /** A row of `rows` calls for the lookup. */
  ghost predicate CalledFor(env: Env, a: Aggregate, rows: set<Item>, d: Demand) {
    exists rel, x :: CallsFor(env, a, rel, x, d) && x in rows
  }

  ghost predicate CallsFor(env: Env, a: Aggregate, rel: Relation, x: Item, d: Demand) {
    && Usable(env, a, rel, d.2) && x.0 == Source(rel, d.2)
    && d.0 == Target(rel, d.2) && d.1 == TargetColumn(rel, d.2) && HasKey(env, x, SourceColumn(rel, d.2), d.3)
  }

  ghost predicate Called(env: Env, a: Aggregate, reached: set<Item>, wide: set<Item>, d: Demand) {
    CalledFor(env, a, if d.2 then wide else reached, d)
  }

  /** The lookups the aggregate makes, dropped ones included. */
  ghost predicate Looks(env: Env, a: Aggregate, d: Demand) {
    Called(env, a, Reached(env, a), Wide(env, a), d)
  }

  /** Rows found by foreign key: those answering a lookup into an enterable table. */
  ghost function Fetched(env: Env, a: Aggregate): set<Item> {
    set x | x in Universe(env.db) && exists d :: Looks(env, a, d) && Enters(env, a, d.0) && Answers(env, d, x)
  }

  /** A table the traversal touches: the root, or one a lookup goes to, even one that finds
      no row, and even a globally excluded one, whose lookup is then dropped. */
  ghost predicate Touches(env: Env, a: Aggregate, t: string) {
    || t == a.root
    || (Touchable(env, a, t) && exists d :: Looks(env, a, d) && d.0 == t)
  }

  ghost predicate Touchable(env: Env, a: Aggregate, t: string) {
    t in env.importable && t !in env.plan.full && t !in Exclude(env, a)
  }

  /** Some lookup actually runs on the table, so a row count is kept for it. */
  ghost predicate Queries(env: Env, a: Aggregate, t: string) {
    Enters(env, a, t) && exists d :: Looks(env, a, d) && d.0 == t
  }

  ghost predicate SaneAggregate(env: Env, a: Aggregate) {
    a.selected <= RowsOf(env.db, a.root)
  }

  /** The least sets are themselves closed. */
  lemma ReachedClosed(env: Env, a: Aggregate)
    requires SaneAggregate(env, a)
    ensures Closed(env, a, Reached(env, a), Wide(env, a))
  {
    hide Usable, Enters, Joins;
    var reached, wide := Reached(env, a), Wide(env, a);
    forall r | r in a.selected ensures (a.root, r) in wide {
      assert r in RowsOf(env.db, a.root);
    }
    forall rel, x, s | Usable(env, a, rel, false) && x in reached && Enters(env, a, rel.toTable)
                       && Joins(env, rel, false, x, s)
      ensures s in reached
    {
      JoinsInUniverse(env, rel, false, x, s);
      forall r, w | Closed(env, a, r, w) ensures s in r {
        assert x in r;
      }
    }
    forall rel, x, s | Usable(env, a, rel, true) && x in wide && Enters(env, a, rel.fromTable)
                       && Joins(env, rel, true, x, s)
      ensures s in wide
    {
      JoinsInUniverse(env, rel, true, x, s);
      forall r, w | Closed(env, a, r, w) ensures s in w {
        assert x in w;
      }
    }
  }

  lemma JoinsInUniverse(env: Env, rel: Relation, back: bool, x: Item, s: Item)
    requires Joins(env, rel, back, x, s)
    ensures s in Universe(env.db)
  {
    hide HasKey;
  }

  /** A closed pair inside every closed pair is the least one. */
  lemma LeastPair(env: Env, a: Aggregate, reached: set<Item>, wide: set<Item>)
    requires reached <= Universe(env.db) && Closed(env, a, reached, wide)
    requires forall r, w :: Closed(env, a, r, w) ==> reached <= r && wide <= w
    ensures reached == Reached(env, a) && wide == Wide(env, a)
  {
  }

  /** Nothing is reached but root rows and rows some lookup finds. */
  lemma ReachedIsRootsAndFetched(env: Env, a: Aggregate)
    requires SaneAggregate(env, a)
    ensures Reached(env, a) == RootItems(a) + Fetched(env, a)
  {
    hide Usable, Enters, HasKey, Answers;
    ReachedClosed(env, a);
    var reached, wide := Reached(env, a), Wide(env, a);
    var found := RootItems(a) + Fetched(env, a);
    forall rel, back, x, s | Usable(env, a, rel, back) && x in (if back then wide else reached)
                             && Enters(env, a, Target(rel, back)) && Joins(env, rel, back, x, s)
      ensures s in Fetched(env, a)
    {
      FollowIsFetched(env, a, rel, back, x, s);
    }
    assert Closed(env, a, reached * found, wide * found);
    assert reached <= reached * found;
    forall x | x in Fetched(env, a) ensures x in reached {
      FetchedIsReached(env, a, x);
    }
  }

  lemma FollowIsFetched(env: Env, a: Aggregate, rel: Relation, back: bool, x: Item, s: Item)
    requires Usable(env, a, rel, back) && x in (if back then Wide(env, a) else Reached(env, a))
    requires Enters(env, a, Target(rel, back)) && Joins(env, rel, back, x, s)
    ensures s in Fetched(env, a)
  {
    hide Usable, Enters, HasKey, Reached, Wide, Answers;
    var k :| HasKey(env, x, SourceColumn(rel, back), k)
        && Answers(env, (Target(rel, back), TargetColumn(rel, back), back, k), s);
    var d := (Target(rel, back), TargetColumn(rel, back), back, k);
    assert CallsFor(env, a, rel, x, d);
    assert Looks(env, a, d);
    JoinsInUniverse(env, rel, back, x, s);
  }

  lemma FetchedIsReached(env: Env, a: Aggregate, x: Item)
    requires SaneAggregate(env, a) && x in Fetched(env, a)
    ensures x in Reached(env, a)
  {
    hide Usable, Enters, HasKey, Answers;
    ReachedClosed(env, a);
    var d :| Looks(env, a, d) && Enters(env, a, d.0) && Answers(env, d, x);
    var rel, y :| CallsFor(env, a, rel, y, d) && y in if d.2 then Wide(env, a) else Reached(env, a);
    assert Joins(env, rel, d.2, y, x);
  }
}
