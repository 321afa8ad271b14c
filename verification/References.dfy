/** The traversal's rules relation by relation: which column of which row is read, which table is
    asked for it, and what may not be entered; and the rows reached, step by step. */
module References {
  import opened Bytes
  import opened RowKeys
  import opened Rows
  import opened Plan
  import opened Database
  import opened Closure

  // ------------------------------------------------------------------
  // Rows and the relations between them
  // ------------------------------------------------------------------

  /** The row's cell in the first column of that name is `c`, and not NULL. */
  ghost predicate HasValue(db: Database, x: Item, column: string, c: Stored) {
    var columns := SchemaOf(db, x.0).columns;
    exists i: nat ::
      i < |columns| && columns[i] == column && column !in columns[..i] && i < |x.1| && x.1[i] == c && c != SNull
  }

  /** SQL finds row `s` of table `t` when column `target` is compared with what `column` of `x` holds. */
  ghost predicate Finds(db: Database, x: Item, column: string, t: string, target: string, s: Row) {
    && s in RowsOf(db, t)
    && exists c, p :: HasValue(db, x, column, c) && db.matches(t, target, KeyOf(Image(c, p)), s)
  }

  /** Row `x` references row `s`: the referencing column of `x` holds a value found in the referenced
      column of `s`. */
  ghost predicate RefersTo(db: Database, rel: Relation, x: Item, s: Item) {
    x.0 == rel.fromTable && s.0 == rel.toTable && Finds(db, x, rel.fromColumn, rel.toTable, rel.toColumn, s.1)
  }

  /** Row `x` is referenced by row `s`: the referenced column of `x` holds a value found in the
      referencing column of `s`. */
  ghost predicate ReferredBy(db: Database, rel: Relation, x: Item, s: Item) {
    x.0 == rel.toTable && s.0 == rel.fromTable && Finds(db, x, rel.toColumn, rel.fromTable, rel.fromColumn, s.1)
  }

  /** The aggregate excludes the table, by name or by pattern. */
  predicate LeavesOut(a: Aggregate, t: string) {
    t in a.excludeTables ||
    exists i :: 0 <= i < |a.excludePatterns| && a.excludePatterns[i].Regex? && a.excludePatterns[i].accepts(t)
  }

  /** The aggregate may fetch rows of the table. */
  predicate MayEnter(env: Env, a: Aggregate, t: string) {
    t in env.importable && t !in env.plan.full && t !in env.plan.excluded && !LeavesOut(a, t)
  }

  predicate Follows(env: Env, a: Aggregate, rel: Relation) {
    !a.rootOnly && rel in env.plan.relations && rel.fromTable in env.importable && rel.toTable in env.importable
  }

  // ------------------------------------------------------------------
  // They are the traversal's
  // ------------------------------------------------------------------

  lemma {:induction false} IndexIsFirst(names: seq<string>, name: string, i: nat)
    ensures IndexOf(names, name) == Some(i) <==> i < |names| && names[i] == name && name !in names[..i]
  {
    if names != [] && names[0] != name {
      if i > 0 {
        IndexIsFirst(names[1..], name, i - 1);
        if i <= |names| { assert names[..i] == [names[0]] + names[1..][..i - 1]; }
      }
    } else if names != [] && 0 < i <= |names| {
      assert name == names[..i][0];
    }
  }

  lemma CellIsValue(db: Database, x: Item, column: string, c: Stored)
    ensures HasValue(db, x, column, c) <==> Cell(SchemaOf(db, x.0), x.1, column) == Some(c) && c != SNull
  {
    hide IndexOf;
    var columns := SchemaOf(db, x.0).columns;
    match IndexOf(columns, column)
    case Some(i) =>
      forall j: nat ensures j < |columns| && columns[j] == column && column !in columns[..j] <==> j == i {
        IndexIsFirst(columns, column, j);
      }
    case None =>
  }

  lemma KeyIsValue(env: Env, x: Item, column: string, k: CompactKey)
    ensures HasKey(env, x, column, k) <==> exists c, p :: HasValue(env.db, x, column, c) && k == KeyOf(Image(c, p))
  {
    var cell := Cell(SchemaOf(env.db, x.0), x.1, column);
    forall c ensures HasValue(env.db, x, column, c) <==> cell == Some(c) && c != SNull {
      CellIsValue(env.db, x, column, c);
    }
    hide KeyOf, Image, HasValue, Cell;
    if HasKey(env, x, column, k) {
      var p := if k == KeyOf(Image(cell.value, Text)) then Text else Binary;
      assert HasValue(env.db, x, column, cell.value) && k == KeyOf(Image(cell.value, p));
    }
    if c, p :| HasValue(env.db, x, column, c) && k == KeyOf(Image(c, p)) {
      assert cell == Some(c) && (p == Text || p == Binary);
    }
  }

  lemma AnswersFind(env: Env, x: Item, column: string, t: string, target: string, back: bool, s: Item)
    ensures (exists k :: HasKey(env, x, column, k) && Answers(env, (t, target, back, k), s))
            <==> s.0 == t && Finds(env.db, x, column, t, target, s.1)
  {
    hide HasKey, HasValue, KeyOf, Image;
    if k :| HasKey(env, x, column, k) && Answers(env, (t, target, back, k), s) {
      KeyIsValue(env, x, column, k);
    }
    if c, p :| HasValue(env.db, x, column, c) && env.db.matches(t, target, KeyOf(Image(c, p)), s.1) {
      KeyIsValue(env, x, column, KeyOf(Image(c, p)));
      assert s.0 == t && s.1 in RowsOf(env.db, t) ==> Answers(env, (t, target, back, KeyOf(Image(c, p))), s);
    }
  }

  lemma JoinsFinds(env: Env, rel: Relation, back: bool, x: Item, s: Item)
    ensures Joins(env, rel, back, x, s) <==>
            && x.0 == Source(rel, back) && s.0 == Target(rel, back)
            && Finds(env.db, x, SourceColumn(rel, back), Target(rel, back), TargetColumn(rel, back), s.1)
  {
    AnswersFind(env, x, SourceColumn(rel, back), Target(rel, back), TargetColumn(rel, back), back, s);
    hide HasKey, Finds, Answers, Source, SourceColumn, Target, TargetColumn;
    assert Joins(env, rel, back, x, s) <==>
           && x.0 == Source(rel, back)
           && exists k :: HasKey(env, x, SourceColumn(rel, back), k)
                          && Answers(env, (Target(rel, back), TargetColumn(rel, back), back, k), s);
  }

  lemma JoinsAre(env: Env, rel: Relation, x: Item, s: Item)
    ensures Joins(env, rel, false, x, s) <==> RefersTo(env.db, rel, x, s)
    ensures Joins(env, rel, true, x, s) <==> ReferredBy(env.db, rel, x, s)
  {
    hide Finds, Joins;
    JoinsFinds(env, rel, false, x, s);
    JoinsFinds(env, rel, true, x, s);
  }

  lemma EntersIs(env: Env, a: Aggregate, t: string)
    ensures Enters(env, a, t) <==> MayEnter(env, a, t)
    ensures t in env.importable ==> (t in Exclude(env, a) <==> LeavesOut(a, t))
  {
  }

  // ------------------------------------------------------------------
  // The rows reached
  // ------------------------------------------------------------------

  /** The row is reached in at most `n` steps: the root rows in none, then rows that a reached row
      references, and rows that reference a row reached wide. Root rows are reached wide, and so are
      rows found by following a relation backward. */
  ghost predicate InSteps(env: Env, a: Aggregate, n: nat, x: Item, wide: bool) {
    if n == 0 then x.0 == a.root && x.1 in a.selected
    else
      || InSteps(env, a, n - 1, x, wide)
      || (MayEnter(env, a, x.0) && exists rel, y ::
            Follows(env, a, rel)
            && ((InSteps(env, a, n - 1, y, true) && ReferredBy(env.db, rel, y, x))
                || (!wide && InSteps(env, a, n - 1, y, false) && RefersTo(env.db, rel, y, x))))
  }

  ghost predicate Reaches(env: Env, a: Aggregate, x: Item, wide: bool) {
    exists n: nat :: InSteps(env, a, n, x, wide)
  }

  lemma {:induction false} WideIsReached(env: Env, a: Aggregate, n: nat, x: Item)
    requires InSteps(env, a, n, x, true)
    ensures InSteps(env, a, n, x, false)
  {
    hide Finds, MayEnter, Follows;
    if n > 0 && InSteps(env, a, n - 1, x, true) { WideIsReached(env, a, n - 1, x); }
  }

  /** A usable relation is one the aggregate follows, whose far end it does not leave out. */
  lemma UsableIs(env: Env, a: Aggregate, rel: Relation, back: bool)
    ensures Enters(env, a, Target(rel, back)) ==> (Usable(env, a, rel, back) <==> Follows(env, a, rel))
  {
  }

  lemma {:induction false} StepsAreReached(env: Env, a: Aggregate, n: nat, x: Item, wide: bool)
    requires SaneAggregate(env, a) && InSteps(env, a, n, x, wide)
    ensures x in if wide then Wide(env, a) else Reached(env, a)
  {
    hide RefersTo, ReferredBy, Joins, MayEnter, Follows, Usable, Enters, Reached, Wide;
    ReachedClosed(env, a);
    if n == 0 {
      assert x.1 in a.selected && x == (a.root, x.1);
    } else if InSteps(env, a, n - 1, x, wide) {
      StepsAreReached(env, a, n - 1, x, wide);
    } else {
      var rel, y :|
        Follows(env, a, rel)
        && ((InSteps(env, a, n - 1, y, true) && ReferredBy(env.db, rel, y, x))
            || (!wide && InSteps(env, a, n - 1, y, false) && RefersTo(env.db, rel, y, x)));
      EntersIs(env, a, x.0);
      JoinsAre(env, rel, y, x);
      if InSteps(env, a, n - 1, y, true) && ReferredBy(env.db, rel, y, x) {
        StepsAreReached(env, a, n - 1, y, true);
        ReferrerTable(env, rel, y, x);
        UsableIs(env, a, rel, true);
      } else {
        StepsAreReached(env, a, n - 1, y, false);
        ReferredTable(env, rel, y, x);
        UsableIs(env, a, rel, false);
      }
    }
  }

  lemma ReferredTable(env: Env, rel: Relation, x: Item, s: Item)
    requires RefersTo(env.db, rel, x, s)
    ensures x.0 == rel.fromTable && s.0 == rel.toTable == Target(rel, false) && s in Universe(env.db)
  {
    hide HasValue;
  }

  lemma ReferrerTable(env: Env, rel: Relation, x: Item, s: Item)
    requires ReferredBy(env.db, rel, x, s)
    ensures x.0 == rel.toTable && s.0 == rel.fromTable == Target(rel, true) && s in Universe(env.db)
  {
    hide HasValue;
  }

  ghost function Stepped(env: Env, a: Aggregate, wide: bool): set<Item> {
    set x | x in Universe(env.db) && Reaches(env, a, x, wide)
  }

  lemma OneStepMore(env: Env, a: Aggregate, rel: Relation, back: bool, x: Item, s: Item)
    requires x in Stepped(env, a, back) && Usable(env, a, rel, back) && Enters(env, a, Target(rel, back))
    requires Joins(env, rel, back, x, s)
    ensures s in Stepped(env, a, back)
  {
    hide RefersTo, ReferredBy, Joins, MayEnter, Follows, Usable, Enters;
    var n: nat :| InSteps(env, a, n, x, back);
    JoinsAre(env, rel, x, s);
    UsableIs(env, a, rel, back);
    EntersIs(env, a, Target(rel, back));
    if back {
      ReferrerTable(env, rel, x, s);
    } else {
      ReferredTable(env, rel, x, s);
    }
    assert InSteps(env, a, n + 1, s, back);
  }

  lemma SteppedIsClosed(env: Env, a: Aggregate)
    requires SaneAggregate(env, a)
    ensures Closed(env, a, Stepped(env, a, false), Stepped(env, a, true))
  {
    hide Joins, Usable, Enters;
    forall x | x in Stepped(env, a, true) ensures x in Stepped(env, a, false) {
      var n: nat :| InSteps(env, a, n, x, true);
      WideIsReached(env, a, n, x);
    }
    forall r | r in a.selected ensures (a.root, r) in Stepped(env, a, true) {
      assert r in RowsOf(env.db, a.root);
      assert InSteps(env, a, 0, (a.root, r), true);
    }
    hide InSteps, Stepped;
    forall rel, x, s | Usable(env, a, rel, false) && x in Stepped(env, a, false) && Enters(env, a, rel.toTable)
                       && Joins(env, rel, false, x, s)
      ensures s in Stepped(env, a, false)
    {
      OneStepMore(env, a, rel, false, x, s);
    }
    forall rel, x, s | Usable(env, a, rel, true) && x in Stepped(env, a, true) && Enters(env, a, rel.fromTable)
                       && Joins(env, rel, true, x, s)
      ensures s in Stepped(env, a, true)
    {
      OneStepMore(env, a, rel, true, x, s);
    }
  }

  /** The closure is what can be reached step by step. */
  lemma ReachedInSteps(env: Env, a: Aggregate, x: Item)
    requires SaneAggregate(env, a)
    ensures x in Reached(env, a) <==> Reaches(env, a, x, false)
    ensures x in Wide(env, a) <==> Reaches(env, a, x, true)
  {
    hide InSteps, Closed;
    SteppedIsClosed(env, a);
    if n: nat :| InSteps(env, a, n, x, false) { StepsAreReached(env, a, n, x, false); }
    if n: nat :| InSteps(env, a, n, x, true) { StepsAreReached(env, a, n, x, true); }
  }

  // ------------------------------------------------------------------
  // Rows fetched, and tables touched and queried
  // ------------------------------------------------------------------

  /** A row is fetched exactly when its table may be entered and a reached row references it, or it
      references a row reached wide. */
  lemma FetchedHasReason(env: Env, a: Aggregate, x: Item)
    requires SaneAggregate(env, a)
    ensures x in Fetched(env, a) <==>
            && MayEnter(env, a, x.0)
            && exists rel, y ::
                 Follows(env, a, rel)
                 && ((y in Reached(env, a) && RefersTo(env.db, rel, y, x))
                     || (y in Wide(env, a) && ReferredBy(env.db, rel, y, x)))
  {
    hide RefersTo, ReferredBy, Joins, MayEnter, Follows, Usable, Enters, Reached, Wide;
    EntersIs(env, a, x.0);
    if x in Fetched(env, a) {
      var rel, back, y := FetchedFrom(env, a, x);
      JoinsAre(env, rel, y, x);
      UsableIs(env, a, rel, back);
    }
    hide Fetched;
    if rel, y :| MayEnter(env, a, x.0) && Follows(env, a, rel)
                 && ((y in Reached(env, a) && RefersTo(env.db, rel, y, x))
                     || (y in Wide(env, a) && ReferredBy(env.db, rel, y, x))) {
      var back := !(y in Reached(env, a) && RefersTo(env.db, rel, y, x));
      JoinsAre(env, rel, y, x);
      if back { ReferrerTable(env, rel, y, x); } else { ReferredTable(env, rel, y, x); }
      UsableIs(env, a, rel, back);
      FollowIsFetched(env, a, rel, back, y, x);
    }
  }

  lemma FetchedFrom(env: Env, a: Aggregate, x: Item) returns (rel: Relation, back: bool, y: Item)
    requires x in Fetched(env, a)
    ensures Usable(env, a, rel, back) && Enters(env, a, x.0) && x.0 == Target(rel, back)
    ensures Joins(env, rel, back, y, x) && y in if back then Wide(env, a) else Reached(env, a)
  {
    hide Usable, Enters, HasKey, Answers, Reached, Wide;
    var d :| Looks(env, a, d) && Enters(env, a, d.0) && Answers(env, d, x);
    back := d.2;
    rel, y :| CallsFor(env, a, rel, y, d) && y in if d.2 then Wide(env, a) else Reached(env, a);
    TargetOfJoin(env, rel, back, d, y, x);
  }

  lemma TargetOfJoin(env: Env, rel: Relation, back: bool, d: Demand, y: Item, x: Item)
    requires d.2 == back && Answers(env, d, x)
    requires y.0 == Source(rel, back) && d.0 == Target(rel, back) && d.1 == TargetColumn(rel, back)
    requires HasKey(env, y, SourceColumn(rel, back), d.3)
    ensures Joins(env, rel, back, y, x) && x.0 == Target(rel, back)
  {
    hide HasKey;
  }

  /** A reached row holds a value to look up in the table, or a row reached wide does. */
  ghost predicate AsksFor(env: Env, a: Aggregate, t: string) {
    exists rel, y, c ::
      Follows(env, a, rel)
      && ((y in Reached(env, a) && y.0 == rel.fromTable && t == rel.toTable && HasValue(env.db, y, rel.fromColumn, c))
          || (y in Wide(env, a) && y.0 == rel.toTable && t == rel.fromTable && HasValue(env.db, y, rel.toColumn, c)))
  }

  /** A table is touched exactly when it is the root, or is asked for and neither full nor left out
      by the aggregate; the lookup is made unless the table is excluded globally. */
  lemma TouchedHasReason(env: Env, a: Aggregate, t: string)
    ensures Touches(env, a, t) <==>
            || t == a.root
            || (t in env.importable && t !in env.plan.full && !LeavesOut(a, t) && AsksFor(env, a, t))
    ensures Queries(env, a, t) <==> MayEnter(env, a, t) && AsksFor(env, a, t)
  {
    hide Looks, AsksFor, Exclude;
    EntersIs(env, a, t);
    if t in env.importable && !LeavesOut(a, t) { LooksAsk(env, a, t); }
  }

  /** A table that one of the aggregate's patterns accepts, or that it excludes by name, is neither
      fetched from nor touched, but as its root. */
  lemma LeftOutStaysOut(env: Env, a: Aggregate, t: string)
    requires t in a.excludeTables ||
             exists i :: 0 <= i < |a.excludePatterns| && a.excludePatterns[i].Regex? && a.excludePatterns[i].accepts(t)
    ensures forall x :: x in Fetched(env, a) ==> x.0 != t
    ensures Touches(env, a, t) ==> t == a.root
    ensures !Queries(env, a, t)
  {
    hide Looks, AsksFor;
    TouchedHasReason(env, a, t);
    EntersIs(env, a, t);
  }

  lemma LooksAsk(env: Env, a: Aggregate, t: string)
    requires t in env.importable && !LeavesOut(a, t)
    ensures (exists d :: Looks(env, a, d) && d.0 == t) <==> AsksFor(env, a, t)
  {
    hide HasKey, HasValue, Reached, Wide, LeavesOut;
    EntersIs(env, a, t);
    hide Exclude;
    if d :| Looks(env, a, d) && d.0 == t {
      var rel, y :| CallsFor(env, a, rel, y, d) && y in if d.2 then Wide(env, a) else Reached(env, a);
      KeyIsValue(env, y, SourceColumn(rel, d.2), d.3);
    }
    if rel, y, c :|
      Follows(env, a, rel)
      && ((y in Reached(env, a) && y.0 == rel.fromTable && t == rel.toTable && HasValue(env.db, y, rel.fromColumn, c))
          || (y in Wide(env, a) && y.0 == rel.toTable && t == rel.fromTable && HasValue(env.db, y, rel.toColumn, c)))
    {
      var forward :=
        y in Reached(env, a) && y.0 == rel.fromTable && t == rel.toTable && HasValue(env.db, y, rel.fromColumn, c);
      AskedIsLookup(env, a, rel, !forward, y, c);
    }
  }

  lemma AskedIsLookup(env: Env, a: Aggregate, rel: Relation, back: bool, y: Item, c: Stored)
    requires Usable(env, a, rel, back) && y in if back then Wide(env, a) else Reached(env, a)
    requires y.0 == Source(rel, back) && HasValue(env.db, y, SourceColumn(rel, back), c)
    ensures exists d :: Looks(env, a, d) && d.0 == Target(rel, back)
  {
    hide HasKey, HasValue, Reached, Wide, Usable;
    var k := KeyOf(Image(c, Text));
    KeyIsValue(env, y, SourceColumn(rel, back), k);
    var d: Demand := (Target(rel, back), TargetColumn(rel, back), back, k);
    assert CallsFor(env, a, rel, y, d);
    assert Looks(env, a, d);
  }
}
