/** What the server promises about a whole run, whatever the data, the relation graph (cycles
    and self-references included), the drain order and the interleaving of its threads. */
module Guarantees {
  import opened Bytes
  import opened RowKeys
  import opened Rows
  import opened Plan
  import opened StaticWalk
  import opened Database
  import opened Streams
  import opened Emission
  import opened Closure
  import opened References
  import opened Streaming
  import opened Schedule

  ghost predicate GoodRun(env: Env, p: Parts) {
    SaneEnv(env) && Accepted(env, |env.plan.aggregates|) && PartsOk(env, p)
  }

  // ------------------------------------------------------------------
  // The rows sent are the union of the aggregates' closures
  // ------------------------------------------------------------------

  /** A row is met by the traversal exactly when some aggregate's closure contains it. */
  lemma MetIsReached(env: Env, x: Item)
    requires SaneEnv(env)
    ensures Met(env, x) <==> exists i :: 0 <= i < |env.plan.aggregates| && x in Reached(env, env.plan.aggregates[i])
  {
    hide Reached, Fetched, RootItems, Sane;
    forall i | 0 <= i < |env.plan.aggregates|
      ensures x in Reached(env, env.plan.aggregates[i])
              <==> x in RootItems(env.plan.aggregates[i]) || x in Fetched(env, env.plan.aggregates[i])
    {
      ReachedIsRootsAndFetched(env, env.plan.aggregates[i]);
    }
  }

  /** The closure does not depend on the other aggregates of the plan. */
  lemma ReachedIsOwn(env: Env, aggregates: seq<Aggregate>, a: Aggregate)
    ensures Reached(env.(plan := env.plan.(aggregates := aggregates)), a) == Reached(env, a)
  {
    var env' := env.(plan := env.plan.(aggregates := aggregates));
    forall r, w ensures Closed(env', a, r, w) <==> Closed(env, a, r, w) {
      SameClosed(env, aggregates, a, r, w);
    }
  }

  lemma SameClosed(env: Env, aggregates: seq<Aggregate>, a: Aggregate, r: set<Item>, w: set<Item>)
    ensures Closed(env.(plan := env.plan.(aggregates := aggregates)), a, r, w) <==> Closed(env, a, r, w)
  {
    hide ExcludeSet, HasKey;
    var env' := env.(plan := env.plan.(aggregates := aggregates));
    assert forall rel, back :: Usable(env', a, rel, back) <==> Usable(env, a, rel, back);
    assert forall t :: Enters(env', a, t) <==> Enters(env, a, t);
    forall rel, back, x, s ensures Joins(env', rel, back, x, s) <==> Joins(env, rel, back, x, s) {
      SameJoins(env, aggregates, rel, back, x, s);
    }
  }

  lemma SameJoins(env: Env, aggregates: seq<Aggregate>, rel: Relation, back: bool, x: Item, s: Item)
    ensures Joins(env.(plan := env.plan.(aggregates := aggregates)), rel, back, x, s) <==> Joins(env, rel, back, x, s)
  {
    var env' := env.(plan := env.plan.(aggregates := aggregates));
    assert forall y, c, k :: HasKey(env', y, c, k) <==> HasKey(env, y, c, k);
    assert forall d :: Answers(env', d, s) <==> Answers(env, d, s);
  }

  /** Permuting the plan's aggregates does not change which rows are sent. */
  lemma OrderDoesNotMatter(env: Env, permuted: seq<Aggregate>, x: Item)
    requires SaneEnv(env) && multiset(permuted) == multiset(env.plan.aggregates)
    ensures var env' := env.(plan := env.plan.(aggregates := permuted));
            SaneEnv(env') && (Met(env', x) <==> Met(env, x))
  {
    hide Reached, Met, Sane;
    var env' := env.(plan := env.plan.(aggregates := permuted));
    forall a ensures a in permuted <==> a in env.plan.aggregates {
      assert a in permuted <==> a in multiset(permuted);
      assert a in env.plan.aggregates <==> a in multiset(env.plan.aggregates);
    }
    forall i | 0 <= i < |permuted| ensures SaneAggregate(env', permuted[i]) {
      assert permuted[i] in env.plan.aggregates;
    }
    MetIsReached(env, x);
    MetIsReached(env', x);
    forall a ensures Reached(env', a) == Reached(env, a) { ReachedIsOwn(env, permuted, a); }
    if i :| 0 <= i < |permuted| && x in Reached(env', permuted[i]) {
      assert permuted[i] in env.plan.aggregates;
    }
    if i :| 0 <= i < |env.plan.aggregates| && x in Reached(env, env.plan.aggregates[i]) {
      assert env.plan.aggregates[i] in permuted;
    }
  }

  // ------------------------------------------------------------------
  // One producer per table
  // ------------------------------------------------------------------

  /** A globally excluded table that an aggregate nevertheless selects rows of: both the main
      thread and the traversal send it. */
  ghost predicate ExcludedRoot(env: Env, t: string) {
    t in env.plan.excluded && exists x :: IsRootItem(env, x) && x.0 == t
  }

  /** Tables the traversal sends anything about are touched, and not excluded otherwise. */
  lemma BfsSends(env: Env, p: Parts, t: string)
    requires GoodRun(env, p) && Mentions(p.bfs, t)
    ensures Touched(env, t) && (t in env.plan.excluded ==> ExcludedRoot(env, t))
    ensures t !in env.plan.excluded ==> Potential(env.plan, env.importable, t)
  {
    hide PhaseOf, Mentions, Flat, Copies, MainOk, Sane, Potential, Accepted, SaneAggregate, Met, Queried, Touched,
         ExcludedRoot;
    if x :| Met(env, x) && x.0 == t {
      MetTouches(env, x);
    } else {
      QueriedTouches(env, t);
    }
    if t !in env.plan.excluded { TouchedNotExcluded(env, t); }
  }

  lemma MetTouches(env: Env, x: Item)
    requires Met(env, x)
    ensures Touched(env, x.0) && (x.0 in env.plan.excluded ==> ExcludedRoot(env, x.0))
  {
    hide Fetched;
    if IsRootItem(env, x) {
      var i :| 0 <= i < |env.plan.aggregates| && x in RootItems(env.plan.aggregates[i]);
      assert Touches(env, env.plan.aggregates[i], x.0);
    } else {
      var i :| 0 <= i < |env.plan.aggregates| && x in Fetched(env, env.plan.aggregates[i]);
      FetchedTouches(env, env.plan.aggregates[i], x);
    }
  }

  lemma QueriedTouches(env: Env, t: string)
    requires Queried(env, t)
    ensures Touched(env, t) && t !in env.plan.excluded
  {
    hide Looks, ExcludeSet;
    var i :| 0 <= i < |env.plan.aggregates| && Queries(env, env.plan.aggregates[i], t);
    assert Touches(env, env.plan.aggregates[i], t);
  }

  lemma TouchedNotExcluded(env: Env, t: string)
    requires SaneEnv(env) && Accepted(env, |env.plan.aggregates|) && Touched(env, t) && t !in env.plan.excluded
    ensures Potential(env.plan, env.importable, t)
  {
    hide Sane, Potential, Touches;
    var i :| 0 <= i < |env.plan.aggregates| && Touches(env, env.plan.aggregates[i], t);
    TouchedIsPotential(env, env.plan.aggregates[i], t);
  }

  lemma FetchedTouches(env: Env, a: Aggregate, x: Item)
    requires x in Fetched(env, a)
    ensures Touches(env, a, x.0) && x.0 !in env.plan.excluded
  {
    hide Looks, ExcludeSet;
    var d :| Looks(env, a, d) && Enters(env, a, d.0) && Answers(env, d, x);
  }

  /** Which producer a table belongs to: the main thread, the traversal, a worker copy or a
      left-over copy. */
  ghost predicate Owns(env: Env, p: Parts, k: nat, t: string)
    requires PartsOk(env, p) && k < |Producers(p)|
  {
    if k == 0 then MainSends(env, t)
    else if k == 1 then Mentions(p.bfs, t)
    else if k < 2 + |p.workers| then p.workers[k - 2] == t
    else p.spares[k - 2 - |p.workers|] == t
  }

  lemma MentionsIsOwns(env: Env, p: Parts, k: nat, t: string)
    requires PartsOk(env, p) && k < |Producers(p)|
    ensures Mentions(Producers(p)[k], t) <==> Owns(env, p, k, t)
  {
    hide PhaseOf, Flat, BfsOk, MainSends, WorkerCopies, SpareCopies;
    if 2 <= k < 2 + |p.workers| {
      CopyMentions(env.db, p.workers[k - 2], p.workerOut[k - 2], t);
    } else if 2 + |p.workers| <= k {
      CopyMentions(env.db, p.spares[k - 2 - |p.workers|], p.spareOut[k - 2 - |p.workers|], t);
    }
  }

  lemma CopyMentions(db: Database, u: string, out: seq<RowMessage>, t: string)
    requires FullCopy(db, u, out)
    ensures Mentions(out, t) <==> t == u
  {
    Unmentioned(out, u);
  }

  /** The producers send disjoint sets of tables, as long as no aggregate selects rows of a
      globally excluded root table. */
  lemma OneProducer(env: Env, p: Parts, t: string, i: nat, j: nat)
    requires GoodRun(env, p) && !ExcludedRoot(env, t)
    requires i < j < |Producers(p)|
    ensures !Mentions(Producers(p)[i], t) || !Mentions(Producers(p)[j], t)
  {
    hide PhaseOf, Flat, Mentions, MainOk, Sane, Potential, Touched, BfsOk, FullCopy, ExcludedRoot, Accepted;
    MentionsIsOwns(env, p, i, t);
    MentionsIsOwns(env, p, j, t);
    assert t in p.workers ==> WorkerCopies(env, t);
    assert t in p.spares ==> SpareCopies(env, t);
    if Mentions(p.bfs, t) { BfsSends(env, p, t); }
  }

  /** Outside aggregates-only mode every importable table the traversal did not touch is sent
      by another producer. */
  lemma EveryTableSent(env: Env, p: Parts, t: string)
    requires GoodRun(env, p) && t in env.importable && !Touched(env, t) && !env.plan.aggregatesOnly
    ensures exists k :: 0 <= k < |Producers(p)| && k != 1 && Mentions(Producers(p)[k], t)
  {
    hide PhaseOf, Flat, Mentions, MainOk, Sane, Potential, Touched, BfsOk, FullCopy, Accepted;
    var k: nat;
    if t in env.plan.excluded {
      k := 0;
    } else if Potential(env.plan, env.importable, t) {
      assert t in p.spares;
      var i :| 0 <= i < |p.spares| && p.spares[i] == t;
      k := 2 + |p.workers| + i;
    } else {
      assert t in p.workers;
      var i :| 0 <= i < |p.workers| && p.workers[i] == t;
      k := 2 + i;
    }
    MentionsIsOwns(env, p, k, t);
  }

  // ------------------------------------------------------------------
  // The merged stream
  // ------------------------------------------------------------------

  /** No message of the whole stream mentions a table that no producer mentions. */
  lemma {:induction false} MergedMentions(parts: seq<seq<RowMessage>>, whole: seq<RowMessage>, t: string)
    requires MergedAll(parts, whole) && forall i :: 0 <= i < |parts| ==> !Mentions(parts[i], t)
    ensures PhaseOf(whole, t) == Absent
  {
    MergedAllSilent(parts, whole, t);
    Unmentioned(whole, t);
  }

  /** The stream as the client reads it, table by table: announced, chunked and ended with
      its true row count, or `Bare` when the traversal queried it and found no row to send. */
  lemma StreamPhase(env: Env, p: Parts, whole: seq<RowMessage>, t: string)
    requires GoodRun(env, p) && MergedAll(Producers(p), whole) && !ExcludedRoot(env, t)
    ensures PhaseOf(whole, t).Absent? || PhaseOf(whole, t).Ended? || PhaseOf(whole, t).Bare?
    ensures PhaseOf(whole, t).Bare? <==> Queried(env, t) && !exists x :: Met(env, x) && x.0 == t
  {
    hide PhaseOf, Flat, Mentions, Sane, Potential, Touched, FullCopy, Accepted, Met, Queried, ExcludedRoot;
    if k :| 0 <= k < |Producers(p)| && Mentions(Producers(p)[k], t) {
      forall i | 0 <= i < |Producers(p)| && i != k ensures !Mentions(Producers(p)[i], t) {
        if i < k { OneProducer(env, p, t, i, k); } else { OneProducer(env, p, t, k, i); }
      }
      MergedAllPhase(Producers(p), whole, t, k);
      ProducerPhase(env, p, k, t);
      if k != 1 {
        assert p.bfs == Producers(p)[1];
        assert !Mentions(p.bfs, t);
      }
    } else {
      MergedMentions(Producers(p), whole, t);
      assert p.bfs == Producers(p)[1];
      assert !Mentions(p.bfs, t);
    }
  }

  lemma ProducerPhase(env: Env, p: Parts, k: nat, t: string)
    requires PartsOk(env, p) && k < |Producers(p)| && Mentions(Producers(p)[k], t)
    ensures k != 1 ==> PhaseOf(Producers(p)[k], t).Ended?
    ensures k == 1 ==> PhaseOf(Producers(p)[k], t).Ended? || PhaseOf(Producers(p)[k], t).Bare?
  {
    hide PhaseOf, Flat, Mentions, Potential, Touched, Met, Queried;
    MentionsIsOwns(env, p, k, t);
    if 2 <= k < 2 + |p.workers| {
      assert FullCopy(env.db, p.workers[k - 2], p.workerOut[k - 2]);
    } else if 2 + |p.workers| <= k {
      var j := k - 2 - |p.workers|;
      assert FullCopy(env.db, p.spares[j], p.spareOut[j]);
    }
  }

  // Two producers that both announce a table break its stream, however they interleave.

  ghost function Announcements(ms: seq<RowMessage>, t: string): nat {
    if ms == [] then 0
    else Announcements(ms[..|ms| - 1], t) + if ms[|ms| - 1].Schema? && ms[|ms| - 1].table == t then 1 else 0
  }

  lemma {:induction false} AnnouncedOnce(ms: seq<RowMessage>, t: string)
    ensures PhaseOf(ms, t).Absent? || PhaseOf(ms, t).Bare? ==> Announcements(ms, t) == 0
    ensures PhaseOf(ms, t).Open? || PhaseOf(ms, t).Ended? ==> Announcements(ms, t) == 1
  {
    if ms != [] { AnnouncedOnce(ms[..|ms| - 1], t); }
  }

  lemma {:induction false} MergedAnnouncements(a: seq<RowMessage>, b: seq<RowMessage>, whole: seq<RowMessage>,
                                               t: string)
    requires Merged(a, b, whole)
    ensures Announcements(whole, t) == Announcements(a, t) + Announcements(b, t)
    decreases |whole|
  {
    if whole != [] {
      var n, last := |whole| - 1, whole[|whole| - 1];
      if a != [] && a[|a| - 1] == last && Merged(a[..|a| - 1], b, whole[..n]) {
        MergedAnnouncements(a[..|a| - 1], b, whole[..n], t);
      } else {
        MergedAnnouncements(a, b[..|b| - 1], whole[..n], t);
      }
    }
  }

  lemma {:induction false} AllAnnouncements(parts: seq<seq<RowMessage>>, whole: seq<RowMessage>, t: string, i: nat,
                                            j: nat)
    requires MergedAll(parts, whole) && i < j < |parts|
    ensures Announcements(whole, t) >= Announcements(parts[i], t) + Announcements(parts[j], t)
    decreases |parts|
  {
    var n := |parts| - 1;
    var rest :| MergedAll(parts[..n], rest) && Merged(rest, parts[n], whole);
    MergedAnnouncements(rest, parts[n], whole, t);
    if j == n { OneAnnouncement(parts[..n], rest, t, i); } else { AllAnnouncements(parts[..n], rest, t, i, j); }
  }

  lemma {:induction false} OneAnnouncement(parts: seq<seq<RowMessage>>, whole: seq<RowMessage>, t: string, i: nat)
    requires MergedAll(parts, whole) && i < |parts|
    ensures Announcements(whole, t) >= Announcements(parts[i], t)
    decreases |parts|
  {
    var n := |parts| - 1;
    var rest :| MergedAll(parts[..n], rest) && Merged(rest, parts[n], whole);
    MergedAnnouncements(rest, parts[n], whole, t);
    if i < n { OneAnnouncement(parts[..n], rest, t, i); }
  }

  lemma ExcludedRootBreaks(env: Env, p: Parts, whole: seq<RowMessage>, t: string)
    requires GoodRun(env, p) && MergedAll(Producers(p), whole) && ExcludedRoot(env, t)
    ensures PhaseOf(whole, t).Broken?
  {
    hide PhaseOf, Flat, Mentions, Sane, Potential, Copies, RootItems;
    var x :| IsRootItem(env, x) && x.0 == t;
    assert Met(env, x);
    var i :| 0 <= i < |env.plan.aggregates| && x in RootItems(env.plan.aggregates[i]);
    RootIsPotential(env, i, x);
    assert MainSends(env, t);
    assert Producers(p)[0] == p.main && Producers(p)[1] == p.bfs;
    AnnouncedOnce(p.main, t);
    AnnouncedOnce(p.bfs, t);
    AllAnnouncements(Producers(p), whole, t, 0, 1);
    AnnouncedOnce(whole, t);
  }

  lemma RootIsPotential(env: Env, i: nat, x: Item)
    requires i < |env.plan.aggregates| && x in RootItems(env.plan.aggregates[i])
    requires env.plan.aggregates[i].root in env.importable
    ensures x.0 == env.plan.aggregates[i].root && Potential(env.plan, env.importable, x.0)
  {
    hide ExcludeSet;
    assert StaticReach(env.plan, env.importable, env.plan.aggregates[i], x.0);
  }

  /** When the client can read the whole stream: exactly when no aggregate selects rows of an
      excluded root. */
  lemma StreamOrderly(env: Env, p: Parts, whole: seq<RowMessage>)
    requires GoodRun(env, p) && MergedAll(Producers(p), whole)
    ensures Orderly(whole) <==> forall t :: !ExcludedRoot(env, t)
  {
    hide PhaseOf, Flat, Mentions, Sane, Potential, Touched, FullCopy, Accepted, Met, Queried, ExcludedRoot, MergedAll,
         PartsOk;
    if t :| ExcludedRoot(env, t) {
      ExcludedRootBreaks(env, p, whole, t);
    } else {
      forall t ensures PhaseOf(whole, t).Absent? || PhaseOf(whole, t).Ended? || PhaseOf(whole, t).Bare? {
        StreamPhase(env, p, whole, t);
      }
    }
  }

  /** When the whole stream is well formed: exactly when no aggregate selects rows of an
      excluded root, and no table is queried by the traversal without a row to send. */
  lemma StreamWellFormed(env: Env, p: Parts, whole: seq<RowMessage>)
    requires GoodRun(env, p) && MergedAll(Producers(p), whole)
    ensures WellFormed(whole) <==>
            forall t :: !ExcludedRoot(env, t) && (Queried(env, t) ==> exists x :: Met(env, x) && x.0 == t)
  {
    hide PhaseOf, GoodRun, MergedAll, ExcludedRoot, Queried, Met, Mentions, Flat, Producers;
    forall t
      ensures (PhaseOf(whole, t).Absent? || PhaseOf(whole, t).Ended?) <==>
              !ExcludedRoot(env, t) && (Queried(env, t) ==> exists x :: Met(env, x) && x.0 == t)
    {
      if ExcludedRoot(env, t) {
        ExcludedRootBreaks(env, p, whole, t);
      } else {
        StreamPhase(env, p, whole, t);
      }
    }
  }

  // ------------------------------------------------------------------
  // Rows in the merged stream
  // ------------------------------------------------------------------

  lemma {:induction false} MergedRows(a: seq<RowMessage>, b: seq<RowMessage>, whole: seq<RowMessage>)
    requires Merged(a, b, whole)
    ensures multiset(Flat(whole)) == multiset(Flat(a)) + multiset(Flat(b))
    decreases |whole|
  {
    if whole != [] {
      hide Tag;
      var n, last := |whole| - 1, whole[|whole| - 1];
      if a != [] && a[|a| - 1] == last && Merged(a[..|a| - 1], b, whole[..n]) {
        MergedRows(a[..|a| - 1], b, whole[..n]);
      } else {
        MergedRows(a, b[..|b| - 1], whole[..n]);
      }
    }
  }

  ghost function AllRows(parts: seq<seq<RowMessage>>): multiset<Item> {
    if parts == [] then multiset{} else AllRows(parts[..|parts| - 1]) + multiset(Flat(parts[|parts| - 1]))
  }

  lemma {:induction false} MergedAllRows(parts: seq<seq<RowMessage>>, whole: seq<RowMessage>)
    requires MergedAll(parts, whole)
    ensures multiset(Flat(whole)) == AllRows(parts)
    decreases |parts|
  {
    if parts != [] {
      var n := |parts| - 1;
      var rest :| MergedAll(parts[..n], rest) && Merged(rest, parts[n], whole);
      MergedAllRows(parts[..n], rest);
      MergedRows(rest, parts[n], whole);
    }
  }

  lemma {:induction false} RowsOfOne(parts: seq<seq<RowMessage>>, x: Item, k: nat)
    requires k < |parts| && forall i :: 0 <= i < |parts| && i != k ==> x !in Flat(parts[i])
    ensures AllRows(parts)[x] == multiset(Flat(parts[k]))[x]
    decreases |parts|
  {
    var n := |parts| - 1;
    if k == n { NoRows(parts[..n], x); } else { RowsOfOne(parts[..n], x, k); }
  }

  lemma {:induction false} NoRows(parts: seq<seq<RowMessage>>, x: Item)
    requires forall i :: 0 <= i < |parts| ==> x !in Flat(parts[i])
    ensures AllRows(parts)[x] == 0
    decreases |parts|
  {
    if parts != [] { NoRows(parts[..|parts| - 1], x); }
  }

  /** A row the traversal does not meet is sent when its table is copied whole. */
  ghost predicate Copied(env: Env, x: Item) {
    (WorkerCopies(env, x.0) || SpareCopies(env, x.0)) && x.1 in RowsOf(env.db, x.0)
  }

  lemma CopiedNotMet(env: Env, x: Item)
    requires SaneEnv(env) && Accepted(env, |env.plan.aggregates|) && Met(env, x)
    ensures !WorkerCopies(env, x.0) && !SpareCopies(env, x.0)
  {
    hide Potential, Touched, Met;
    MetTouches(env, x);
    if x.0 !in env.plan.excluded { TouchedNotExcluded(env, x.0); }
  }

  lemma CopyRows(env: Env, p: Parts, k: nat, x: Item)
    requires PartsOk(env, p) && 2 <= k < |Producers(p)|
    ensures multiset(Flat(Producers(p)[k]))[x] == if Owns(env, p, k, x.0) && x.1 in RowsOf(env.db, x.0) then 1 else 0
    ensures Owns(env, p, k, x.0) ==> WorkerCopies(env, x.0) || SpareCopies(env, x.0)
  {
    hide PhaseOf, Flat, MainOk, BfsOk, WorkerCopies, SpareCopies;
    if k < 2 + |p.workers| {
      assert FullCopy(env.db, p.workers[k - 2], p.workerOut[k - 2]);
      assert p.workers[k - 2] in p.workers;
    } else {
      var j := k - 2 - |p.workers|;
      assert FullCopy(env.db, p.spares[j], p.spareOut[j]);
      assert p.spares[j] in p.spares;
    }
  }

  /** Which rows arrive, and how often: those some aggregate reaches and those of the tables
      copied whole, each once, except a row met both as a root row and by foreign key under
      two different keys, which arrives twice. */
  lemma RowsSent(env: Env, p: Parts, whole: seq<RowMessage>, x: Item)
    requires GoodRun(env, p) && MergedAll(Producers(p), whole)
    ensures x in Flat(whole) <==> Met(env, x) || Copied(env, x)
    ensures multiset(Flat(whole))[x] <= 1 <==> StableKey(env.db, x) || !IsRootItem(env, x) || !IsFetched(env, x)
    ensures multiset(Flat(whole))[x] <= 2
  {
    hide Flat, MergedAll, StableKey, IsRootItem, IsFetched, Potential, Touched, FullCopy, PhaseOf, Mentions, Copied;
    MergedAllRows(Producers(p), whole);
    assert x in Flat(whole) <==> x in multiset(Flat(whole));
    if Met(env, x) {
      CopiedNotMet(env, x);
      OnlyTraversal(env, p, x);
      RowsOfOne(Producers(p), x, 1);
      assert Producers(p)[1] == p.bfs;
    } else {
      OnlyCopies(env, p, x);
    }
  }

  /** On NULLs, integers and byte strings, with rows told apart by their keys: exactly the rows
      reached and those copied arrive, each once; except that a row met both as a root row and by
      foreign key arrives twice if a key cell is a number whose text has zeros in front. */
  lemma TypedRowsSent(env: Env, p: Parts, whole: seq<RowMessage>, x: Item)
    requires TypedData(env.db) && forall i ::
             0 <= i < |env.plan.aggregates| ==> SaneAggregate(env, env.plan.aggregates[i])
    requires Accepted(env, |env.plan.aggregates|) && PartsOk(env, p) && MergedAll(Producers(p), whole)
    ensures multiset(Flat(whole))[x] ==
            if (exists i :: 0 <= i < |env.plan.aggregates| && x in Reached(env, env.plan.aggregates[i]))
               || Copied(env, x)
            then if IsRootItem(env, x) && IsFetched(env, x) && !SteadyKey(env.db, x) then 2 else 1
            else 0
  {
    hide SteadyKey, TypedData, Sane, SaneAggregate, PartsOk, MergedAll, Flat, Reached, Copied, Met, StableKey,
         IsRootItem, IsFetched;
    TypedIsSane(env.db);
    RowsSent(env, p, whole, x);
    MetIsReached(env, x);
    assert x in Flat(whole) <==> x in multiset(Flat(whole));
    if x in Flat(whole) {
      SentIsRow(env, x);
      TypedIsStable(env.db, x);
    }
  }

  /** Some aggregate of the plan reaches the row step by step. */
  ghost predicate ReachedInPlan(env: Env, x: Item) {
    exists i :: 0 <= i < |env.plan.aggregates| && Reaches(env, env.plan.aggregates[i], x, false)
  }

  lemma MetInSteps(env: Env, x: Item)
    requires SaneEnv(env)
    ensures Met(env, x) <==> ReachedInPlan(env, x)
  {
    hide Sane, Reached, Met, Reaches, SaneAggregate;
    MetIsReached(env, x);
    forall i | 0 <= i < |env.plan.aggregates|
      ensures x in Reached(env, env.plan.aggregates[i]) <==> Reaches(env, env.plan.aggregates[i], x, false)
    {
      ReachedInSteps(env, env.plan.aggregates[i], x);
    }
  }

  /** The rows that arrive are those of tables copied whole and those some aggregate reaches step by
      step, by the columns its relations name. */
  lemma ArrivesInSteps(env: Env, p: Parts, whole: seq<RowMessage>, x: Item)
    requires GoodRun(env, p) && MergedAll(Producers(p), whole)
    ensures x in Flat(whole) <==> Copied(env, x) || ReachedInPlan(env, x)
  {
    hide SaneEnv, Accepted, PartsOk, MergedAll, Flat, Copied, Met, ReachedInPlan;
    RowsSent(env, p, whole, x);
    MetInSteps(env, x);
  }

  lemma SentIsRow(env: Env, x: Item)
    requires SaneEnv(env) && (Met(env, x) || Copied(env, x))
    ensures x.1 in RowsOf(env.db, x.0)
  {
    hide Looks, Sane, WorkerCopies, SpareCopies;
    if i :| 0 <= i < |env.plan.aggregates| && x in RootItems(env.plan.aggregates[i]) {
      assert SaneAggregate(env, env.plan.aggregates[i]);
    }
  }

  lemma OnlyTraversal(env: Env, p: Parts, x: Item)
    requires PartsOk(env, p) && !WorkerCopies(env, x.0) && !SpareCopies(env, x.0)
    ensures forall i :: 0 <= i < |Producers(p)| && i != 1 ==> x !in Flat(Producers(p)[i])
    ensures !Copied(env, x)
  {
    hide Flat, WorkerCopies, SpareCopies, Copies, BfsOk, Owns;
    forall i | 0 <= i < |Producers(p)| && i != 1 ensures x !in Flat(Producers(p)[i]) {
      if i == 0 {
        assert Producers(p)[0] == p.main;
      } else {
        CopyRows(env, p, i, x);
        assert x in Flat(Producers(p)[i]) <==> x in multiset(Flat(Producers(p)[i]));
      }
    }
  }

  lemma OnlyCopies(env: Env, p: Parts, x: Item)
    requires GoodRun(env, p) && !Met(env, x)
    ensures AllRows(Producers(p))[x] == if Copied(env, x) then 1 else 0
    ensures !IsRootItem(env, x) && !IsFetched(env, x)
  {
    hide Flat, IsRootItem, IsFetched, FullCopy, PhaseOf, Mentions, Potential, Touched, Accepted, SaneEnv;
    var parts := Producers(p);
    assert parts[0] == p.main && parts[1] == p.bfs;
    if WorkerCopies(env, x.0) || SpareCopies(env, x.0) {
      var k := CopyIndex(env, p, x.0);
      forall i | 0 <= i < |parts| && i != k ensures x !in Flat(parts[i]) {
        if i >= 2 {
          CopyRows(env, p, i, x);
          DistinctCopies(env, p, i, k, x.0);
          assert x in Flat(parts[i]) <==> x in multiset(Flat(parts[i]));
        }
      }
      RowsOfOne(parts, x, k);
      CopyRows(env, p, k, x);
    } else {
      OnlyTraversal(env, p, x);
      NoRows(parts, x);
    }
  }

  lemma CopyIndex(env: Env, p: Parts, t: string) returns (k: nat)
    requires PartsOk(env, p) && (WorkerCopies(env, t) || SpareCopies(env, t))
    ensures 2 <= k < |Producers(p)| && Owns(env, p, k, t)
  {
    hide FullCopy, MainOk, BfsOk, WorkerCopies, SpareCopies;
    if WorkerCopies(env, t) {
      assert t in p.workers;
      var i :| 0 <= i < |p.workers| && p.workers[i] == t;
      k := 2 + i;
    } else {
      assert t in p.spares;
      var i :| 0 <= i < |p.spares| && p.spares[i] == t;
      k := 2 + |p.workers| + i;
    }
  }

  lemma DistinctCopies(env: Env, p: Parts, i: nat, k: nat, t: string)
    requires PartsOk(env, p) && 2 <= i < |Producers(p)| && 2 <= k < |Producers(p)| && i != k && Owns(env, p, k, t)
    ensures !Owns(env, p, i, t)
  {
    hide FullCopy, MainOk, BfsOk, Potential, Touched;
    assert t in p.workers ==> WorkerCopies(env, t);
    assert t in p.spares ==> SpareCopies(env, t);
  }

  // ------------------------------------------------------------------
  // No dangling references
  // ------------------------------------------------------------------

  /** A full table is copied whole unless only aggregates are sent, or it is one's root. */
  ghost predicate CopiedWhole(env: Env, t: string) {
    !env.plan.aggregatesOnly && forall b :: b in env.plan.aggregates ==> b.root != t
  }

  /** A row reached by an aggregate references row `s`; the target table is importable, holds
      data and is not excluded by that aggregate. The referenced row arrives, unless its table
      is a `full` table that is not copied whole (aggregates-only mode, or the table is itself
      an aggregate's root): then it arrives only if some aggregate selects it as a root row. */
  lemma ReferencesArrive(env: Env, p: Parts, whole: seq<RowMessage>, a: Aggregate, x: Item, rel: Relation, s: Item)
    requires GoodRun(env, p) && MergedAll(Producers(p), whole)
    requires a in env.plan.aggregates && !a.rootOnly && x in Reached(env, a)
    requires rel in env.plan.relations && RefersTo(env.db, rel, x, s)
    requires rel.toTable in env.importable && rel.toTable !in env.plan.excluded && !LeavesOut(a, rel.toTable)
    ensures s in Flat(whole) <==>
            rel.toTable !in env.plan.full || CopiedWhole(env, rel.toTable) || IsRootItem(env, s)
  {
    hide Reached, Flat, MergedAll, Sane, SaneAggregate, Potential, Touched, ExcludeSet, Joins, IsFetched, PartsOk,
         Copied, RefersTo;
    RowsSent(env, p, whole, s);
    JoinsAre(env, rel, x, s);
    ReferredTable(env, rel, x, s);
    EntersIs(env, a, rel.toTable);
    if rel.toTable !in env.plan.full {
      TargetReached(env, a, x, rel, false, s);
      var i :| 0 <= i < |env.plan.aggregates| && env.plan.aggregates[i] == a;
      MetIsReached(env, s);
    } else {
      FullTarget(env, s);
    }
  }

  /** The same for a row that references one reached wide: a root row, or one found by following a
      relation backward. */
  lemma ReferrersArrive(env: Env, p: Parts, whole: seq<RowMessage>, a: Aggregate, x: Item, rel: Relation, s: Item)
    requires GoodRun(env, p) && MergedAll(Producers(p), whole)
    requires a in env.plan.aggregates && !a.rootOnly && x in Wide(env, a)
    requires rel in env.plan.relations && ReferredBy(env.db, rel, x, s)
    requires rel.fromTable in env.importable && rel.fromTable !in env.plan.excluded && !LeavesOut(a, rel.fromTable)
    ensures s in Flat(whole) <==>
            rel.fromTable !in env.plan.full || CopiedWhole(env, rel.fromTable) || IsRootItem(env, s)
  {
    hide Reached, Wide, Flat, MergedAll, Sane, SaneAggregate, Potential, Touched, ExcludeSet, Joins, IsFetched, PartsOk,
         Copied, ReferredBy;
    RowsSent(env, p, whole, s);
    JoinsAre(env, rel, x, s);
    ReferrerTable(env, rel, x, s);
    EntersIs(env, a, rel.fromTable);
    if rel.fromTable !in env.plan.full {
      TargetReached(env, a, x, rel, true, s);
      var i :| 0 <= i < |env.plan.aggregates| && env.plan.aggregates[i] == a;
      MetIsReached(env, s);
    } else {
      FullTarget(env, s);
    }
  }

  lemma TargetReached(env: Env, a: Aggregate, x: Item, rel: Relation, back: bool, s: Item)
    requires SaneEnv(env) && Accepted(env, |env.plan.aggregates|) && a in env.plan.aggregates
    requires !a.rootOnly && x in (if back then Wide(env, a) else Reached(env, a)) && x.0 == Source(rel, back)
    requires rel in env.plan.relations && Joins(env, rel, back, x, s) && Enters(env, a, Target(rel, back))
    ensures s in Reached(env, a) && (back ==> s in Wide(env, a))
  {
    hide Joins, ExcludeSet, Sane, Reached, Wide;
    var i :| 0 <= i < |env.plan.aggregates| && env.plan.aggregates[i] == a;
    assert SaneAggregate(env, a) && a.root in env.importable;
    ReachedClosed(env, a);
    assert x in Reached(env, a);
    ReachedImportable(env, a, x);
  }

  lemma ReachedImportable(env: Env, a: Aggregate, x: Item)
    requires SaneAggregate(env, a) && a.root in env.importable && x in Reached(env, a)
    ensures x.0 in env.importable
  {
    hide Looks, ExcludeSet, Reached, HasKey;
    ReachedIsRootsAndFetched(env, a);
    if x in Fetched(env, a) {
      FetchedTouches(env, a, x);
    }
  }

  lemma FetchedNotFull(env: Env, a: Aggregate, x: Item)
    ensures x in Fetched(env, a) ==> x.0 !in env.plan.full
  {
    hide Looks, ExcludeSet;
  }

  /** A row of a full table arrives exactly when the table is copied whole or the row is
      selected as a root row. */
  lemma FullTarget(env: Env, s: Item)
    requires SaneEnv(env) && Accepted(env, |env.plan.aggregates|)
    requires s.0 in env.plan.full && s.0 in env.importable && s.0 !in env.plan.excluded && s.1 in RowsOf(env.db, s.0)
    ensures Met(env, s) || Copied(env, s) <==>
            CopiedWhole(env, s.0) || IsRootItem(env, s)
  {
    hide Potential, ExcludeSet, Looks, Sane;
    FullIsPotentialOnlyAsRoot(env, s.0);
    forall i | 0 <= i < |env.plan.aggregates| ensures s !in Fetched(env, env.plan.aggregates[i]) {
      FetchedNotFull(env, env.plan.aggregates[i], s);
    }
    if i :| 0 <= i < |env.plan.aggregates| && env.plan.aggregates[i].root == s.0 {
      assert env.plan.aggregates[i] in env.plan.aggregates;
      assert Touches(env, env.plan.aggregates[i], s.0);
    }
  }

  // ------------------------------------------------------------------
  // Dispositions: the dry run's forecast and the report at the end
  // ------------------------------------------------------------------

  datatype Disposition = AsAggregate | AsFull | AsEmpty | AsExcluded

  /** What the dry run says of a table; None when it does not list it. */
  ghost function Forecast(env: Env, t: string): Option<Disposition> {
    if t !in env.importable || (env.plan.aggregatesOnly && !Potential(env.plan, env.importable, t)) then None
    else if t in env.plan.excluded then Some(AsExcluded)
    else if Potential(env.plan, env.importable, t) then Some(AsAggregate)
    else Some(AsFull)
  }

  /** What the run reports of an importable table: a copied table counts as full if it had rows. */
  ghost function Report(env: Env, whole: seq<RowMessage>, t: string): Disposition {
    if MainSends(env, t) then AsExcluded
    else if Touched(env, t) then AsAggregate
    else if PhaseOf(whole, t).Ended? && PhaseOf(whole, t).rows > 0 then AsFull
    else AsEmpty
  }

  /** A table that is copied reports what it holds. */
  ghost function ByRows(env: Env, t: string): Disposition { if RowsOf(env.db, t) == {} then AsEmpty else AsFull }

  /** The forecast lists every importable table, except, in aggregates-only mode, those no
      aggregate can reach. A table forecast as excluded is reported so, and no other is. One
      forecast as full is reported full if it has rows and empty otherwise. One forecast as
      aggregate is reported so exactly when the traversal touched it; if it did not, it is reported
      by its rows, or empty in aggregates-only mode, where it is not copied. A table the forecast
      leaves out is reported aggregate if touched, and empty otherwise. */
  lemma ForecastHolds(env: Env, p: Parts, whole: seq<RowMessage>, t: string)
    requires GoodRun(env, p) && MergedAll(Producers(p), whole) && t in env.importable
    ensures Forecast(env, t).None? <==> env.plan.aggregatesOnly && !Potential(env.plan, env.importable, t)
    ensures Forecast(env, t) == Some(AsExcluded) <==> Report(env, whole, t) == AsExcluded
    ensures Forecast(env, t) == Some(AsFull) ==> Report(env, whole, t) == ByRows(env, t)
    ensures Forecast(env, t) == Some(AsAggregate) ==>
              Report(env, whole, t) == if Touched(env, t) then AsAggregate
                                       else if env.plan.aggregatesOnly then AsEmpty else ByRows(env, t)
    ensures Forecast(env, t).None? ==> Report(env, whole, t) == if Touched(env, t) then AsAggregate else AsEmpty
  {
    hide PhaseOf, MergedAll, Potential, Touched, Sane, SaneAggregate, Accepted, Mentions, Flat, BfsOk, MainOk, FullCopy;
    if Touched(env, t) && t !in env.plan.excluded { TouchedNotExcluded(env, t); }
    if WorkerCopies(env, t) || SpareCopies(env, t) {
      CopiedPhase(env, p, whole, t);
    } else if !Touched(env, t) && !MainSends(env, t) {
      SilentPhase(env, p, whole, t);
    }
  }

  lemma CopiedPhase(env: Env, p: Parts, whole: seq<RowMessage>, t: string)
    requires GoodRun(env, p) && MergedAll(Producers(p), whole) && (WorkerCopies(env, t) || SpareCopies(env, t))
    ensures PhaseOf(whole, t) == Ended(|RowsOf(env.db, t)|)
  {
    hide PhaseOf, Potential, Touched, Sane, Accepted, Mentions, Flat, BfsOk, MainOk, MergedAll;
    var k := CopyIndex(env, p, t);
    assert t !in env.plan.excluded;
    forall i | 0 <= i < |Producers(p)| && i != k ensures !Mentions(Producers(p)[i], t) {
      MentionsIsOwns(env, p, k, t);
      if i < k { OneProducer(env, p, t, i, k); } else { OneProducer(env, p, t, k, i); }
    }
    MergedAllPhase(Producers(p), whole, t, k);
    WorkerPhase(env, p, k, t);
  }

  /** A table that belongs to no producer is not in the stream. */
  lemma SilentPhase(env: Env, p: Parts, whole: seq<RowMessage>, t: string)
    requires GoodRun(env, p) && MergedAll(Producers(p), whole)
    requires !WorkerCopies(env, t) && !SpareCopies(env, t) && !Touched(env, t) && !MainSends(env, t)
    ensures PhaseOf(whole, t).Absent?
  {
    hide PhaseOf, Potential, Touched, Sane, Accepted, Mentions, Flat, BfsOk, MainOk, MergedAll, WorkerCopies,
         SpareCopies, MainSends;
    forall k | 0 <= k < |Producers(p)| ensures !Mentions(Producers(p)[k], t) {
      MentionsIsOwns(env, p, k, t);
      if k == 1 && Mentions(p.bfs, t) { BfsSends(env, p, t); }
      assert k >= 2 && k < 2 + |p.workers| ==> p.workers[k - 2] in p.workers;
      assert k >= 2 + |p.workers| ==> p.spares[k - 2 - |p.workers|] in p.spares;
    }
    MergedMentions(Producers(p), whole, t);
    Unmentioned(whole, t);
  }

  lemma WorkerPhase(env: Env, p: Parts, k: nat, t: string)
    requires PartsOk(env, p) && 2 <= k < |Producers(p)| && Owns(env, p, k, t)
    ensures PhaseOf(Producers(p)[k], t) == Ended(|RowsOf(env.db, t)|)
  {
    hide PhaseOf, Flat, MainOk, BfsOk, WorkerCopies, SpareCopies;
    if k < 2 + |p.workers| {
      assert FullCopy(env.db, p.workers[k - 2], p.workerOut[k - 2]);
    } else {
      var j := k - 2 - |p.workers|;
      assert FullCopy(env.db, p.spares[j], p.spareOut[j]);
    }
  }
}
