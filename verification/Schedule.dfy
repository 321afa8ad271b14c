/** `stream_all_tables`: the main thread, the full-table workers and the traversal thread
    share one channel. Which of them owns which table, and what the merged stream holds. */
module Schedule {
  import opened Bytes
  import opened RowKeys
  import opened Rows
  import opened Plan
  import opened StaticWalk
  import opened Database
  import opened Streams
  import opened Emission
  import opened Closure
  import opened Streaming

  // ------------------------------------------------------------------
  // The static walk over-approximates the traversal
  // ------------------------------------------------------------------

  ghost function RowsIn(env: Env, tables: set<string>): set<Item> {
    set x | x in Universe(env.db) && x.0 in tables
  }

  /** The rows of statically reachable tables are closed under the data rules. */
  lemma StaticClosesData(env: Env, a: Aggregate, r: set<string>, w: set<string>)
    requires StaticClosed(env.plan, env.importable, a, Exclude(env, a), r, w)
    requires a.root in env.importable && SaneAggregate(env, a)
    ensures Closed(env, a, RowsIn(env, r), RowsIn(env, w))
  {
    hide HasKey, ExcludeSet, Joins;
    forall rel, back, x: Item, s: Item | Usable(env, a, rel, back) && Enters(env, a, Target(rel, back))
        && Joins(env, rel, back, x, s)
      ensures s in Universe(env.db) && s.0 == Target(rel, back)
    {
      JoinsInUniverse(env, rel, back, x, s);
      JoinTables(env, rel, back, x, s);
    }
    forall rel, back, x: Item, s: Item | Joins(env, rel, back, x, s) ensures x.0 == Source(rel, back) {
      JoinTables(env, rel, back, x, s);
    }
    forall row | row in a.selected ensures (a.root, row) in RowsIn(env, w) {
      assert row in RowsOf(env.db, a.root);
    }
  }

  lemma JoinTables(env: Env, rel: Relation, back: bool, x: Item, s: Item)
    requires Joins(env, rel, back, x, s)
    ensures x.0 == Source(rel, back) && s.0 == Target(rel, back)
  {
    hide HasKey;
  }

  /** A lookup into a table the aggregate enters goes to a table the static walk records, and
      with at least the lookup's backward capability. */
  lemma LookupsAreStatic(env: Env, a: Aggregate, d: Demand, r: set<string>, w: set<string>)
    requires StaticClosed(env.plan, env.importable, a, Exclude(env, a), r, w)
    requires a.root in env.importable && SaneAggregate(env, a)
    requires Looks(env, a, d) && Enters(env, a, d.0)
    ensures d.0 in r && (d.2 ==> d.0 in w)
  {
    hide HasKey, ExcludeSet;
    StaticClosesData(env, a, r, w);
    var rel, x :| CallsFor(env, a, rel, x, d) && x in if d.2 then Wide(env, a) else Reached(env, a);
    assert x in RowsIn(env, if d.2 then w else r);
  }

  /** Soundness of the static walk: whatever the data, each touched table is potential
      unless it is globally excluded. */
  lemma TouchedIsPotential(env: Env, a: Aggregate, t: string)
    requires a in env.plan.aggregates && a.root in env.importable && SaneAggregate(env, a)
    requires Touches(env, a, t) && t !in env.plan.excluded
    ensures Potential(env.plan, env.importable, t)
  {
    hide ExcludeSet, Looks;
    forall r, w | StaticClosed(env.plan, env.importable, a, Exclude(env, a), r, w) ensures t in r {
      if t != a.root {
        var d :| Looks(env, a, d) && d.0 == t;
        LookupsAreStatic(env, a, d, r, w);
      }
    }
    assert StaticReach(env.plan, env.importable, a, t);
  }

  /** A full table is potential only as some aggregate's root. */
  lemma FullIsPotentialOnlyAsRoot(env: Env, t: string)
    requires t in env.plan.full && t in env.importable
    ensures Potential(env.plan, env.importable, t)
            <==> exists i :: 0 <= i < |env.plan.aggregates| && env.plan.aggregates[i].root == t
  {
    if i :| 0 <= i < |env.plan.aggregates| && StaticReach(env.plan, env.importable, env.plan.aggregates[i], t) {
      var a := env.plan.aggregates[i];
      if a.root != t {
        var all := env.importable + set rel | rel in env.plan.relations :: rel.fromTable;
        var every := all + {a.root} - {t};
        assert StaticClosed(env.plan, env.importable, a, ExcludeSet(a, env.importable), every, every) by {
          hide ExcludeSet;
        }
      }
    }
    if i :| 0 <= i < |env.plan.aggregates| && env.plan.aggregates[i].root == t {
      assert StaticReach(env.plan, env.importable, env.plan.aggregates[i], t);
    }
  }

  // ------------------------------------------------------------------
  // Who sends a table
  // ------------------------------------------------------------------

  /** The main thread announces and ends it, empty. */
  ghost predicate MainSends(env: Env, t: string) {
    t in env.importable && t in env.plan.excluded
    && (env.plan.aggregatesOnly ==> Potential(env.plan, env.importable, t))
  }

  /** A full-table worker copies it. */
  ghost predicate WorkerCopies(env: Env, t: string) {
    t in env.importable && t !in env.plan.excluded && !Potential(env.plan, env.importable, t)
    && !env.plan.aggregatesOnly
  }

  ghost predicate Touched(env: Env, t: string) { TouchedUpTo(env, |env.plan.aggregates|, t) }

  /** Reserved for the traversal, which never touched it: the traversal thread copies it. */
  ghost predicate SpareCopies(env: Env, t: string) {
    t in env.importable && Potential(env.plan, env.importable, t) && !Touched(env, t)
    && t !in env.plan.excluded && !env.plan.aggregatesOnly
  }

  ghost predicate IsRootItem(env: Env, x: Item) { InRoots(env, |env.plan.aggregates|, x) }
  ghost predicate IsFetched(env: Env, x: Item) { InFetched(env, |env.plan.aggregates|, x) }
  ghost predicate Queried(env: Env, t: string) { QueriedUpTo(env, |env.plan.aggregates|, t) }

  /** The traversal meets the row in some aggregate. */
  ghost predicate Met(env: Env, x: Item) { IsRootItem(env, x) || IsFetched(env, x) }

  /** What each producer sends. */
  datatype Parts = Parts(main: seq<RowMessage>, bfs: seq<RowMessage>, workers: seq<string>,
                         workerOut: seq<seq<RowMessage>>, spares: seq<string>, spareOut: seq<seq<RowMessage>>)

  function Producers(p: Parts): seq<seq<RowMessage>> { [p.main, p.bfs] + p.workerOut + p.spareOut }

  ghost predicate Copies(db: Database, tables: seq<string>, outs: seq<seq<RowMessage>>) {
    && |tables| == |outs|
    && (forall i, j :: 0 <= i < j < |tables| ==> tables[i] != tables[j])
    && forall i :: 0 <= i < |tables| ==> FullCopy(db, tables[i], outs[i])
  }

  ghost predicate MainOk(env: Env, main: seq<RowMessage>) {
    && (forall t :: PhaseOf(main, t) == if MainSends(env, t) then Ended(0) else Absent)
    && (forall t :: Mentions(main, t) <==> MainSends(env, t))
    && Flat(main) == []
  }

  ghost predicate BfsOk(env: Env, bfs: seq<RowMessage>) {
    && (forall t :: PhaseOf(bfs, t).Absent? || PhaseOf(bfs, t).Bare? || PhaseOf(bfs, t).Ended?)
    && (forall t :: PhaseOf(bfs, t).Ended? <==> exists x :: Met(env, x) && x.0 == t)
    && (forall t :: PhaseOf(bfs, t).Bare? <==> Queried(env, t) && !exists x :: Met(env, x) && x.0 == t)
    && (forall t :: Mentions(bfs, t) <==> !PhaseOf(bfs, t).Absent?)
    && (forall x :: x in Flat(bfs) <==> Met(env, x))
    && (forall x :: multiset(Flat(bfs))[x] <= 1 <==> StableKey(env.db, x) || !IsRootItem(env, x) || !IsFetched(env, x))
    && (forall x :: multiset(Flat(bfs))[x] <= 2)
  }

  ghost predicate PartsOk(env: Env, p: Parts) {
    && MainOk(env, p.main) && BfsOk(env, p.bfs)
    && Copies(env.db, p.workers, p.workerOut) && (forall t :: t in p.workers <==> WorkerCopies(env, t))
    && Copies(env.db, p.spares, p.spareOut) && (forall t :: t in p.spares <==> SpareCopies(env, t))
  }

  // ------------------------------------------------------------------
  // Producing the parts
  // ------------------------------------------------------------------

  method AnnounceExcluded(main: seq<RowMessage>, t: string) returns (main': seq<RowMessage>)
    requires !Mentions(main, t) && Flat(main) == []
    ensures forall u :: PhaseOf(main', u) == if u == t then Ended(0) else PhaseOf(main, u)
    ensures forall u :: Mentions(main', u) <==> Mentions(main, u) || u == t
    ensures Flat(main') == []
  {
    var m1: RowMessage := Message<seq<Row>>.Schema(t);
    var m2: RowMessage := Message<seq<Row>>.TableDone(t, 0);
    var mid := main + [m1];
    main' := mid + [m2];
    FlatAppend(main, m1);
    FlatAppend(mid, m2);
    Unmentioned(main, t);
    assert mid[..|main|] == main && main'[..|mid|] == mid;
    forall u
      ensures PhaseOf(main', u) == if u == t then Ended(0) else PhaseOf(main, u)
      ensures Mentions(main', u) <==> Mentions(main, u) || u == t
    {
      PhaseOfAppend(main, m1, u);
      PhaseOfAppend(mid, m2, u);
      MentionsInit(mid, u);
      MentionsInit(main', u);
    }
  }

  /** Copies the listed tables one after the other (a worker's tasks, or the tables the
      traversal left over). */
  method CopyTables(db: Database, tables: seq<string>) returns (outs: seq<seq<RowMessage>>)
    requires forall i, j :: 0 <= i < j < |tables| ==> tables[i] != tables[j]
    ensures Copies(db, tables, outs)
  {
    outs := [];
    for i := 0 to |tables|
      invariant |outs| == i && forall k :: 0 <= k < i ==> FullCopy(db, tables[k], outs[k])
    {
      hide FullCopy;
      var out := StreamFullTable(db, tables[i]);
      outs := outs + [out];
    }
  }

  /** What the traversal thread's stream holds once every aggregate is done. */
  lemma BfsResult(env: Env, s: Sender, seen: Seen, queried: set<string>, bfs: seq<RowMessage>)
    requires EmissionOk(env.db, s, NO_WRITER, seen) && queried <= s.counts.Keys && Zeroes(s) <= queried
    requires forall x :: x in seen.roots <==> IsRootItem(env, x)
    requires forall x :: x in seen.edges <==> IsFetched(env, x)
    requires forall t :: t in queried <==> Queried(env, t)
    requires Flat(bfs) == Flat(s.out)
    requires forall t :: PhaseOf(bfs, t) == FinalPhase(s, t)
    requires forall t :: Mentions(bfs, t) ==> t in s.counts
    ensures BfsOk(env, bfs)
  {
    hide PhaseOf, Flat, InRoots, InFetched, QueriedUpTo, StreamOk, Mentions;
    BfsRows(env, s, seen, bfs);
    forall t
      ensures PhaseOf(bfs, t).Ended? <==> exists x :: Met(env, x) && x.0 == t
      ensures PhaseOf(bfs, t).Bare? <==> Queried(env, t) && !exists x :: Met(env, x) && x.0 == t
      ensures Mentions(bfs, t) <==> !PhaseOf(bfs, t).Absent?
    {
      AnnouncedTables(env, s, seen, t);
      Unmentioned(bfs, t);
      if PhaseOf(bfs, t).Bare? { assert t in Zeroes(s); }
    }
  }

  lemma AnnouncedTables(env: Env, s: Sender, seen: Seen, t: string)
    requires EmissionOk(env.db, s, NO_WRITER, seen)
    requires forall x :: x in seen.roots <==> IsRootItem(env, x)
    requires forall x :: x in seen.edges <==> IsFetched(env, x)
    ensures (t in s.counts && s.counts[t] > 0) <==> exists x :: Met(env, x) && x.0 == t
  {
    hide IsRootItem, IsFetched, KeyIn, Log, PhaseOf;
    assert TableOk(s, NO_WRITER, t);
    assert t in s.schemas <==> exists k :: k in s.visited && k.0 == t;
    if x :| Met(env, x) && x.0 == t {
      assert (x.0, KeyIn(env.db, x.0, x.1, Text)) in s.visited || (x.0, KeyIn(env.db, x.0, x.1, Binary)) in s.visited;
    }
    if k :| k in s.visited && k.0 == t {
      assert exists x: Item :: x.0 == t && (x in seen.roots || x in seen.edges);
    }
  }

  lemma BfsRows(env: Env, s: Sender, seen: Seen, bfs: seq<RowMessage>)
    requires EmissionOk(env.db, s, NO_WRITER, seen) && Flat(bfs) == Flat(s.out)
    requires forall x :: x in seen.roots <==> IsRootItem(env, x)
    requires forall x :: x in seen.edges <==> IsFetched(env, x)
    ensures forall x :: x in Flat(bfs) <==> Met(env, x)
    ensures forall x ::
              multiset(Flat(bfs))[x] <= 1 <==> StableKey(env.db, x) || !IsRootItem(env, x) || !IsFetched(env, x)
    ensures forall x :: multiset(Flat(bfs))[x] <= 2
  {
    hide IsRootItem, IsFetched, StableKey, StreamOk, Flat;
    assert Tag("", []) == [];
    assert Log(s, NO_WRITER) == Flat(bfs);
    forall x
      ensures multiset(Flat(bfs))[x] == Times(env.db, x, seen) && (x in Flat(bfs) <==> Times(env.db, x, seen) > 0)
    {
      assert x in Flat(bfs) <==> x in multiset(Flat(bfs));
    }
  }

  ghost predicate Distinct(names: seq<string>) { forall i, j :: 0 <= i < j < |names| ==> names[i] != names[j] }

  /** `names` lists every table of the source once; ignored tables are not importable. */
  ghost predicate NamesOk(env: Env, names: seq<string>) {
    Distinct(names) && forall t :: t in env.importable <==> t in names && t !in env.plan.ignored
  }

  /** Classifies the tables, then lets the producers run. It fails exactly on an aggregate
      whose root is not importable or whose exclude patterns do not compile. */
  method StreamAllTables(env: Env, names: seq<string>) returns (r: Option<Parts>)
    requires SaneEnv(env) && NamesOk(env, names)
    ensures r.Some? <==> Accepted(env, |env.plan.aggregates|)
    ensures r.Some? ==> PartsOk(env, r.value)
  {
    hide StreamOk, Potential, PatternsCompile, Sane, SaneAggregate, BfsOk, Copies, PhaseOf, Mentions, Flat, EmissionOk,
         InRoots, InFetched, QueriedUpTo, TouchedUpTo;
    var potential := ComputePotentialAggregateTables(env.plan, env.importable);
    if potential.None? {
      return None;
    }
    var main, workers := Classify(env, names, potential.value);
    var workerOut := CopyTables(env.db, workers);
    var run, seen, queried := RunAggregates(env);
    if run.None? {
      return None;
    }
    var (s, touched) := run.value;
    var bfs := SendTableDones(env.db, s, seen);
    BfsResult(env, s, seen, queried, bfs);
    var spares := LeftOver(env, names, potential.value, touched);
    var spareOut := CopyTables(env.db, spares);
    r := Some(Parts(main, bfs, workers, workerOut, spares, spareOut));
  }

  method Classify(env: Env, names: seq<string>, potential: set<string>)
    returns (main: seq<RowMessage>, workers: seq<string>)
    requires NamesOk(env, names)
    requires forall t :: t in potential <==> Potential(env.plan, env.importable, t)
    ensures MainOk(env, main) && Distinct(workers) && forall t :: t in workers <==> WorkerCopies(env, t)
  {
    hide Potential, PhaseOf, Mentions, Flat;
    main, workers := [], [];
    EmptyStream();
    for i := 0 to |names|
      invariant Flat(main) == []
      invariant forall t :: PhaseOf(main, t) == if t in names[..i] && MainSends(env, t) then Ended(0) else Absent
      invariant forall t :: Mentions(main, t) <==> t in names[..i] && MainSends(env, t)
      invariant Distinct(workers) && forall t :: t in workers <==> t in names[..i] && WorkerCopies(env, t)
    {
      var t := names[i];
      assert t !in names[..i];
      assert names[..i + 1] == names[..i] + [t];
      if t in env.plan.ignored || (env.plan.aggregatesOnly && t !in potential) {
      } else if t in env.plan.excluded {
        main := AnnounceExcluded(main, t);
      } else if t !in potential && !env.plan.aggregatesOnly {
        workers := workers + [t];
      }
    }
    assert names[..|names|] == names;
  }

  lemma EmptyStream()
    ensures Flat([]) == [] && forall t :: PhaseOf<seq<Row>>([], t) == Absent && !Mentions<seq<Row>>([], t)
  {
  }

  method LeftOver(env: Env, names: seq<string>, potential: set<string>,
                  touched: set<string>) returns (spares: seq<string>)
    requires NamesOk(env, names)
    requires forall t :: t in potential <==> Potential(env.plan, env.importable, t)
    requires forall t :: t in touched <==> Touched(env, t)
    ensures Distinct(spares) && forall t :: t in spares <==> SpareCopies(env, t)
  {
    hide Potential, Touched;
    spares := [];
    for i := 0 to |names|
      invariant Distinct(spares) && forall t :: t in spares <==> t in names[..i] && SpareCopies(env, t)
    {
      var t := names[i];
      assert t !in names[..i];
      assert names[..i + 1] == names[..i] + [t];
      if t in potential && t !in touched && t !in env.plan.excluded && t !in env.plan.ignored
          && !env.plan.aggregatesOnly {
        spares := spares + [t];
      }
    }
    assert names[..|names|] == names;
  }
}
