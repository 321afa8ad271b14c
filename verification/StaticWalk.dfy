/** The static walk over the relation graph that decides, before any query runs, which
    tables are reserved for the aggregate traversal. */
module StaticWalk {
  import opened Bytes
  import opened Sets
  import opened Plan

  /** `reached` and `wide` are closed under the walk's rules: `wide` holds the tables whose
      backward relations are followed (the root and tables reached backward). */
  ghost predicate StaticClosed(plan: Plan, importable: set<string>, a: Aggregate, exclude: set<string>,
                               reached: set<string>, wide: set<string>)
  {
    && wide <= reached
    && (a.root in importable ==> a.root in wide)
    && (!a.rootOnly ==> forall rel | rel in plan.relations ::
          && (rel.fromTable in reached && Enterable(plan, importable, exclude, rel.toTable)
              ==> rel.toTable in reached)
          && (rel.toTable in wide && Enterable(plan, importable, exclude, rel.fromTable)
              ==> rel.fromTable in wide))
  }

  /** `reached` and `wide` are the least such sets. */
  ghost predicate StaticLeast(plan: Plan, importable: set<string>, a: Aggregate, exclude: set<string>,
                              reached: set<string>, wide: set<string>)
  {
    && StaticClosed(plan, importable, a, exclude, reached, wide)
    && forall r, w :: StaticClosed(plan, importable, a, exclude, r, w) ==> reached <= r && wide <= w
  }

  ghost function WideTables(explored: map<string, bool>): set<string> {
    set t | t in explored && explored[t]
  }

  ghost predicate NoRepeats<T>(s: seq<T>) {
    forall e :: e in s ==> multiset(s)[e] == 1
  }

  /** Every capability recorded so far is forced by the rules. */
  ghost predicate Forced(plan: Plan, importable: set<string>, a: Aggregate, exclude: set<string>,
                         explored: map<string, bool>)
  {
    forall r, w :: StaticClosed(plan, importable, a, exclude, r, w) ==> explored.Keys <= r && WideTables(explored) <= w
  }

  /** What is on the stack is recorded, and what was visited or is on the stack was put
      there once per capability. */
  ghost predicate StackOk(explored: map<string, bool>, queue: seq<(string, bool)>, visits: seq<(string, bool)>) {
    && NoRepeats(visits + queue)
    && (forall e :: Seen(visits, queue, e) ==> e.0 in explored && (e.1 ==> explored[e.0]))
    && (forall t :: t in explored ==> Seen(visits, queue, (t, explored[t])))
  }

  ghost predicate Seen(visits: seq<(string, bool)>, queue: seq<(string, bool)>, e: (string, bool)) {
    e in visits || e in queue
  }

  /** Every visited table had its relations followed, backward ones when it was wide. */
  ghost predicate Followed(plan: Plan, importable: set<string>, exclude: set<string>,
                           explored: map<string, bool>, visits: seq<(string, bool)>)
  {
    forall rel | rel in plan.relations ::
      && ((((rel.fromTable, true) in visits || (rel.fromTable, false) in visits)
           && Enterable(plan, importable, exclude, rel.toTable))
          ==> rel.toTable in explored)
      && ((rel.toTable, true) in visits && Enterable(plan, importable, exclude, rel.fromTable)
          ==> rel.fromTable in explored && explored[rel.fromTable])
  }

  predicate ShouldVisit(explored: map<string, bool>, t: string, backward: bool) {
    t !in explored || (backward && !explored[t])
  }

  /** Records a capability and puts the table on the stack. */
  method Push(explored: map<string, bool>, queue: seq<(string, bool)>, t: string, backward: bool,
              ghost visits: seq<(string, bool)>)
    returns (explored': map<string, bool>, queue': seq<(string, bool)>)
    requires StackOk(explored, queue, visits) && ShouldVisit(explored, t, backward)
    ensures explored' == explored[t := backward] && queue' == queue + [(t, backward)]
    ensures StackOk(explored', queue', visits)
    ensures WideTables(explored') == WideTables(explored) + if backward then {t} else {}
  {
    explored' := explored[t := backward];
    queue' := queue + [(t, backward)];
    assert !Seen(visits, queue, (t, backward));
    OneMore(visits, queue, (t, backward));
    forall e ensures Seen(visits, queue', e) <==> Seen(visits, queue, e) || e == (t, backward) {}
  }

  lemma OneMore<T>(a: seq<T>, b: seq<T>, e: T)
    requires NoRepeats(a + b) && e !in a && e !in b
    ensures NoRepeats(a + (b + [e]))
  {
    assert a + (b + [e]) == (a + b) + [e];
    assert e !in a + b;
  }

  /** Nothing is forgotten, and the stack changes only when a capability is recorded. */
  ghost predicate Grows(explored: map<string, bool>, queue: seq<(string, bool)>,
                        explored': map<string, bool>, queue': seq<(string, bool)>)
  {
    && explored.Keys <= explored'.Keys
    && WideTables(explored) <= WideTables(explored')
    && ((explored' == explored && queue' == queue) ||
        |explored.Keys| + |WideTables(explored)| < |explored'.Keys| + |WideTables(explored')|)
  }

  lemma PushGrows(explored: map<string, bool>, t: string, backward: bool)
    requires ShouldVisit(explored, t, backward)
    ensures var explored' := explored[t := backward];
            && explored.Keys <= explored'.Keys && WideTables(explored) <= WideTables(explored')
            && |explored.Keys| + |WideTables(explored)| < |explored'.Keys| + |WideTables(explored')|
  {
    var explored' := explored[t := backward];
    assert explored'.Keys == explored.Keys + {t};
    if t in explored {
      assert explored'.Keys == explored.Keys;
      assert t !in WideTables(explored) && WideTables(explored') == WideTables(explored) + {t};
    } else {
      assert WideTables(explored') == WideTables(explored) + if backward then {t} else {};
    }
  }

  lemma ForcedForward(plan: Plan, importable: set<string>, a: Aggregate, exclude: set<string>,
                      explored: map<string, bool>, rel: Relation)
    requires !a.rootOnly && Forced(plan, importable, a, exclude, explored) && rel in plan.relations
    requires rel.fromTable in explored && Enterable(plan, importable, exclude, rel.toTable)
    requires rel.toTable !in explored
    ensures Forced(plan, importable, a, exclude, explored[rel.toTable := false])
  {
    assert WideTables(explored[rel.toTable := false]) == WideTables(explored);
  }

  lemma ForcedBackward(plan: Plan, importable: set<string>, a: Aggregate, exclude: set<string>,
                       explored: map<string, bool>, rel: Relation)
    requires !a.rootOnly && Forced(plan, importable, a, exclude, explored) && rel in plan.relations
    requires rel.toTable in WideTables(explored) && Enterable(plan, importable, exclude, rel.fromTable)
    ensures Forced(plan, importable, a, exclude, explored[rel.fromTable := true])
  {
    assert WideTables(explored[rel.fromTable := true]) == WideTables(explored) + {rel.fromTable};
  }

  method FollowForward(plan: Plan, importable: set<string>, a: Aggregate, exclude: set<string>, table: string,
                       explored: map<string, bool>, queue: seq<(string, bool)>, ghost visits: seq<(string, bool)>)
    returns (explored': map<string, bool>, queue': seq<(string, bool)>)
    requires !a.rootOnly && table in explored && explored.Keys <= importable
    requires StackOk(explored, queue, visits) && Forced(plan, importable, a, exclude, explored)
    ensures StackOk(explored', queue', visits) && Forced(plan, importable, a, exclude, explored')
    ensures Grows(explored, queue, explored', queue') && explored'.Keys <= importable
    ensures forall rel | rel in plan.relations && rel.fromTable == table &&
                         Enterable(plan, importable, exclude, rel.toTable) :: rel.toTable in explored'
  {
    hide StackOk, Forced;
    explored', queue' := explored, queue;
    for i := 0 to |plan.relations|
      invariant StackOk(explored', queue', visits) && Forced(plan, importable, a, exclude, explored')
      invariant Grows(explored, queue, explored', queue') && explored'.Keys <= importable
      invariant forall k :: 0 <= k < i && plan.relations[k].fromTable == table &&
                            Enterable(plan, importable, exclude, plan.relations[k].toTable)
                            ==> plan.relations[k].toTable in explored'
    {
      var rel := plan.relations[i];
      if rel.fromTable == table && rel.toTable in importable && rel.toTable !in plan.full
         && rel.toTable !in exclude && rel.toTable !in plan.excluded
         && ShouldVisit(explored', rel.toTable, false) {
        assert rel in plan.relations;
        PushGrows(explored', rel.toTable, false);
        ForcedForward(plan, importable, a, exclude, explored', rel);
        explored', queue' := Push(explored', queue', rel.toTable, false, visits);
      }
    }
  }

  method FollowBackward(plan: Plan, importable: set<string>, a: Aggregate, exclude: set<string>, table: string,
                        explored: map<string, bool>, queue: seq<(string, bool)>, ghost visits: seq<(string, bool)>)
    returns (explored': map<string, bool>, queue': seq<(string, bool)>)
    requires !a.rootOnly && table in WideTables(explored) && explored.Keys <= importable
    requires StackOk(explored, queue, visits) && Forced(plan, importable, a, exclude, explored)
    ensures StackOk(explored', queue', visits) && Forced(plan, importable, a, exclude, explored')
    ensures Grows(explored, queue, explored', queue') && explored'.Keys <= importable
    ensures forall rel | rel in plan.relations && rel.toTable == table &&
                         Enterable(plan, importable, exclude, rel.fromTable)
                            :: rel.fromTable in WideTables(explored')
  {
    hide StackOk, Forced;
    explored', queue' := explored, queue;
    for i := 0 to |plan.relations|
      invariant StackOk(explored', queue', visits) && Forced(plan, importable, a, exclude, explored')
      invariant Grows(explored, queue, explored', queue') && explored'.Keys <= importable
      invariant forall k :: 0 <= k < i && plan.relations[k].toTable == table &&
                            Enterable(plan, importable, exclude, plan.relations[k].fromTable)
                            ==> plan.relations[k].fromTable in WideTables(explored')
    {
      var rel := plan.relations[i];
      if rel.toTable == table && rel.fromTable in importable && rel.fromTable !in plan.full
         && rel.fromTable !in exclude && rel.fromTable !in plan.excluded
         && ShouldVisit(explored', rel.fromTable, true) {
        assert rel in plan.relations;
        PushGrows(explored', rel.fromTable, true);
        ForcedBackward(plan, importable, a, exclude, explored', rel);
        explored', queue' := Push(explored', queue', rel.fromTable, true, visits);
      }
    }
  }

  /** The static walk from one aggregate's root: an explicit stack, and the strongest
      capability each table was explored with. It computes exactly the least reachable
      sets, and visits each table at most once per capability, so at most twice. */
  method Walk(plan: Plan, importable: set<string>, a: Aggregate, exclude: set<string>)
    returns (explored: map<string, bool>, ghost visits: seq<(string, bool)>)
    requires !a.rootOnly
    ensures StaticLeast(plan, importable, a, exclude, explored.Keys, WideTables(explored))
    ensures NoRepeats(visits) && forall t :: t in explored.Keys <==> (t, true) in visits || (t, false) in visits
    ensures explored.Keys <= importable
  {
    hide StackOk, Forced, Followed;
    explored := map[];
    visits := [];
    var queue: seq<(string, bool)> := [];
    if a.root in importable {
      queue := [(a.root, true)];
      explored := map[a.root := true];
    }
    WalkStart(plan, importable, a, exclude, explored, queue);
    while queue != []
      invariant StackOk(explored, queue, visits)
      invariant Forced(plan, importable, a, exclude, explored)
      invariant Followed(plan, importable, exclude, explored, visits)
      invariant a.root in importable ==> a.root in WideTables(explored)
      invariant explored.Keys <= importable
      decreases 2 * |importable| - |explored.Keys| - |WideTables(explored)|, |queue|
    {
      var (table, canGoBackward) := queue[|queue| - 1];
      SubsetSize(explored.Keys, importable);
      SubsetSize(WideTables(explored), importable);
      MoveToVisited(explored, queue, visits);
      ghost var explored0, visits0 := explored, visits;
      queue := queue[..|queue| - 1];
      visits := visits + [(table, canGoBackward)];
      explored, queue := FollowForward(plan, importable, a, exclude, table, explored, queue, visits);
      if canGoBackward {
        explored, queue := FollowBackward(plan, importable, a, exclude, table, explored, queue, visits);
      }
      FollowedNow(plan, importable, exclude, explored0, visits0, explored, table, canGoBackward);
      SubsetSize(explored.Keys, importable);
      SubsetSize(WideTables(explored), importable);
    }
    WalkDone(plan, importable, a, exclude, explored, visits);
  }

  lemma WalkStart(plan: Plan, importable: set<string>, a: Aggregate, exclude: set<string>,
                  explored: map<string, bool>, queue: seq<(string, bool)>)
    requires a.root in importable ==> queue == [(a.root, true)] && explored == map[a.root := true]
    requires a.root !in importable ==> queue == [] && explored == map[]
    ensures StackOk(explored, queue, []) && Forced(plan, importable, a, exclude, explored)
    ensures Followed(plan, importable, exclude, explored, [])
  {
    assert [] + queue == queue;
  }

  lemma FollowedNow(plan: Plan, importable: set<string>, exclude: set<string>, explored: map<string, bool>,
                    visits: seq<(string, bool)>, explored': map<string, bool>, table: string, backward: bool)
    requires Followed(plan, importable, exclude, explored, visits)
    requires explored.Keys <= explored'.Keys && WideTables(explored) <= WideTables(explored')
    requires forall rel | rel in plan.relations && rel.fromTable == table &&
                          Enterable(plan, importable, exclude, rel.toTable) :: rel.toTable in explored'
    requires backward ==> forall rel | rel in plan.relations && rel.toTable == table &&
                            Enterable(plan, importable, exclude, rel.fromTable)
                            :: rel.fromTable in WideTables(explored')
    ensures Followed(plan, importable, exclude, explored', visits + [(table, backward)])
  {
    forall rel | rel in plan.relations && rel.fromTable in explored && explored[rel.fromTable]
      ensures rel.fromTable in explored' && explored'[rel.fromTable]
    {
      assert rel.fromTable in WideTables(explored);
    }
  }

  lemma WalkDone(plan: Plan, importable: set<string>, a: Aggregate, exclude: set<string>,
                 explored: map<string, bool>, visits: seq<(string, bool)>)
    requires !a.rootOnly && StackOk(explored, [], visits)
    requires Forced(plan, importable, a, exclude, explored)
    requires Followed(plan, importable, exclude, explored, visits)
    requires a.root in importable ==> a.root in WideTables(explored)
    ensures StaticLeast(plan, importable, a, exclude, explored.Keys, WideTables(explored))
    ensures NoRepeats(visits) && forall t :: t in explored.Keys <==> (t, true) in visits || (t, false) in visits
  {
    assert visits + [] == visits;
    forall t | t in explored ensures (t, true) in visits || (t, false) in visits {
      assert Seen(visits, [], (t, explored[t]));
    }
    forall e | e in visits ensures e.0 in explored {
      assert Seen(visits, [], e);
    }
  }

  /** Popping moves an entry from the stack to the visited list. */
  lemma MoveToVisited(explored: map<string, bool>, queue: seq<(string, bool)>, visits: seq<(string, bool)>)
    requires queue != [] && StackOk(explored, queue, visits)
    ensures StackOk(explored, queue[..|queue| - 1], visits + [queue[|queue| - 1]])
    ensures queue[|queue| - 1].0 in explored && (queue[|queue| - 1].1 ==> queue[|queue| - 1].0 in WideTables(explored))
  {
    var n := |queue| - 1;
    var rest, visits' := queue[..n], visits + [queue[n]];
    assert queue == rest + [queue[n]];
    assert multiset(visits' + rest) == multiset(visits + queue);
    forall e ensures e in visits' + rest <==> e in visits + queue {
      assert e in visits' + rest <==> e in multiset(visits' + rest);
      assert e in visits + queue <==> e in multiset(visits + queue);
    }
    forall e ensures Seen(visits', rest, e) <==> Seen(visits, queue, e) {
      assert Seen(visits', rest, e) <==> e in visits' + rest;
      assert Seen(visits, queue, e) <==> e in visits + queue;
    }
    assert Seen(visits, queue, queue[n]);
  }

  // ------------------------------------------------------------------
  // The potential set
  // ------------------------------------------------------------------

  ghost predicate StaticReach(plan: Plan, importable: set<string>, a: Aggregate, t: string) {
    forall r, w :: StaticClosed(plan, importable, a, ExcludeSet(a, importable), r, w) ==> t in r
  }

  /** The table is in the least reachable set of some aggregate. */
  ghost predicate Potential(plan: Plan, importable: set<string>, t: string) {
    exists i :: 0 <= i < |plan.aggregates| && StaticReach(plan, importable, plan.aggregates[i], t)
  }

  lemma LeastIsReach(plan: Plan, importable: set<string>, a: Aggregate, reached: set<string>, wide: set<string>)
    requires StaticLeast(plan, importable, a, ExcludeSet(a, importable), reached, wide)
    ensures forall t :: t in reached <==> StaticReach(plan, importable, a, t)
  {
  }

  lemma RootOnlyReach(plan: Plan, importable: set<string>, a: Aggregate)
    requires a.rootOnly
    ensures StaticLeast(plan, importable, a, ExcludeSet(a, importable),
                        if a.root in importable then {a.root} else {},
                        if a.root in importable then {a.root} else {})
  {
  }

  /** `compute_potential_aggregate_tables`: the tables some aggregate can reach, or an
      error when an exclude pattern does not compile. */
  method ComputePotentialAggregateTables(plan: Plan, importable: set<string>) returns (r: Option<set<string>>)
    ensures r.Some? <==> forall i :: 0 <= i < |plan.aggregates| ==> PatternsCompile(plan.aggregates[i])
    ensures r.Some? ==> forall t :: t in r.value <==> Potential(plan, importable, t)
    ensures r.Some? ==> r.value <= importable
  {
    var potential := {};
    for i := 0 to |plan.aggregates|
      invariant forall k :: 0 <= k < i ==> PatternsCompile(plan.aggregates[k])
      invariant forall t :: t in potential <==>
                            exists k :: 0 <= k < i && StaticReach(plan, importable, plan.aggregates[k], t)
      invariant potential <= importable
    {
      hide StaticReach, StaticLeast, ExcludeSet, PatternsCompile;
      var a := plan.aggregates[i];
      var exclude := ExpandExcludePatterns(a, importable);
      if exclude.None? {
        return None;
      }
      var found: set<string>;
      ghost var wide: set<string>;
      if a.rootOnly {
        found := if a.root in importable then {a.root} else {};
        wide := found;
        RootOnlyReach(plan, importable, a);
      } else {
        var explored, visits := Walk(plan, importable, a, exclude.value);
        found := explored.Keys;
        wide := WideTables(explored);
      }
      LeastIsReach(plan, importable, a, found, wide);
      potential := potential + found;
    }
    return Some(potential);
  }
}
