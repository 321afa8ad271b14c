/** Streaming a whole plan: which thread sends which table, and what the client receives. */
module Streaming {
  import opened Bytes
  import opened RowKeys
  import opened Rows
  import opened Plan
  import opened StaticWalk
  import opened Database
  import opened Streams
  import opened Emission
  import opened Closure
  import opened Traversal

  // ------------------------------------------------------------------
  // Full tables
  // ------------------------------------------------------------------

  /** Only `t` is mentioned, announced first, and its rows are sent once each. */
  ghost predicate FullCopy(db: Database, t: string, out: seq<RowMessage>) {
    && PhaseOf(out, t) == Ended(|RowsOf(db, t)|)
    && (forall i :: 0 <= i < |out| ==> out[i].table == t)
    && (forall x :: multiset(Flat(out))[x] == if x.0 == t && x.1 in RowsOf(db, t) then 1 else 0)
  }

  /** All of the table but `rest` has been handed to the writer. */
  ghost predicate CopyOk(db: Database, t: string, s: Sender, w: Writer, rest: set<Row>) {
    && rest <= RowsOf(db, t) && StreamOk(s, w) && w.table == t && t in s.schemas
    && Count(s, t) == |RowsOf(db, t)| - |rest|
    && OnlyAdds([], s.out, t)
    && RowsOnce(Log(s, w), t, RowsOf(db, t) - rest)
  }

  /** The rows of table `t`, once each, and nothing else. */
  ghost predicate RowsOnce(log: seq<Item>, t: string, rows: set<Row>) {
    forall x :: multiset(log)[x] == if x.0 == t && x.1 in rows then 1 else 0
  }

  lemma CopyStarts(db: Database, t: string)
    ensures StreamOk(Sender({}, {}, map[], []), Writer(t, [], 0))
    ensures Log(Sender({}, {}, map[], []), Writer(t, [], 0)) == []
  {
    forall u ensures TableOk(Sender({}, {}, map[], []), Writer(t, [], 0), u) {}
  }

  lemma CopyContinues(db: Database, t: string, s: Sender, w: Writer, rest: set<Row>, row: Row, s': Sender, w': Writer)
    requires CopyOk(db, t, s, w, rest) && row in rest && StreamOk(s', w') && w'.table == w.table
    requires s' == s.(out := s'.out, counts := s.counts[w.table := Count(s, w.table) + 1])
    requires Log(s', w') == Log(s, w) + [(w.table, row)] && OnlyAdds(s.out, s'.out, w.table)
    ensures CopyOk(db, t, s', w', rest - {row})
  {
    hide StreamOk, Log, RowsOnce, OnlyAdds;
    assert RowsOf(db, t) - (rest - {row}) == (RowsOf(db, t) - rest) + {row};
    OneMore(Log(s, w), t, RowsOf(db, t) - rest, row);
    AddsMore(s.out, s'.out, t);
  }

  lemma OneMore(log: seq<Item>, t: string, rows: set<Row>, row: Row)
    requires RowsOnce(log, t, rows) && row !in rows
    ensures RowsOnce(log + [(t, row)], t, rows + {row})
  {
    var x := (t, row);
    assert multiset(log + [x]) == multiset(log) + multiset{x};
  }

  lemma AddsMore(out: seq<RowMessage>, more: seq<RowMessage>, t: string)
    requires OnlyAdds([], out, t) && OnlyAdds(out, more, t)
    ensures OnlyAdds([], more, t)
  {
    forall i | 0 <= i < |more| ensures more[i].table == t {
      if i < |out| { assert out[i] == more[i]; }
    }
  }

  lemma CopyEnds(db: Database, t: string, s: Sender, w: Writer)
    requires CopyOk(db, t, s, w, {}) && w.rows == []
    ensures FullCopy(db, t, s.out + [Message<seq<Row>>.TableDone(t, Count(s, t))])
  {
    hide PhaseOf, Flat;
    assert TableOk(s, w, t);
    assert Tag(t, w.rows) == [];
    var m: RowMessage := Message<seq<Row>>.TableDone(t, Count(s, t));
    PhaseOfAppend(s.out, m, t);
    FlatAppend(s.out, m);
  }

  /** `stream_full_table_to_channel`: the schema, every row in chunks, then the end; also for
      an empty table. */
  method StreamFullTable(db: Database, t: string) returns (out: seq<RowMessage>)
    ensures FullCopy(db, t, out)
  {
    hide TableOk, Log, FullCopy;
    var w := Writer(t, [], 0);
    var s := Sender({}, {}, map[], []);
    CopyStarts(db, t);
    s := SendSchema(s, w);
    var rest := RowsOf(db, t);
    while rest != {}
      invariant CopyOk(db, t, s, w, rest)
    {
      var row :| row in rest;
      var s', w' := SendRow(db, s, w, row);
      CopyContinues(db, t, s, w, rest, row, s', w');
      s, w, rest := s', w', rest - {row};
    }
    ghost var before, wBefore := s, w;
    s, w := SendChunk(s, w);
    CopyFlushed(db, t, before, wBefore, s, w);
    CopyEnds(db, t, s, w);
    out := s.out + [Message<seq<Row>>.TableDone(t, Count(s, t))];
  }

  lemma CopyFlushed(db: Database, t: string, s: Sender, w: Writer, s': Sender, w': Writer)
    requires CopyOk(db, t, s, w, {}) && StreamOk(s', w') && w'.table == w.table
    requires s' == s.(out := s'.out) && Log(s', w') == Log(s, w) && OnlyAdds(s.out, s'.out, w.table)
    ensures CopyOk(db, t, s', w', {})
  {
    hide StreamOk, Log, RowsOnce, OnlyAdds;
    AddsMore(s.out, s'.out, t);
  }

  // ------------------------------------------------------------------
  // All aggregates
  // ------------------------------------------------------------------

  ghost predicate InRoots(env: Env, n: nat, x: Item)
    requires n <= |env.plan.aggregates|
  {
    exists i :: 0 <= i < n && x in RootItems(env.plan.aggregates[i])
  }

  ghost predicate InFetched(env: Env, n: nat, x: Item)
    requires n <= |env.plan.aggregates|
  {
    exists i :: 0 <= i < n && x in Fetched(env, env.plan.aggregates[i])
  }

  ghost predicate TouchedUpTo(env: Env, n: nat, t: string)
    requires n <= |env.plan.aggregates|
  {
    exists i :: 0 <= i < n && Touches(env, env.plan.aggregates[i], t)
  }

  ghost predicate QueriedUpTo(env: Env, n: nat, t: string)
    requires n <= |env.plan.aggregates|
  {
    exists i :: 0 <= i < n && Queries(env, env.plan.aggregates[i], t)
  }

  /** The plan is one the server accepts: importable roots, patterns that compile. */
  ghost predicate Accepted(env: Env, n: nat)
    requires n <= |env.plan.aggregates|
  {
    forall i :: 0 <= i < n ==> env.plan.aggregates[i].root in env.importable && PatternsCompile(env.plan.aggregates[i])
  }

  ghost predicate SaneEnv(env: Env) {
    Sane(env.db) && forall i :: 0 <= i < |env.plan.aggregates| ==> SaneAggregate(env, env.plan.aggregates[i])
  }

  lemma NothingSent(db: Database)
    ensures EmissionOk(db, Sender({}, {}, map[], []), NO_WRITER, Seen({}, {}))
  {
    forall u ensures TableOk(Sender({}, {}, map[], []), NO_WRITER, u) {}
  }

  /** Runs the aggregates in plan order over one shared `visited` set. Rows met and tables
      touched are the union over the aggregates. */
  method RunAggregates(env: Env)
    returns (r: Option<(Sender, set<string>)>, ghost seen: Seen, ghost queried: set<string>)
    requires SaneEnv(env)
    ensures r.Some? <==> Accepted(env, |env.plan.aggregates|)
    ensures r.Some? ==> EmissionOk(env.db, r.value.0, NO_WRITER, seen)
    ensures r.Some? ==> queried <= r.value.0.counts.Keys && Zeroes(r.value.0) <= queried
    ensures r.Some? ==> forall x :: x in seen.roots <==> InRoots(env, |env.plan.aggregates|, x)
    ensures r.Some? ==> forall x :: x in seen.edges <==> InFetched(env, |env.plan.aggregates|, x)
    ensures r.Some? ==> forall t :: t in r.value.1 <==> TouchedUpTo(env, |env.plan.aggregates|, t)
    ensures r.Some? ==> forall t :: t in queried <==> QueriedUpTo(env, |env.plan.aggregates|, t)
  {
    hide Zeroes, EmissionOk, RootItems, Fetched, Touches, Queries, PatternsCompile, Sane;
    var s := Sender({}, {}, map[], []);
    var touched: set<string> := {};
    seen, queried := Seen({}, {}), {};
    NothingSent(env.db);
    assert Zeroes(s) == {} by { NoZeroes(s); }
    for i := 0 to |env.plan.aggregates|
      invariant Accepted(env, i)
      invariant EmissionOk(env.db, s, NO_WRITER, seen) && queried <= s.counts.Keys && Zeroes(s) <= queried
      invariant forall x :: x in seen.roots <==> InRoots(env, i, x)
      invariant forall x :: x in seen.edges <==> InFetched(env, i, x)
      invariant forall t :: t in touched <==> TouchedUpTo(env, i, t)
      invariant forall t :: t in queried <==> QueriedUpTo(env, i, t)
    {
      var a := env.plan.aggregates[i];
      if a.root !in env.importable {
        return None, seen, queried;
      }
      var exclude := ExpandExcludePatterns(a, env.importable);
      if exclude.None? {
        return None, seen, queried;
      }
      s, touched, seen, queried := RunAggregate(env, a, exclude.value, s, touched, seen, queried);
    }
    r := Some((s, touched));
  }

  lemma NoZeroes(s: Sender)
    requires s.counts == map[]
    ensures Zeroes(s) == {}
  {
  }

  /** What the counts say about each table when the last aggregate is done. */
  ghost function FinalPhase(s: Sender, t: string): Phase {
    if t !in s.counts then Absent else if s.counts[t] == 0 then Bare else Ended(s.counts[t])
  }

  /** Sends the end of every counted table, in an arbitrary order. A table that was queried
      but had no row to send is ended without ever having been announced. */
  method SendTableDones(db: Database, s: Sender, ghost seen: Seen) returns (out: seq<RowMessage>)
    requires EmissionOk(db, s, NO_WRITER, seen)
    ensures Flat(out) == Flat(s.out)
    ensures forall t :: PhaseOf(out, t) == FinalPhase(s, t)
    ensures forall t :: Mentions(out, t) ==> t in s.counts
  {
    out := s.out;
    var rest := s.counts.Keys;
    OpenTables(db, s, seen);
    while rest != {}
      invariant rest <= s.counts.Keys && Flat(out) == Flat(s.out)
      invariant forall t :: PhaseOf(out, t) == if t in rest then PhaseOf(s.out, t) else FinalPhase(s, t)
      invariant forall t :: Mentions(out, t) ==> t in s.counts
    {
      hide EmissionOk, PhaseOf, Flat, Mentions;
      var t :| t in rest;
      var m: RowMessage := Message<seq<Row>>.TableDone(t, s.counts[t]);
      FlatAppend(out, m);
      forall u
        ensures PhaseOf(out + [m], u) == if u in rest - {t} then PhaseOf(s.out, u) else FinalPhase(s, u)
        ensures Mentions(out + [m], u) ==> u in s.counts
      {
        PhaseOfAppend(out, m, u);
        MentionsInit(out + [m], u);
        assert (out + [m])[..|out|] == out;
      }
      out := out + [m];
      rest := rest - {t};
    }
  }

  lemma OpenTables(db: Database, s: Sender, seen: Seen)
    requires EmissionOk(db, s, NO_WRITER, seen)
    ensures forall t :: PhaseOf(s.out, t) == if t in s.counts && s.counts[t] > 0 then Open(s.counts[t]) else Absent
    ensures forall t :: Mentions(s.out, t) ==> t in s.counts
  {
    hide SentOk, PhaseOf;
    forall t ensures PhaseOf(s.out, t) == if t in s.counts && s.counts[t] > 0 then Open(s.counts[t]) else Absent {
      assert TableOk(s, NO_WRITER, t);
    }
    forall t | Mentions(s.out, t) ensures t in s.counts {
      MentionedHasPhase(s.out, t);
    }
  }

  lemma {:induction false} MentionedHasPhase(out: seq<RowMessage>, t: string)
    requires Mentions(out, t)
    ensures PhaseOf(out, t) != Absent
  {
    MentionsInit(out, t);
    if Mentions(out[..|out| - 1], t) {
      MentionedHasPhase(out[..|out| - 1], t);
    }
  }
}
