/** The aggregate traversal: a level-by-level search that batches foreign-key values by
    (table, column, direction) and drains them in an arbitrary order. */
module Traversal {
  import opened Bytes
  import opened Sets
  import opened RowKeys
  import opened Rows
  import opened Plan
  import opened Database
  import opened Streams
  import opened Emission
  import opened Closure

  const MAX_IN_VALUES: nat := 10_000

  type Entry = (string, string, bool)
  type Pending = map<Entry, seq<Value>>

  /** Rows whose forward or backward values were extracted for this aggregate. */
  datatype Gates = Gates(fwd: set<KeyItem>, bwd: set<KeyItem>)

  /** The proof's record of an aggregate: rows reached so far, rows reached wide, lookups
      called for, and lookups made. */
  datatype Trace = Trace(reached: set<Item>, wide: set<Item>, known: set<Demand>, done: set<Demand>)

  // ------------------------------------------------------------------
  // Invariants
  // ------------------------------------------------------------------

  ghost predicate Satisfied(env: Env, a: Aggregate, tr: Trace, d: Demand) {
    Enters(env, a, d.0) ==> forall x :: Answers(env, d, x) ==> x in tr.reached && (d.2 ==> x in tr.wide)
  }

  /** Whatever was reached had to be, and every lookup is called for by a reached row. */
  ghost predicate TraceSound(env: Env, a: Aggregate, tr: Trace) {
    && tr.wide <= tr.reached <= Universe(env.db)
    && (forall r, w :: Closed(env, a, r, w) ==> tr.reached <= r && tr.wide <= w)
    && (forall d :: d in tr.known ==> Called(env, a, tr.reached, tr.wide, d))
    && (forall d :: d in tr.done ==> Satisfied(env, a, tr, d))
  }

  /** Each lookup the row calls for in this direction is known, under one of its keys. */
  ghost predicate Covered(env: Env, a: Aggregate, known: set<Demand>, x: Item, back: bool) {
    forall rel, k :: Usable(env, a, rel, back) && x.0 == Source(rel, back) && HasKey(env, x, SourceColumn(rel, back), k)
                     ==> Asked(env, known, rel, back, x)
  }

  ghost predicate Asked(env: Env, known: set<Demand>, rel: Relation, back: bool, x: Item) {
    exists k :: HasKey(env, x, SourceColumn(rel, back), k)
                && (Target(rel, back), TargetColumn(rel, back), back, k) in known
  }

  ghost predicate TraceCovered(env: Env, a: Aggregate, tr: Trace) {
    && (forall x :: x in tr.reached ==> Covered(env, a, tr.known, x, false))
    && (forall x :: x in tr.wide ==> Covered(env, a, tr.known, x, true))
  }

  ghost function GateUniverse(db: Database): set<KeyItem> {
    (set x | x in Universe(db) :: (x.0, KeyIn(db, x.0, x.1, Text))) +
    (set x | x in Universe(db) :: (x.0, KeyIn(db, x.0, x.1, Binary)))
  }

  /** A row behind a closed gate has its lookups known. */
  ghost predicate GateOk(env: Env, a: Aggregate, gate: set<KeyItem>, known: set<Demand>, back: bool) {
    && gate <= GateUniverse(env.db)
    && forall x, p ::
         x in Universe(env.db) && (x.0, KeyIn(env.db, x.0, x.1, p)) in gate ==> Covered(env, a, known, x, back)
  }

  ghost predicate SearchOk(env: Env, a: Aggregate, gates: Gates, tr: Trace) {
    && TraceSound(env, a, tr)
    && TraceCovered(env, a, tr)
    && GateOk(env, a, gates.fwd, tr.known, false)
    && GateOk(env, a, gates.bwd, tr.known, true)
  }

  ghost function Demands(pending: Pending): set<Demand> {
    set e, v | e in pending && v in pending[e] :: (e.0, e.1, e.2, KeyOf(v))
  }

  ghost function EntryDemands(e: Entry, values: seq<Value>): set<Demand> {
    set v | v in values :: (e.0, e.1, e.2, KeyOf(v))
  }

  ghost function VecDemands(rels: seq<Relation>, back: bool, vecs: seq<seq<Value>>): set<Demand>
    requires |rels| == |vecs|
  {
    set i, v | 0 <= i < |vecs| && v in vecs[i] :: (Target(rels[i], back), TargetColumn(rels[i], back), back, KeyOf(v))
  }

  // ------------------------------------------------------------------
  // Relation filters
  // ------------------------------------------------------------------

  /** `get_forward_relations` / `get_backward_relations`. */
  function RelationsOf(rels: seq<Relation>, t: string, back: bool, tables: set<string>,
                       exclude: set<string>): (r: seq<Relation>)
    ensures forall rel :: rel in r <==>
              rel in rels && Source(rel, back) == t && rel.fromTable in tables && rel.toTable in tables
              && Target(rel, back) !in exclude
  {
    if rels == [] then []
    else
      var rel, rest := rels[0], RelationsOf(rels[1..], t, back, tables, exclude);
      if Source(rel, back) == t && rel.fromTable in tables && rel.toTable in tables && Target(rel, back) !in exclude
      then [rel] + rest else rest
  }

  ghost predicate RelationsOk(env: Env, a: Aggregate, t: string, back: bool, rels: seq<Relation>) {
    forall rel :: rel in rels <==> Usable(env, a, rel, back) && Source(rel, back) == t
  }

  // ------------------------------------------------------------------
  // Extraction
  // ------------------------------------------------------------------

  /** The row's foreign-key value in a column: none when the column is absent or NULL. */
  function FkValues(db: Database, x: Item, p: Protocol, column: string): seq<Value> {
    match Cell(SchemaOf(db, x.0), x.1, column)
    case Some(c) => if Image(c, p) == Null then [] else [Image(c, p)]
    case None => []
  }

  method Extract(db: Database, x: Item, p: Protocol, rels: seq<Relation>, back: bool, vecs: seq<seq<Value>>)
    returns (vecs': seq<seq<Value>>)
    requires |rels| == |vecs|
    ensures Extracted(db, x, p, rels, back, vecs, vecs')
  {
    vecs' := vecs;
    for i := 0 to |rels|
      invariant |vecs'| == |vecs|
      invariant forall k :: 0 <= k < i ==> vecs'[k] == vecs[k] + FkValues(db, x, p, SourceColumn(rels[k], back))
      invariant forall k :: i <= k < |vecs| ==> vecs'[k] == vecs[k]
    {
      vecs' := vecs'[i := vecs'[i] + FkValues(db, x, p, SourceColumn(rels[i], back))];
    }
  }

  /** A row has a value in a column exactly when extraction yields one, under one of its keys. */
  lemma FkValuesKeys(env: Env, x: Item, p: Protocol, column: string)
    ensures forall v :: v in FkValues(env.db, x, p, column) ==> HasKey(env, x, column, KeyOf(v))
    ensures (exists k :: HasKey(env, x, column, k)) ==> |FkValues(env.db, x, p, column)| == 1
  {
    hide KeyOf, Decimal;
  }

  ghost predicate Extracted(db: Database, x: Item, p: Protocol, rels: seq<Relation>, back: bool,
                            vecs: seq<seq<Value>>, vecs': seq<seq<Value>>)
  {
    && |rels| == |vecs| == |vecs'|
    && forall i :: 0 <= i < |vecs| ==> vecs'[i] == vecs[i] + FkValues(db, x, p, SourceColumn(rels[i], back))
  }

  /** Extraction only adds lookups the row calls for. */
  lemma ExtractCalled(env: Env, a: Aggregate, x: Item, p: Protocol, rels: seq<Relation>, back: bool,
                      vecs: seq<seq<Value>>, vecs': seq<seq<Value>>)
    requires RelationsOk(env, a, x.0, back, rels) && Extracted(env.db, x, p, rels, back, vecs, vecs')
    ensures VecDemands(rels, back, vecs) <= VecDemands(rels, back, vecs')
    ensures forall d :: d in VecDemands(rels, back, vecs') && d !in VecDemands(rels, back, vecs)
                        ==> CalledFor(env, a, {x}, d) && d.2 == back
  {
    hide KeyOf, Usable, HasKey, FkValues;
    var before, after := VecDemands(rels, back, vecs), VecDemands(rels, back, vecs');
    forall d | d in after && d !in before ensures CalledFor(env, a, {x}, d) && d.2 == back {
      var i, v :| 0 <= i < |vecs'| && v in vecs'[i]
          && d == (Target(rels[i], back), TargetColumn(rels[i], back), back, KeyOf(v));
      FkValuesKeys(env, x, p, SourceColumn(rels[i], back));
      assert rels[i] in rels;
      assert CallsFor(env, a, rels[i], x, d);
    }
  }

  /** Extraction misses no lookup the row calls for. */
  lemma ExtractCovers(env: Env, a: Aggregate, x: Item, p: Protocol, rels: seq<Relation>, back: bool,
                      vecs: seq<seq<Value>>, vecs': seq<seq<Value>>, known: set<Demand>)
    requires RelationsOk(env, a, x.0, back, rels) && Extracted(env.db, x, p, rels, back, vecs, vecs')
    requires VecDemands(rels, back, vecs') <= known
    ensures Covered(env, a, known, x, back)
  {
    hide KeyOf, Usable, HasKey, FkValues;
    forall rel, k | Usable(env, a, rel, back) && x.0 == Source(rel, back) && HasKey(env, x, SourceColumn(rel, back), k)
      ensures Asked(env, known, rel, back, x)
    {
      assert rel in rels;
      var i :| 0 <= i < |rels| && rels[i] == rel;
      FkValuesKeys(env, x, p, SourceColumn(rel, back));
      var v := FkValues(env.db, x, p, SourceColumn(rel, back))[0];
      assert v in vecs'[i];
      assert (Target(rel, back), TargetColumn(rel, back), back, KeyOf(v)) in VecDemands(rels, back, vecs');
    }
  }

  // ------------------------------------------------------------------
  // One row
  // ------------------------------------------------------------------

  lemma KnownGrows(env: Env, a: Aggregate, gate: set<KeyItem>, known: set<Demand>, known': set<Demand>, back: bool)
    requires GateOk(env, a, gate, known, back) && known <= known'
    ensures GateOk(env, a, gate, known', back)
  {
    hide Usable, HasKey, KeyIn;
    forall x | Covered(env, a, known, x, back) ensures Covered(env, a, known', x, back) {
      CoveredGrows(env, a, known, known', x, back);
    }
  }

  lemma CoveredGrows(env: Env, a: Aggregate, known: set<Demand>, known': set<Demand>, x: Item, back: bool)
    requires Covered(env, a, known, x, back) && known <= known'
    ensures Covered(env, a, known', x, back)
  {
    hide Usable, HasKey;
    forall rel, k | Usable(env, a, rel, back) && x.0 == Source(rel, back) && HasKey(env, x, SourceColumn(rel, back), k)
      ensures Asked(env, known', rel, back, x)
    {
      assert Asked(env, known, rel, back, x);
    }
  }

  lemma GateCloses(env: Env, a: Aggregate, gate: set<KeyItem>, known: set<Demand>, x: Item, p: Protocol, back: bool)
    requires KeysIdentify(env.db) && x in Universe(env.db)
    requires GateOk(env, a, gate, known, back) && Covered(env, a, known, x, back)
    ensures GateOk(env, a, gate + {(x.0, KeyIn(env.db, x.0, x.1, p))}, known, back)
  {
    hide Covered, KeyIn;
    var k := (x.0, KeyIn(env.db, x.0, x.1, p));
    assert k in GateUniverse(env.db) by { assert p == Text || p == Binary; }
    forall y, q | y in Universe(env.db) && (y.0, KeyIn(env.db, y.0, y.1, q)) == k ensures y == x {
      assert x.1 in RowsOf(env.db, x.0) && y.1 in RowsOf(env.db, x.0);
    }
  }

  /** Passes a row through one gate: the first time, its values are extracted. */
  method Expand(env: Env, ghost a: Aggregate, x: Item, p: Protocol, rels: seq<Relation>, back: bool,
                gate: set<KeyItem>, vecs: seq<seq<Value>>, ghost known: set<Demand>)
    returns (gate': set<KeyItem>, vecs': seq<seq<Value>>, ghost known': set<Demand>)
    requires KeysIdentify(env.db) && x in Universe(env.db)
    requires RelationsOk(env, a, x.0, back, rels) && |rels| == |vecs|
    requires GateOk(env, a, gate, known, back) && VecDemands(rels, back, vecs) <= known
    ensures |vecs'| == |rels| && VecDemands(rels, back, vecs) <= VecDemands(rels, back, vecs')
    ensures known' == known + VecDemands(rels, back, vecs')
    ensures GateOk(env, a, gate', known', back) && Covered(env, a, known', x, back)
    ensures forall d :: d in known' && d !in known ==> CalledFor(env, a, {x}, d) && d.2 == back
    ensures gate <= gate' && (gate' == gate ==> vecs' == vecs)
  {
    hide Usable, HasKey, KeyIn, VecDemands, CalledFor, Covered, GateOk, Extracted, KeyOf;
    gate', vecs', known' := gate, vecs, known;
    var k := (x.0, KeyIn(env.db, x.0, x.1, p));
    if rels != [] && k !in gate {
      vecs' := Extract(env.db, x, p, rels, back, vecs);
      gate' := gate + {k};
      ExtractCalled(env, a, x, p, rels, back, vecs, vecs');
      known' := known + VecDemands(rels, back, vecs');
      ExtractCovers(env, a, x, p, rels, back, vecs, vecs', known');
      KnownGrows(env, a, gate, known, known', back);
      GateCloses(env, a, gate, known', x, p, back);
    } else {
      PassedGate(env, a, x, p, rels, back, gate, known);
    }
  }

  lemma PassedGate(env: Env, a: Aggregate, x: Item, p: Protocol, rels: seq<Relation>, back: bool,
                   gate: set<KeyItem>, known: set<Demand>)
    requires x in Universe(env.db) && RelationsOk(env, a, x.0, back, rels) && GateOk(env, a, gate, known, back)
    requires rels == [] || (x.0, KeyIn(env.db, x.0, x.1, p)) in gate
    ensures Covered(env, a, known, x, back)
  {
    hide Usable, HasKey, KeyIn;
    if rels == [] {
      assert forall rel :: Usable(env, a, rel, back) && Source(rel, back) == x.0 ==> rel in rels;
    }
  }

  /** Every closed pair must contain the row. */
  ghost predicate Forced(env: Env, a: Aggregate, x: Item, wide: bool) {
    forall r, w :: Closed(env, a, r, w) ==> x in r && (wide ==> x in w)
  }

  ghost function Reach(tr: Trace, x: Item, wide: bool, known: set<Demand>): Trace {
    Trace(tr.reached + {x}, if wide then tr.wide + {x} else tr.wide, known, tr.done)
  }

  lemma ReachSound(env: Env, a: Aggregate, gates: Gates, tr: Trace, x: Item, wide: bool, known: set<Demand>)
    requires TraceSound(env, a, tr) && TraceCovered(env, a, tr) && tr.known <= known
    requires x in Universe(env.db) && Forced(env, a, x, wide)
    requires Covered(env, a, known, x, false) && (wide ==> Covered(env, a, known, x, true))
    requires forall d :: d in known && d !in tr.known ==> CalledFor(env, a, {x}, d) && (d.2 ==> wide)
    ensures TraceSound(env, a, Reach(tr, x, wide, known)) && TraceCovered(env, a, Reach(tr, x, wide, known))
  {
    hide Covered, CallsFor;
    var tr' := Reach(tr, x, wide, known);
    forall d | d in known ensures Called(env, a, tr'.reached, tr'.wide, d) {
      var rows := if d in tr.known then (if d.2 then tr.wide else tr.reached) else {x};
      var rel, y :| CallsFor(env, a, rel, y, d) && y in rows;
      assert y in if d.2 then tr'.wide else tr'.reached;
    }
    forall d | d in tr.done ensures Satisfied(env, a, tr', d) { assert Satisfied(env, a, tr, d); }
    forall y | y in tr'.reached ensures Covered(env, a, known, y, false) {
      if y in tr.reached { CoveredGrows(env, a, tr.known, known, y, false); }
    }
    forall y | y in tr'.wide ensures Covered(env, a, known, y, true) {
      if y in tr.wide { CoveredGrows(env, a, tr.known, known, y, true); }
    }
  }

  // ------------------------------------------------------------------
  // One result set
  // ------------------------------------------------------------------

  /** The mutable state while one result set is read. */
  datatype Scan = Scan(s: Sender, w: Writer, gates: Gates, fv: seq<seq<Value>>, bv: seq<seq<Value>>)

  ghost predicate ScanOk(env: Env, a: Aggregate, rf: seq<Relation>, rb: seq<Relation>, sc: Scan, tr: Trace,
                         seen: Seen) {
    && SearchOk(env, a, sc.gates, tr)
    && EmissionOk(env.db, sc.s, sc.w, seen)
    && |rf| == |sc.fv| && |rb| == |sc.bv|
    && VecDemands(rf, false, sc.fv) <= tr.known && VecDemands(rb, true, sc.bv) <= tr.known
  }

  /** What reading more rows preserves, and what it may add. */
  ghost predicate ScanGrows(rf: seq<Relation>, rb: seq<Relation>, sc: Scan, tr: Trace, sc': Scan, tr': Trace)
  {
    && |rf| == |sc.fv| == |sc'.fv| && |rb| == |sc.bv| == |sc'.bv|
    && sc'.w.table == sc.w.table
    && sc.s.counts.Keys <= sc'.s.counts.Keys && Zeroes(sc'.s) <= Zeroes(sc.s)
    && sc.gates.fwd <= sc'.gates.fwd && sc.gates.bwd <= sc'.gates.bwd
    && (sc'.gates == sc.gates ==> sc'.fv == sc.fv && sc'.bv == sc.bv)
    && VecDemands(rf, false, sc.fv) <= VecDemands(rf, false, sc'.fv)
    && VecDemands(rb, true, sc.bv) <= VecDemands(rb, true, sc'.bv)
    && tr'.known == tr.known + VecDemands(rf, false, sc'.fv) + VecDemands(rb, true, sc'.bv)
    && tr'.done == tr.done && tr.reached <= tr'.reached && tr.wide <= tr'.wide
  }

  /** One row of a result set: expanded through the gates, then emitted if new. */
  method VisitRow(env: Env, ghost a: Aggregate, row: Row, p: Protocol, wide: bool, rf: seq<Relation>, rb: seq<Relation>,
                  sc: Scan, ghost tr: Trace, ghost seen: Seen)
    returns (sc': Scan, ghost tr': Trace)
    requires KeysIdentify(env.db) && row in RowsOf(env.db, sc.w.table) && Forced(env, a, (sc.w.table, row), wide)
    requires RelationsOk(env, a, sc.w.table, false, rf) && (wide ==> RelationsOk(env, a, sc.w.table, true, rb))
    requires ScanOk(env, a, rf, rb, sc, tr, seen)
    ensures ScanOk(env, a, rf, rb, sc', tr', Add(seen, (sc.w.table, row), p)) && ScanGrows(rf, rb, sc, tr, sc', tr')
    ensures tr' == Reach(tr, (sc.w.table, row), wide, tr'.known)
  {
    hide Usable, HasKey, KeyIn, VecDemands, CalledFor, Covered, GateOk, TraceSound, TraceCovered, EmissionOk, Forced,
         RelationsOk, Add, Zeroes;
    var x := (sc.w.table, row);
    var fwd, fv, known1 := Expand(env, a, x, p, rf, false, sc.gates.fwd, sc.fv, tr.known);
    var bwd, bv := sc.gates.bwd, sc.bv;
    ghost var known2 := known1;
    KnownGrows(env, a, bwd, tr.known, known1, true);
    if wide {
      bwd, bv, known2 := Expand(env, a, x, p, rb, true, bwd, bv, known1);
      KnownGrows(env, a, fwd, known1, known2, false);
      CoveredGrows(env, a, known1, known2, x, false);
    }
    ReachSound(env, a, sc.gates, tr, x, wide, known2);
    var s, w := EmitRow(env.db, sc.s, sc.w, row, p, seen);
    sc' := Scan(s, w, Gates(fwd, bwd), fv, bv);
    tr' := Reach(tr, x, wide, known2);
  }

  ghost function AddAll(seen: Seen, t: string, rows: set<Row>, p: Protocol): Seen {
    var items := set r | r in rows :: (t, r);
    if p == Text then seen.(roots := seen.roots + items) else seen.(edges := seen.edges + items)
  }

  lemma ScanGrowsTrans(rf: seq<Relation>, rb: seq<Relation>, a: Scan, ta: Trace, b: Scan, tb: Trace, c: Scan, tc: Trace)
    requires ScanGrows(rf, rb, a, ta, b, tb) && ScanGrows(rf, rb, b, tb, c, tc)
    ensures ScanGrows(rf, rb, a, ta, c, tc)
  {
    hide VecDemands, Zeroes;
    if c.gates == a.gates { assert b.gates == a.gates; }
  }

  /** Reads a result set in whatever order the server returns it. */
  method ReadRows(env: Env, ghost a: Aggregate, rows: set<Row>, p: Protocol, wide: bool, rf: seq<Relation>,
                  rb: seq<Relation>, sc: Scan, ghost tr: Trace, ghost seen: Seen)
    returns (sc': Scan, ghost tr': Trace)
    requires KeysIdentify(env.db) && rows <= RowsOf(env.db, sc.w.table)
    requires forall r :: r in rows ==> Forced(env, a, (sc.w.table, r), wide)
    requires RelationsOk(env, a, sc.w.table, false, rf) && (wide ==> RelationsOk(env, a, sc.w.table, true, rb))
    requires ScanOk(env, a, rf, rb, sc, tr, seen)
    ensures ScanOk(env, a, rf, rb, sc', tr', AddAll(seen, sc.w.table, rows, p))
    ensures ScanGrows(rf, rb, sc, tr, sc', tr')
    ensures forall r :: r in rows ==> (sc.w.table, r) in tr'.reached && (wide ==> (sc.w.table, r) in tr'.wide)
  {
    hide Usable, KeyIn, VecDemands, SearchOk, EmissionOk, Forced, RelationsOk, Zeroes;
    sc', tr' := sc, tr;
    var rest := rows;
    assert AddAll(seen, sc.w.table, {}, p) == seen && rows - rest == {};
    ScanSelf(rf, rb, sc, tr);
    while rest != {}
      invariant rest <= rows
      invariant ScanOk(env, a, rf, rb, sc', tr', AddAll(seen, sc.w.table, rows - rest, p))
      invariant ScanGrows(rf, rb, sc, tr, sc', tr')
      invariant forall r ::
                r in rows - rest ==> (sc.w.table, r) in tr'.reached && (wide ==> (sc.w.table, r) in tr'.wide)
    {
      var row :| row in rest;
      ghost var before, trBefore := sc', tr';
      AddAllOne(seen, sc.w.table, rows - rest, row, p);
      sc', tr' := VisitRow(env, a, row, p, wide, rf, rb, sc', tr', AddAll(seen, sc.w.table, rows - rest, p));
      ScanGrowsTrans(rf, rb, sc, tr, before, trBefore, sc', tr');
      assert rows - (rest - {row}) == (rows - rest) + {row};
      rest := rest - {row};
    }
    assert rows - rest == rows;
  }

  lemma ScanSelf(rf: seq<Relation>, rb: seq<Relation>, sc: Scan, tr: Trace)
    requires |rf| == |sc.fv| && |rb| == |sc.bv|
    requires VecDemands(rf, false, sc.fv) <= tr.known && VecDemands(rb, true, sc.bv) <= tr.known
    ensures ScanGrows(rf, rb, sc, tr, sc, tr)
  {
    hide VecDemands;
  }

  lemma AddAllOne(seen: Seen, t: string, rows: set<Row>, row: Row, p: Protocol)
    ensures Add(AddAll(seen, t, rows, p), (t, row), p) == AddAll(seen, t, rows + {row}, p)
  {
    assert (set r | r in rows + {row} :: (t, r)) == (set r | r in rows :: (t, r)) + {(t, row)};
  }

  // ------------------------------------------------------------------
  // Batches of values
  // ------------------------------------------------------------------

  /** Adds the values of each relation to the next level, coalesced by (table, column,
      direction). */
  method Coalesce(pending: Pending, rels: seq<Relation>, back: bool, vecs: seq<seq<Value>>) returns (pending': Pending)
    requires |rels| == |vecs| && NoEmptyEntry(pending)
    ensures Demands(pending') == Demands(pending) + VecDemands(rels, back, vecs) && NoEmptyEntry(pending')
    ensures (forall i :: 0 <= i < |vecs| ==> vecs[i] == []) ==> pending' == pending
  {
    pending' := pending;
    VecsUpTo(rels, back, vecs, 0);
    for i := 0 to |rels|
      invariant Demands(pending') == Demands(pending) + VecDemands(rels[..i], back, vecs[..i]) && NoEmptyEntry(pending')
      invariant (forall k :: 0 <= k < |vecs| ==> vecs[k] == []) ==> pending' == pending
    {
      hide KeyOf, Demands, VecDemands, EntryDemands, NoEmptyEntry, Target, TargetColumn;
      VecsUpTo(rels, back, vecs, i);
      pending' := Enqueue(pending', (Target(rels[i], back), TargetColumn(rels[i], back), back), vecs[i]);
    }
    assert rels[..|rels|] == rels && vecs[..|rels|] == vecs;
  }

  /** One relation's values, each once, are queued after those already there. */
  method Enqueue(pending: Pending, e: Entry, values: seq<Value>) returns (pending': Pending)
    requires NoEmptyEntry(pending)
    ensures Demands(pending') == Demands(pending) + EntryDemands(e, values) && NoEmptyEntry(pending')
    ensures values == [] ==> pending' == pending
  {
    hide KeyOf, Demands, EntryDemands;
    pending' := pending;
    var unique := DedupeValues(values);
    SameKeysSameDemands(e, unique, values);
    if unique != [] {
      var queued := if e in pending then pending[e] else [];
      MergeEntry(pending, e, unique);
      pending' := pending[e := queued + unique];
    } else {
      NoDemands(e);
    }
  }

  lemma NoDemands(e: Entry)
    ensures EntryDemands(e, []) == {}
  {
  }

  ghost predicate NoEmptyEntry(pending: Pending) { forall e :: e in pending ==> pending[e] != [] }

  lemma VecsUpTo(rels: seq<Relation>, back: bool, vecs: seq<seq<Value>>, i: nat)
    requires |rels| == |vecs| && i <= |rels|
    ensures i == 0 ==> VecDemands(rels[..i], back, vecs[..i]) == {}
    ensures i < |rels| ==> VecDemands(rels[..i + 1], back, vecs[..i + 1]) ==
                           VecDemands(rels[..i], back, vecs[..i]) +
                           EntryDemands((Target(rels[i], back), TargetColumn(rels[i], back), back), vecs[i])
  {
    hide KeyOf;
    if i < |rels| {
      var more := VecDemands(rels[..i + 1], back, vecs[..i + 1]);
      var less := VecDemands(rels[..i], back, vecs[..i]);
      var e := (Target(rels[i], back), TargetColumn(rels[i], back), back);
      forall d | d in less ensures d in more {
        var k, v :| 0 <= k < i && v in vecs[..i][k]
            && d == (Target(rels[..i][k], back), TargetColumn(rels[..i][k], back), back, KeyOf(v));
        assert v in vecs[..i + 1][k] && rels[..i + 1][k] == rels[k];
      }
      forall d | d in EntryDemands(e, vecs[i]) ensures d in more {
        var v :| v in vecs[i] && d == (e.0, e.1, e.2, KeyOf(v));
        assert v in vecs[..i + 1][i] && rels[..i + 1][i] == rels[i];
      }
      forall d | d in more ensures d in less || d in EntryDemands(e, vecs[i]) {
        var k, v :| 0 <= k < i + 1 && v in vecs[..i + 1][k]
            && d == (Target(rels[..i + 1][k], back), TargetColumn(rels[..i + 1][k], back), back, KeyOf(v));
        if k < i { assert v in vecs[..i][k] && rels[..i][k] == rels[k]; }
      }
    }
  }

  lemma SameKeysSameDemands(e: Entry, a: seq<Value>, b: seq<Value>)
    requires Keys(a) == Keys(b)
    ensures EntryDemands(e, a) == EntryDemands(e, b)
    ensures a == [] <==> b == []
  {
    hide KeyOf;
    assert forall d :: d in EntryDemands(e, a) <==> d.0 == e.0 && d.1 == e.1 && d.2 == e.2 && d.3 in Keys(a);
    assert forall d :: d in EntryDemands(e, b) <==> d.0 == e.0 && d.1 == e.1 && d.2 == e.2 && d.3 in Keys(b);
    if a != [] { assert KeyOf(a[0]) in Keys(a); }
    if b != [] { assert KeyOf(b[0]) in Keys(b); }
  }

  lemma MergeEntry(pending: Pending, e: Entry, values: seq<Value>)
    ensures var before := if e in pending then pending[e] else [];
            Demands(pending[e := before + values]) == Demands(pending) + EntryDemands(e, values)
  {
    hide KeyOf;
    var before := if e in pending then pending[e] else [];
    var after := pending[e := before + values];
    forall d | d in Demands(pending) + EntryDemands(e, values) ensures d in Demands(after) {
      if d in Demands(pending) {
        var f, v :| f in pending && v in pending[f] && d == (f.0, f.1, f.2, KeyOf(v));
        assert v in after[f];
      } else {
        var v :| v in values && d == (e.0, e.1, e.2, KeyOf(v));
        assert v in after[e];
      }
    }
  }

  /** The rows answering some lookup of an entry. */
  lemma SelectAnswers(env: Env, e: Entry, values: seq<Value>, r: Row)
    ensures r in SelectIn(env.db, e.0, e.1, values)
            <==> exists d :: d in EntryDemands(e, values) && Answers(env, d, (e.0, r))
  {
    hide KeyOf;
    if r in SelectIn(env.db, e.0, e.1, values) {
      var i :| 0 <= i < |values| && env.db.matches(e.0, e.1, KeyOf(values[i]), r);
      assert values[i] in values;
      assert (e.0, e.1, e.2, KeyOf(values[i])) in EntryDemands(e, values);
      assert Answers(env, (e.0, e.1, e.2, KeyOf(values[i])), (e.0, r));
    }
    if d :| d in EntryDemands(e, values) && Answers(env, d, (e.0, r)) {
      var v :| v in values && d == (e.0, e.1, e.2, KeyOf(v));
      var i :| 0 <= i < |values| && values[i] == v;
    }
  }

  lemma ForcedAnswer(env: Env, a: Aggregate, tr: Trace, d: Demand, x: Item)
    requires TraceSound(env, a, tr) && d in tr.known && Enters(env, a, d.0) && Answers(env, d, x)
    ensures Forced(env, a, x, d.2)
  {
    hide Usable, HasKey, Enters;
    var rel, y :| CallsFor(env, a, rel, y, d) && y in if d.2 then tr.wide else tr.reached;
    assert Joins(env, rel, d.2, y, x);
    forall r, w | Closed(env, a, r, w) ensures x in r && (d.2 ==> x in w) {}
  }

  lemma SelectSplit(db: Database, t: string, column: string, a: seq<Value>, b: seq<Value>)
    ensures SelectIn(db, t, column, a + b) == SelectIn(db, t, column, a) + SelectIn(db, t, column, b)
  {
    hide KeyOf;
    forall r | r in SelectIn(db, t, column, b) ensures r in SelectIn(db, t, column, a + b) {
      var i :| 0 <= i < |b| && db.matches(t, column, KeyOf(b[i]), r);
      assert (a + b)[|a| + i] == b[i];
    }
    forall r | r in SelectIn(db, t, column, a) ensures r in SelectIn(db, t, column, a + b) {
      var i :| 0 <= i < |a| && db.matches(t, column, KeyOf(a[i]), r);
      assert (a + b)[i] == a[i];
    }
  }

  lemma AddAllTwice(seen: Seen, t: string, a: set<Row>, b: set<Row>, p: Protocol)
    ensures AddAll(AddAll(seen, t, a, p), t, b, p) == AddAll(seen, t, a + b, p)
  {
    assert (set r | r in a + b :: (t, r)) == (set r | r in a :: (t, r)) + (set r | r in b :: (t, r));
  }

  /** Runs the entry's lookups in batches of at most `MAX_IN_VALUES` values. */
  method FetchBatches(env: Env, ghost a: Aggregate, e: Entry, unique: seq<Value>, rf: seq<Relation>, rb: seq<Relation>,
                      sc: Scan, ghost tr: Trace, ghost seen: Seen)
    returns (sc': Scan, ghost tr': Trace)
    requires KeysIdentify(env.db) && sc.w.table == e.0 && Enters(env, a, e.0)
    requires EntryDemands(e, unique) <= tr.known
    requires RelationsOk(env, a, e.0, false, rf) && (e.2 ==> RelationsOk(env, a, e.0, true, rb))
    requires ScanOk(env, a, rf, rb, sc, tr, seen)
    ensures ScanOk(env, a, rf, rb, sc', tr', AddAll(seen, e.0, SelectIn(env.db, e.0, e.1, unique), Binary))
    ensures ScanGrows(rf, rb, sc, tr, sc', tr')
    ensures forall r ::
            r in SelectIn(env.db, e.0, e.1, unique) ==> (e.0, r) in tr'.reached && (e.2 ==> (e.0, r) in tr'.wide)
  {
    hide Usable, KeyIn, SearchOk, VecDemands, EmissionOk, ScanGrows, Forced, RelationsOk, Enters, EntryDemands,
         SelectIn, AddAll, Zeroes;
    sc', tr' := sc, tr;
    var pos := 0;
    ScanSelf(rf, rb, sc, tr);
    SelectNothing(env.db, e, seen);
    while pos < |unique|
      invariant 0 <= pos <= |unique|
      invariant ScanOk(env, a, rf, rb, sc', tr', AddAll(seen, e.0, SelectIn(env.db, e.0, e.1, unique[..pos]), Binary))
      invariant ScanGrows(rf, rb, sc, tr, sc', tr')
      invariant forall r :: r in SelectIn(env.db, e.0, e.1, unique[..pos])
                            ==> (e.0, r) in tr'.reached && (e.2 ==> (e.0, r) in tr'.wide)
    {
      var end := if |unique| - pos <= MAX_IN_VALUES then |unique| else pos + MAX_IN_VALUES;
      var batch := unique[pos..end];
      ghost var before, trBefore := sc', tr';
      ghost var first := SelectIn(env.db, e.0, e.1, unique[..pos]);
      var rows := SelectIn(env.db, e.0, e.1, batch);
      ScanGrowsFacts(rf, rb, sc, tr, sc', tr');
      BatchForced(env, a, sc'.gates, tr', e, unique, pos, end);
      sc', tr' := ReadRows(env, a, rows, Binary, e.2, rf, rb, sc', tr', AddAll(seen, e.0, first, Binary));
      ScanGrowsFacts(rf, rb, before, trBefore, sc', tr');
      ScanGrowsTrans(rf, rb, sc, tr, before, trBefore, sc', tr');
      AddAllTwice(seen, e.0, first, rows, Binary);
      SelectSplit(env.db, e.0, e.1, unique[..pos], batch);
      assert unique[..pos] + batch == unique[..end];
      pos := end;
    }
    assert unique[..pos] == unique;
  }

  lemma SelectNothing(db: Database, e: Entry, seen: Seen)
    ensures SelectIn(db, e.0, e.1, []) == {}
    ensures AddAll(seen, e.0, {}, Binary) == seen
  {
  }

  lemma ScanGrowsFacts(rf: seq<Relation>, rb: seq<Relation>, sc: Scan, tr: Trace, sc': Scan, tr': Trace)
    requires ScanGrows(rf, rb, sc, tr, sc', tr')
    ensures sc'.w.table == sc.w.table && tr.known <= tr'.known && tr.reached <= tr'.reached && tr.wide <= tr'.wide
  {
    hide VecDemands;
  }

  lemma BatchForced(env: Env, a: Aggregate, gates: Gates, tr: Trace, e: Entry, unique: seq<Value>, lo: nat, hi: nat)
    requires lo <= hi <= |unique| && SearchOk(env, a, gates, tr) && EntryDemands(e, unique) <= tr.known
             && Enters(env, a, e.0)
    ensures var rows := SelectIn(env.db, e.0, e.1, unique[lo..hi]);
            rows <= RowsOf(env.db, e.0) && forall r :: r in rows ==> Forced(env, a, (e.0, r), e.2)
  {
    hide KeyOf, TraceSound, TraceCovered, GateOk, Forced, Enters;
    var batch := unique[lo..hi];
    forall r | r in SelectIn(env.db, e.0, e.1, batch) ensures Forced(env, a, (e.0, r), e.2) {
      SelectAnswers(env, e, batch, r);
      var d :| d in EntryDemands(e, batch) && Answers(env, d, (e.0, r));
      assert d in EntryDemands(e, unique);
      ForcedAnswer(env, a, tr, d, (e.0, r));
    }
  }

  // ------------------------------------------------------------------
  // One pending entry
  // ------------------------------------------------------------------

  /** The mutable state between result sets. */
  datatype Search = Search(s: Sender, gates: Gates, pending: Pending, touched: set<string>)

  /** Rows, touched tables and row counts recorded before this aggregate's lookups. */
  datatype Start = Start(edges: set<Item>, touched: set<string>, queried: set<string>)

  ghost function FetchedBy(env: Env, a: Aggregate, done: set<Demand>): set<Item> {
    set x | x in Universe(env.db) && exists d :: d in done && Enters(env, a, d.0) && Answers(env, d, x)
  }

  ghost function TouchedBy(env: Env, a: Aggregate, done: set<Demand>): set<string> {
    set d | d in done && Touchable(env, a, d.0) :: d.0
  }

  ghost function QueriedBy(env: Env, a: Aggregate, done: set<Demand>): set<string> {
    set d | d in done && Enters(env, a, d.0) :: d.0
  }

  /** The bookkeeping after the lookups `done`: what was met, touched and counted. */
  ghost predicate Tally(env: Env, a: Aggregate, st: Start, se: Search, seen: Seen, done: set<Demand>) {
    && seen.edges == st.edges + FetchedBy(env, a, done)
    && se.touched == st.touched + TouchedBy(env, a, done)
    && st.queried + QueriedBy(env, a, done) <= se.s.counts.Keys
    && Zeroes(se.s) <= st.queried + QueriedBy(env, a, done)
  }

  ghost predicate SearchInv(env: Env, a: Aggregate, st: Start, se: Search, tr: Trace, seen: Seen, rest: set<Demand>) {
    && SearchOk(env, a, se.gates, tr)
    && EmissionOk(env.db, se.s, NO_WRITER, seen)
    && NoEmptyEntry(se.pending)
    && tr.known == tr.done + Demands(se.pending) + rest
    && Tally(env, a, st, se, seen, tr.done)
  }

  ghost function Finish(tr: Trace, more: set<Demand>): Trace { tr.(done := tr.done + more) }

  /** Lookups into tables the aggregate does not enter are dropped. */
  lemma DropEntry(env: Env, a: Aggregate, gates: Gates, tr: Trace, e: Entry, values: seq<Value>)
    requires SearchOk(env, a, gates, tr) && !Enters(env, a, e.0)
    ensures SearchOk(env, a, gates, Finish(tr, EntryDemands(e, values)))
    ensures FetchedBy(env, a, tr.done + EntryDemands(e, values)) == FetchedBy(env, a, tr.done)
    ensures QueriedBy(env, a, tr.done + EntryDemands(e, values)) == QueriedBy(env, a, tr.done)
  {
    hide KeyOf, Enters, GateOk, Covered, Called, Closed;
    var tr' := Finish(tr, EntryDemands(e, values));
    forall d | d in tr'.done ensures Satisfied(env, a, tr', d) {
      if d in tr.done { assert Satisfied(env, a, tr, d); }
    }
  }

  lemma TouchEntry(env: Env, a: Aggregate, done: set<Demand>, e: Entry, values: seq<Value>)
    requires values != []
    ensures TouchedBy(env, a, done + EntryDemands(e, values)) ==
            TouchedBy(env, a, done) + if Touchable(env, a, e.0) then {e.0} else {}
    ensures QueriedBy(env, a, done + EntryDemands(e, values)) ==
            QueriedBy(env, a, done) + if Enters(env, a, e.0) then {e.0} else {}
  {
    hide KeyOf, Enters, Touchable;
    assert (e.0, e.1, e.2, KeyOf(values[0])) in EntryDemands(e, values);
  }

  /** Once an entry's rows are all reached, its lookups are done. */
  lemma FinishEntry(env: Env, a: Aggregate, gates: Gates, tr: Trace, e: Entry, values: seq<Value>)
    requires SearchOk(env, a, gates, tr)
    requires forall r ::
             r in SelectIn(env.db, e.0, e.1, values) ==> (e.0, r) in tr.reached && (e.2 ==> (e.0, r) in tr.wide)
    ensures SearchOk(env, a, gates, Finish(tr, EntryDemands(e, values)))
  {
    hide KeyOf, Enters, GateOk, Covered, Called, Closed, SelectIn;
    var tr' := Finish(tr, EntryDemands(e, values));
    forall d | d in tr'.done ensures Satisfied(env, a, tr', d) {
      if d in tr.done {
        assert Satisfied(env, a, tr, d);
      } else {
        forall x | Answers(env, d, x) ensures x in tr.reached && (d.2 ==> x in tr.wide) {
          SelectAnswers(env, e, values, x.1);
        }
      }
    }
  }

  lemma EntryFetched(env: Env, a: Aggregate, done: set<Demand>, e: Entry, values: seq<Value>)
    requires Enters(env, a, e.0)
    ensures FetchedBy(env, a, done + EntryDemands(e, values)) ==
            FetchedBy(env, a, done) + set r | r in SelectIn(env.db, e.0, e.1, values) :: (e.0, r)
  {
    hide KeyOf, Enters, SelectIn, EntryDemands;
    var items := set r | r in SelectIn(env.db, e.0, e.1, values) :: (e.0, r);
    forall x
      ensures x in FetchedBy(env, a, done + EntryDemands(e, values)) <==> x in FetchedBy(env, a, done) || x in items
    {
      SelectAnswers(env, e, values, x.1);
      EntryTable(e, values);
      if x in items {
        var d :| d in EntryDemands(e, values) && Answers(env, d, (e.0, x.1));
        assert d in done + EntryDemands(e, values) && Answers(env, d, x);
      }
      if d :| d in EntryDemands(e, values) && Answers(env, d, x) {
        assert x == (e.0, x.1);
      }
      if d :| d in done && Enters(env, a, d.0) && Answers(env, d, x) {
        assert d in done + EntryDemands(e, values);
      }
    }
  }

  lemma EntryTable(e: Entry, values: seq<Value>)
    ensures forall d :: d in EntryDemands(e, values) ==> d.0 == e.0
  {
  }

  lemma SelectSame(db: Database, t: string, column: string, a: seq<Value>, b: seq<Value>)
    requires Keys(a) == Keys(b)
    ensures SelectIn(db, t, column, a) == SelectIn(db, t, column, b)
  {
    SelectByKeys(db, t, column, a);
    SelectByKeys(db, t, column, b);
  }

  lemma SelectByKeys(db: Database, t: string, column: string, a: seq<Value>)
    ensures SelectIn(db, t, column, a) ==
              set r | r in RowsOf(db, t) && exists k :: k in Keys(a) && db.matches(t, column, k, r)
  {
    hide KeyOf;
    forall r | r in SelectIn(db, t, column, a) ensures exists k :: k in Keys(a) && db.matches(t, column, k, r) {
      var i :| 0 <= i < |a| && db.matches(t, column, KeyOf(a[i]), r);
      assert a[i] in a;
    }
    forall r, k | r in RowsOf(db, t) && k in Keys(a) && db.matches(t, column, k, r)
      ensures r in SelectIn(db, t, column, a)
    {
      var v :| v in a && KeyOf(v) == k;
      var i :| 0 <= i < |a| && a[i] == v;
    }
  }

  ghost predicate GatesGrow(before: Search, after: Search) {
    && before.gates.fwd <= after.gates.fwd && before.gates.bwd <= after.gates.bwd
    && (after.gates == before.gates ==> after.pending == before.pending)
  }

  function EmptyVecs(n: nat): (vecs: seq<seq<Value>>)
    ensures |vecs| == n && forall i :: 0 <= i < n ==> vecs[i] == []
  {
    seq(n, _ => [])
  }

  /** Queries an entry's table and queues the lookups its new rows call for. */
  method RunEntry(env: Env, ghost a: Aggregate, exclude: set<string>, e: Entry, values: seq<Value>,
                  se: Search, ghost st: Start, ghost tr: Trace, ghost seen: Seen, ghost rest: set<Demand>)
    returns (se': Search, ghost tr': Trace, ghost seen': Seen)
    requires KeysIdentify(env.db) && !a.rootOnly && exclude == Exclude(env, a) && values != [] && Enters(env, a, e.0)
    requires SearchInv(env, a, st, se, tr, seen, rest + EntryDemands(e, values))
    ensures SearchInv(env, a, st, se', tr', seen', rest) && GatesGrow(se, se')
    ensures seen'.roots == seen.roots && tr.wide <= tr'.wide
  {
    hide KeyOf, Usable, KeyIn, SearchOk, VecDemands, Demands, EmissionOk, Forced, Enters, EntryDemands, SelectIn,
         Zeroes, FetchedBy, TouchedBy, QueriedBy, Touchable;
    var (t, column, back) := e;
    var rf := RelationsOf(env.plan.relations, t, false, env.importable, exclude);
    var rb := if back then RelationsOf(env.plan.relations, t, true, env.importable, exclude) else [];
    RelationsFound(env, a, t, rf, rb, back);
    EntryBegins(env, a, se, seen, tr, t, rf, rb);
    var s := se.s.(counts := se.s.counts[t := Count(se.s, t)]);
    var sc := Scan(s, Writer(t, [], 0), se.gates, EmptyVecs(|rf|), EmptyVecs(|rb|));
    var unique := DedupeValues(values);
    SameKeysSameDemands(e, unique, values);
    ghost var rows := SelectIn(env.db, t, column, values);
    SelectSame(env.db, t, column, unique, values);
    var sc1, tr1 := FetchBatches(env, a, e, unique, rf, rb, sc, tr, seen);
    seen' := AddAll(seen, t, rows, Binary);
    var s1 := FlushWriter(env.db, sc1.s, sc1.w, seen');
    var pending := Coalesce(se.pending, rf, false, sc1.fv);
    pending := Coalesce(pending, rb, true, sc1.bv);
    tr' := Finish(tr1, EntryDemands(e, values));
    FinishEntry(env, a, sc1.gates, tr1, e, values);
    se' := Search(s1, sc1.gates, pending, se.touched + {t});
    EntryTallied(env, a, st, se, se', seen, tr.done, e, values);
  }

  lemma RelationsFound(env: Env, a: Aggregate, t: string, rf: seq<Relation>, rb: seq<Relation>, back: bool)
    requires !a.rootOnly
    requires rf == RelationsOf(env.plan.relations, t, false, env.importable, Exclude(env, a))
    requires back ==> rb == RelationsOf(env.plan.relations, t, true, env.importable, Exclude(env, a))
    ensures RelationsOk(env, a, t, false, rf) && (back ==> RelationsOk(env, a, t, true, rb))
  {
  }

  lemma EntryBegins(env: Env, a: Aggregate, se: Search, seen: Seen, tr: Trace, t: string, rf: seq<Relation>,
                    rb: seq<Relation>)
    requires SearchOk(env, a, se.gates, tr) && EmissionOk(env.db, se.s, NO_WRITER, seen)
    ensures var s := se.s.(counts := se.s.counts[t := Count(se.s, t)]);
            ScanOk(env, a, rf, rb, Scan(s, Writer(t, [], 0), se.gates, EmptyVecs(|rf|), EmptyVecs(|rb|)), tr, seen)
            && Zeroes(s) <= Zeroes(se.s) + {t}
    ensures VecDemands(rf, false, EmptyVecs(|rf|)) == {} && VecDemands(rb, true, EmptyVecs(|rb|)) == {}
  {
    hide SearchOk, EmissionOk;
    IdleWriter(env.db, se.s, "", t, seen);
    CountFromZero(env.db, se.s, t, t, seen);
  }

  lemma EntryTallied(env: Env, a: Aggregate, st: Start, se: Search, se': Search, seen: Seen, done: set<Demand>,
                     e: Entry, values: seq<Value>)
    requires Tally(env, a, st, se, seen, done) && values != [] && Enters(env, a, e.0)
    requires se'.touched == se.touched + {e.0}
    requires se.s.counts.Keys + {e.0} <= se'.s.counts.Keys && Zeroes(se'.s) <= Zeroes(se.s) + {e.0}
    ensures Tally(env, a, st, se', AddAll(seen, e.0, SelectIn(env.db, e.0, e.1, values), Binary),
                  done + EntryDemands(e, values))
  {
    hide KeyOf, EntryDemands, SelectIn, FetchedBy, TouchedBy, QueriedBy, Zeroes;
    EntryFetched(env, a, done, e, values);
    TouchEntry(env, a, done, e, values);
  }

  /** One entry of the level: skipped when its table is a dead end for this aggregate. */
  method FetchEntry(env: Env, ghost a: Aggregate, exclude: set<string>, e: Entry, values: seq<Value>,
                    se: Search, ghost st: Start, ghost tr: Trace, ghost seen: Seen, ghost rest: set<Demand>)
    returns (se': Search, ghost tr': Trace, ghost seen': Seen)
    requires KeysIdentify(env.db) && !a.rootOnly && exclude == Exclude(env, a) && values != []
    requires SearchInv(env, a, st, se, tr, seen, rest + EntryDemands(e, values))
    ensures SearchInv(env, a, st, se', tr', seen', rest) && GatesGrow(se, se')
    ensures seen'.roots == seen.roots && tr.wide <= tr'.wide
  {
    hide KeyOf, SearchOk, Demands, EmissionOk, EntryDemands, Zeroes, FetchedBy, TouchedBy, QueriedBy;
    se', tr', seen' := se, tr, seen;
    if e.0 in env.plan.full || e.0 in exclude || e.0 !in env.importable {
      DropEntry(env, a, se.gates, tr, e, values);
      TouchEntry(env, a, tr.done, e, values);
      tr' := Finish(tr, EntryDemands(e, values));
      return;
    }
    if e.0 in env.plan.excluded {
      DropEntry(env, a, se.gates, tr, e, values);
      TouchEntry(env, a, tr.done, e, values);
      tr' := Finish(tr, EntryDemands(e, values));
      se' := se.(touched := se.touched + {e.0});
      return;
    }
    se', tr', seen' := RunEntry(env, a, exclude, e, values, se, st, tr, seen, rest);
  }

  // ------------------------------------------------------------------
  // Levels
  // ------------------------------------------------------------------

  lemma TakeEntry(level: Pending, e: Entry)
    requires e in level
    ensures Demands(level) == Demands(level - {e}) + EntryDemands(e, level[e])
  {
    hide KeyOf;
    var rest := level - {e};
    forall d | d in Demands(level) ensures d in Demands(rest) + EntryDemands(e, level[e]) {
      var f, v :| f in level && v in level[f] && d == (f.0, f.1, f.2, KeyOf(v));
      if f != e { assert f in rest && v in rest[f]; }
    }
  }

  /** Works through one level's entries in an arbitrary order. */
  method RunLevel(env: Env, ghost a: Aggregate, exclude: set<string>, entries: Pending,
                  se: Search, ghost st: Start, ghost tr: Trace, ghost seen: Seen)
    returns (se': Search, ghost tr': Trace, ghost seen': Seen)
    requires KeysIdentify(env.db) && !a.rootOnly && exclude == Exclude(env, a) && NoEmptyEntry(entries)
    requires SearchInv(env, a, st, se, tr, seen, Demands(entries))
    ensures SearchInv(env, a, st, se', tr', seen', {}) && GatesGrow(se, se')
    ensures seen'.roots == seen.roots && tr.wide <= tr'.wide
  {
    hide SearchInv, Demands, EntryDemands;
    se', tr', seen' := se, tr, seen;
    var level := entries;
    while level != map[]
      invariant NoEmptyEntry(level) && SearchInv(env, a, st, se', tr', seen', Demands(level))
      invariant GatesGrow(se, se') && seen'.roots == seen.roots && tr.wide <= tr'.wide
      decreases |level|
    {
      var e :| e in level;
      TakeEntry(level, e);
      SmallerLevel(level, e);
      se', tr', seen' := FetchEntry(env, a, exclude, e, level[e], se', st, tr', seen', Demands(level - {e}));
      level := level - {e};
    }
    assert Demands(map[]) == {} by { NothingPending(); }
  }

  lemma NothingPending()
    ensures Demands(map[]) == {}
  {
  }

  lemma SmallerLevel(level: Pending, e: Entry)
    requires e in level
    ensures |level - {e}| < |level|
  {
    assert (level - {e}).Keys == level.Keys - {e};
  }

  ghost function OpenGates(db: Database, gates: Gates): int {
    2 * |GateUniverse(db)| - |gates.fwd| - |gates.bwd|
  }

  /** A level that queues anything has closed a gate for good, so there are finitely many
      levels, cycles or not. */
  lemma LevelProgress(env: Env, a: Aggregate, before: Search, after: Search, tr: Trace)
    requires SearchOk(env, a, after.gates, tr) && GatesGrow(before, after)
    ensures 0 <= OpenGates(env.db, after.gates) <= OpenGates(env.db, before.gates)
    ensures after.pending != before.pending ==> OpenGates(env.db, after.gates) < OpenGates(env.db, before.gates)
  {
    hide TraceSound, TraceCovered, Covered;
    SubsetSize(after.gates.fwd, GateUniverse(env.db));
    SubsetSize(after.gates.bwd, GateUniverse(env.db));
    SubsetSize(before.gates.fwd, after.gates.fwd);
    SubsetSize(before.gates.bwd, after.gates.bwd);
  }

  /** Level by level until nothing is pending. */
  method RunLevels(env: Env, ghost a: Aggregate, exclude: set<string>,
                   se: Search, ghost st: Start, ghost tr: Trace, ghost seen: Seen)
    returns (se': Search, ghost tr': Trace, ghost seen': Seen)
    requires KeysIdentify(env.db) && (a.rootOnly ==> se.pending == map[]) && exclude == Exclude(env, a)
    requires SearchInv(env, a, st, se, tr, seen, {})
    ensures SearchInv(env, a, st, se', tr', seen', {}) && se'.pending == map[]
    ensures seen'.roots == seen.roots && tr.wide <= tr'.wide
  {
    hide SearchOk, EmissionOk, Tally, Demands;
    se', tr', seen' := se, tr, seen;
    while se'.pending != map[]
      invariant SearchInv(env, a, st, se', tr', seen', {}) && (a.rootOnly ==> se'.pending == map[])
      invariant seen'.roots == seen.roots && tr.wide <= tr'.wide
      decreases OpenGates(env.db, se'.gates), if se'.pending != map[] then 1 else 0
    {
      var level := se'.pending;
      var drained := se'.(pending := map[]);
      NothingPending();
      assert SearchInv(env, a, st, drained, tr', seen', Demands(level)) by {
        Drained(env, a, st, se', seen', tr'.done);
      }
      LevelProgress(env, a, drained, drained, tr');
      se', tr', seen' := RunLevel(env, a, exclude, level, drained, st, tr', seen');
      LevelProgress(env, a, drained, se', tr');
    }
  }

  lemma Drained(env: Env, a: Aggregate, st: Start, se: Search, seen: Seen, done: set<Demand>)
    requires Tally(env, a, st, se, seen, done)
    ensures Tally(env, a, st, se.(pending := map[]), seen, done)
  {
  }

  // ------------------------------------------------------------------
  // One aggregate
  // ------------------------------------------------------------------

  lemma FreshSearch(env: Env, a: Aggregate, s: Sender, seen: Seen, rf: seq<Relation>, rb: seq<Relation>)
    requires EmissionOk(env.db, s, NO_WRITER, seen)
    ensures ScanOk(env, a, rf, rb, Scan(s, Writer(a.root, [], 0), Gates({}, {}), EmptyVecs(|rf|), EmptyVecs(|rb|)),
                   Trace({}, {}, {}, {}), seen)
  {
    IdleWriter(env.db, s, "", a.root, seen);
  }

  lemma RootsForced(env: Env, a: Aggregate)
    ensures forall r :: r in a.selected ==> Forced(env, a, (a.root, r), true)
  {
    hide Usable, Enters;
  }

  lemma FirstTally(env: Env, a: Aggregate, touched: set<string>, queried: set<string>, se: Search, seen: Seen)
    requires se.touched == touched + {a.root}
    requires queried <= se.s.counts.Keys && Zeroes(se.s) <= queried
    ensures Tally(env, a, Start(seen.edges, touched + {a.root}, queried), se, seen, {})
  {
    hide Enters, Touchable;
  }

  /** Streams the root rows and queues the lookups they call for. A `root_only` aggregate
      follows no relation. */
  method StreamRoot(env: Env, a: Aggregate, exclude: set<string>, s: Sender, touched: set<string>,
                    ghost seen: Seen, ghost queried: set<string>)
    returns (se: Search, ghost tr: Trace, ghost seen': Seen)
    requires KeysIdentify(env.db) && SaneAggregate(env, a) && exclude == Exclude(env, a)
    requires EmissionOk(env.db, s, NO_WRITER, seen) && queried <= s.counts.Keys && Zeroes(s) <= queried
    ensures SearchInv(env, a, Start(seen.edges, touched + {a.root}, queried), se, tr, seen', {})
    ensures a.rootOnly ==> se.pending == map[]
    ensures seen'.roots == seen.roots + RootItems(a) && RootItems(a) <= tr.wide
  {
    hide KeyOf, Usable, SearchOk, VecDemands, Demands, EmissionOk, Forced, Zeroes;
    var rf := if a.rootOnly then [] else RelationsOf(env.plan.relations, a.root, false, env.importable, exclude);
    var rb := if a.rootOnly then [] else RelationsOf(env.plan.relations, a.root, true, env.importable, exclude);
    RootRelations(env, a, rf, rb);
    FreshSearch(env, a, s, seen, rf, rb);
    RootsForced(env, a);
    var sc := Scan(s, Writer(a.root, [], 0), Gates({}, {}), EmptyVecs(|rf|), EmptyVecs(|rb|));
    var sc1;
    sc1, tr := ReadRows(env, a, a.selected, Text, true, rf, rb, sc, Trace({}, {}, {}, {}), seen);
    seen' := AddAll(seen, a.root, a.selected, Text);
    var s1 := FlushWriter(env.db, sc1.s, sc1.w, seen');
    NothingPending();
    var pending := Coalesce(map[], rb, true, sc1.bv);
    pending := Coalesce(pending, rf, false, sc1.fv);
    se := Search(s1, sc1.gates, pending, touched + {a.root});
    FirstTally(env, a, touched, queried, se, seen');
  }

  lemma RootRelations(env: Env, a: Aggregate, rf: seq<Relation>, rb: seq<Relation>)
    requires rf ==
               if a.rootOnly then [] else RelationsOf(env.plan.relations, a.root, false, env.importable,
                                                      Exclude(env, a))
    requires rb ==
               if a.rootOnly then [] else RelationsOf(env.plan.relations, a.root, true, env.importable, Exclude(env, a))
    ensures RelationsOk(env, a, a.root, false, rf) && RelationsOk(env, a, a.root, true, rb)
  {
  }

  /** With every lookup done, what was reached is closed. */
  lemma SearchCloses(env: Env, a: Aggregate, gates: Gates, tr: Trace)
    requires MatchStable(env.db) && SearchOk(env, a, gates, tr) && tr.done == tr.known && RootItems(a) <= tr.wide
    ensures Closed(env, a, tr.reached, tr.wide)
    ensures tr.reached == Reached(env, a) && tr.wide == Wide(env, a)
  {
    hide Usable, Enters, HasKey, Answers, GateOk;
    forall rel, back, x, s | Usable(env, a, rel, back) && x in (if back then tr.wide else tr.reached)
                             && Enters(env, a, Target(rel, back)) && Joins(env, rel, back, x, s)
      ensures s in tr.reached && (back ==> s in tr.wide)
    {
      FollowDone(env, a, tr, rel, back, x, s);
    }
    forall r | r in a.selected ensures (a.root, r) in tr.wide { assert (a.root, r) in RootItems(a); }
    LeastPair(env, a, tr.reached, tr.wide);
  }

  /** A row the relation leads to answers a lookup that was made, possibly under the other
      image of the same cell. */
  lemma JoinAsked(env: Env, a: Aggregate, known: set<Demand>, rel: Relation, back: bool, x: Item, s: Item)
    returns (d: Demand)
    requires MatchStable(env.db) && x in Universe(env.db)
    requires Covered(env, a, known, x, back) && Usable(env, a, rel, back) && Joins(env, rel, back, x, s)
    ensures d in known && d.0 == Target(rel, back) && d.2 == back && Answers(env, d, s)
  {
    hide Usable, KeyOf;
    var k :| HasKey(env, x, SourceColumn(rel, back), k)
        && Answers(env, (Target(rel, back), TargetColumn(rel, back), back, k), s);
    assert Asked(env, known, rel, back, x);
    var k' :| HasKey(env, x, SourceColumn(rel, back), k')
        && (Target(rel, back), TargetColumn(rel, back), back, k') in known;
    d := (Target(rel, back), TargetColumn(rel, back), back, k');
    var c := Cell(SchemaOf(env.db, x.0), x.1, SourceColumn(rel, back)).value;
    assert x.1 in RowsOf(env.db, x.0) && c in x.1;
    assert CellStable(env.db, c);
  }

  lemma FollowDone(env: Env, a: Aggregate, tr: Trace, rel: Relation, back: bool, x: Item, s: Item)
    requires MatchStable(env.db) && TraceSound(env, a, tr) && TraceCovered(env, a, tr) && tr.done == tr.known
    requires Usable(env, a, rel, back) && x in (if back then tr.wide else tr.reached)
    requires Enters(env, a, Target(rel, back)) && Joins(env, rel, back, x, s)
    ensures s in tr.reached && (back ==> s in tr.wide)
  {
    hide Usable, Enters, HasKey, Answers, Covered, Joins, Called, Closed;
    var d := JoinAsked(env, a, tr.known, rel, back, x, s);
    assert Satisfied(env, a, tr, d);
  }

  /** What the bookkeeping means once the search is over. */
  lemma SearchResult(env: Env, a: Aggregate, gates: Gates, tr: Trace)
    requires MatchStable(env.db) && SearchOk(env, a, gates, tr) && tr.done == tr.known
    requires tr.reached == Reached(env, a) && tr.wide == Wide(env, a)
    ensures FetchedBy(env, a, tr.done) == Fetched(env, a)
    ensures forall t :: t in TouchedBy(env, a, tr.done) + {a.root} <==> Touches(env, a, t)
    ensures forall t :: t in QueriedBy(env, a, tr.done) <==> Queries(env, a, t)
  {
    hide Usable, Enters, HasKey, Answers, GateOk, Touchable, Reached, Wide, Called, Covered;
    forall d | d in tr.done ensures Looks(env, a, d) {}
    forall d | Looks(env, a, d) ensures exists e :: e in tr.done && e.0 == d.0 {
      var e := LookDone(env, a, gates, tr, d);
    }
    forall x | x in Fetched(env, a) ensures x in FetchedBy(env, a, tr.done) {
      var d :| Looks(env, a, d) && Enters(env, a, d.0) && Answers(env, d, x);
      FetchDone(env, a, gates, tr, d, x);
    }
  }

  lemma LookDone(env: Env, a: Aggregate, gates: Gates, tr: Trace, d: Demand) returns (e: Demand)
    requires SearchOk(env, a, gates, tr) && tr.done == tr.known && Called(env, a, tr.reached, tr.wide, d)
    ensures e in tr.done && e.0 == d.0
  {
    hide Usable, HasKey, GateOk;
    var rel, x :| CallsFor(env, a, rel, x, d) && x in if d.2 then tr.wide else tr.reached;
    assert Asked(env, tr.known, rel, d.2, x);
    var k :| HasKey(env, x, SourceColumn(rel, d.2), k)
        && (Target(rel, d.2), TargetColumn(rel, d.2), d.2, k) in tr.known;
    e := (Target(rel, d.2), TargetColumn(rel, d.2), d.2, k);
  }

  lemma FetchDone(env: Env, a: Aggregate, gates: Gates, tr: Trace, d: Demand, s: Item)
    requires MatchStable(env.db) && SearchOk(env, a, gates, tr) && tr.done == tr.known
    requires Called(env, a, tr.reached, tr.wide, d) && Enters(env, a, d.0) && Answers(env, d, s)
    ensures s in FetchedBy(env, a, tr.done)
  {
    hide Usable, HasKey, GateOk, Enters, Covered;
    var rel, x :| CallsFor(env, a, rel, x, d) && x in if d.2 then tr.wide else tr.reached;
    assert Joins(env, rel, d.2, x, s);
    var e := JoinAsked(env, a, tr.known, rel, d.2, x, s);
    assert s in Universe(env.db);
  }

  /** One aggregate: the rows met are its root rows and exactly the rows its closure fetches. */
  method RunAggregate(env: Env, a: Aggregate, exclude: set<string>, s: Sender, touched: set<string>,
                      ghost seen: Seen, ghost queried: set<string>)
    returns (s': Sender, touched': set<string>, ghost seen': Seen, ghost queried': set<string>)
    requires Sane(env.db) && SaneAggregate(env, a) && exclude == Exclude(env, a)
    requires EmissionOk(env.db, s, NO_WRITER, seen) && queried <= s.counts.Keys && Zeroes(s) <= queried
    ensures EmissionOk(env.db, s', NO_WRITER, seen') && queried' <= s'.counts.Keys && Zeroes(s') <= queried'
    ensures seen' == Seen(seen.roots + RootItems(a), seen.edges + Fetched(env, a))
    ensures forall t :: t in touched' <==> t in touched || Touches(env, a, t)
    ensures forall t :: t in queried' <==> t in queried || Queries(env, a, t)
  {
    hide SearchOk, EmissionOk, Zeroes, Demands, FetchedBy, TouchedBy, QueriedBy, Fetched, Touches, Queries, MatchStable,
         RootItems;
    var se, tr, seen1 := StreamRoot(env, a, exclude, s, touched, seen, queried);
    ghost var st := Start(seen.edges, touched + {a.root}, queried);
    ghost var roots := seen1.roots;
    se, tr, seen' := RunLevels(env, a, exclude, se, st, tr, seen1);
    NothingPending();
    SearchCloses(env, a, se.gates, tr);
    SearchResult(env, a, se.gates, tr);
    s', touched' := se.s, se.touched;
    queried' := queried + QueriedBy(env, a, tr.done);
  }
}
