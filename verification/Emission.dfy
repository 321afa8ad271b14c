/** Sending rows: the global `visited` set, schemas on first use, chunks cut by row count
    and byte size, and the row counts reported at the end. */
module Emission {
  import opened Bytes
  import opened RowKeys
  import opened Rows
  import opened Database
  import opened Streams

  const CHUNK_BYTE_LIMIT: nat := 1024 * 1024

  type RowMessage = Message<seq<Row>>

  /** What the traversal has sent so far, across aggregates. */
  datatype Sender = Sender(
    visited: set<KeyItem>,
    schemas: set<string>,
    counts: map<string, nat>,
    out: seq<RowMessage>)

  /** The rows one `TsvWriter` holds but has not sent, and their encoded size. */
  datatype Writer = Writer(table: string, rows: seq<Row>, bytes: nat)

  function Count(s: Sender, t: string): nat { if t in s.counts then s.counts[t] else 0 }

  /** Tables with a row count of zero: a lookup ran on them but no row was sent. */
  ghost function Zeroes(s: Sender): set<string> { set t | t in s.counts && s.counts[t] == 0 }

  function Tag(t: string, rows: seq<Row>): (items: seq<Item>)
    ensures |items| == |rows|
  {
    seq(|rows|, i requires 0 <= i < |rows| => (t, rows[i]))
  }

  /** Every row in the stream's chunks, in order. */
  ghost function Flat(out: seq<RowMessage>): seq<Item> {
    if out == [] then []
    else
      var m := out[|out| - 1];
      Flat(out[..|out| - 1]) + if m.Data? then Tag(m.table, m.data) else []
  }

  lemma FlatAppend(out: seq<RowMessage>, m: RowMessage)
    ensures Flat(out + [m]) == Flat(out) + if m.Data? then Tag(m.table, m.data) else []
  {
    assert (out + [m])[..|out|] == out;
  }

  ghost function Log(s: Sender, w: Writer): seq<Item> { Flat(s.out) + Tag(w.table, w.rows) }

  function Unsent(w: Writer, t: string): nat { if t == w.table then |w.rows| else 0 }

  /** Each announced table is open with exactly the rows counted for it and already sent. */
  ghost predicate StreamOk(s: Sender, w: Writer) {
    && |w.rows| < CHUNK_ROW_LIMIT && w.bytes < CHUNK_BYTE_LIMIT
    && forall t :: TableOk(s, w, t)
  }

  ghost predicate TableOk(s: Sender, w: Writer, t: string) {
    && Unsent(w, t) <= Count(s, t)
    && PhaseOf(s.out, t) == (if t in s.schemas then Open(Count(s, t) - Unsent(w, t)) else Absent)
    && (Count(s, t) > 0 ==> t in s.schemas)
  }

  /** The stream grew only by messages about table `t`. */
  ghost predicate OnlyAdds(out: seq<RowMessage>, out': seq<RowMessage>, t: string) {
    out <= out' && forall i :: |out| <= i < |out'| ==> out'[i].table == t
  }

  /** Appends a row to the writer and cuts a chunk when it is full. */
  method SendRow(db: Database, s: Sender, w: Writer, row: Row) returns (s': Sender, w': Writer)
    requires StreamOk(s, w) && w.table in s.schemas
    ensures StreamOk(s', w') && w'.table == w.table
    ensures s' == s.(out := s'.out, counts := s.counts[w.table := Count(s, w.table) + 1])
    ensures Log(s', w') == Log(s, w) + [(w.table, row)] && OnlyAdds(s.out, s'.out, w.table)
  {
    s' := s.(counts := s.counts[w.table := Count(s, w.table) + 1]);
    w' := Writer(w.table, w.rows + [row], w.bytes + db.size(row) + 1);
    forall t ensures TableOk(s', w', t) { assert TableOk(s, w, t); }
    assert Tag(w.table, w.rows + [row]) == Tag(w.table, w.rows) + [(w.table, row)];
    assert Log(s', w') == Log(s, w) + [(w.table, row)];
    if |w'.rows| >= CHUNK_ROW_LIMIT || w'.bytes >= CHUNK_BYTE_LIMIT {
      s', w' := SendChunk(s', w');
    }
  }

  /** Sends the writer's rows, if it holds any, as one chunk. */
  method SendChunk(s: Sender, w: Writer) returns (s': Sender, w': Writer)
    requires |w.rows| <= CHUNK_ROW_LIMIT && forall t :: TableOk(s, w, t)
    ensures StreamOk(s', w') && w' == Writer(w.table, [], 0)
    ensures s' == s.(out := s'.out) && Log(s', w') == Log(s, w) && OnlyAdds(s.out, s'.out, w.table)
  {
    s', w' := s, Writer(w.table, [], 0);
    if w.rows != [] {
      s' := s.(out := s.out + [Data(w.table, |w.rows|, w.rows)]);
      ChunkSent(s, w);
    } else {
      forall t ensures TableOk(s', w', t) { assert TableOk(s, w, t); }
    }
  }

  lemma ChunkSent(s: Sender, w: Writer)
    requires 0 < |w.rows| <= CHUNK_ROW_LIMIT && forall t :: TableOk(s, w, t)
    ensures var s', w' := s.(out := s.out + [Data(w.table, |w.rows|, w.rows)]), Writer(w.table, [], 0);
            StreamOk(s', w') && Log(s', w') == Log(s, w)
  {
    var m := Data(w.table, |w.rows|, w.rows);
    var s', w' := s.(out := s.out + [m]), Writer(w.table, [], 0);
    FlatAppend(s.out, m);
    assert Tag(w.table, []) == [];
    forall t ensures TableOk(s', w', t) {
      hide Flat;
      assert TableOk(s, w, t) && TableOk(s, w, w.table);
      PhaseOfAppend(s.out, m, t);
    }
  }

  method SendSchema(s: Sender, w: Writer) returns (s': Sender)
    requires StreamOk(s, w) && w.table !in s.schemas
    ensures StreamOk(s', w) && s' == s.(out := s'.out, schemas := s.schemas + {w.table})
    ensures Log(s', w) == Log(s, w) && OnlyAdds(s.out, s'.out, w.table)
  {
    var m: RowMessage := Message<seq<Row>>.Schema(w.table);
    s' := s.(out := s.out + [m], schemas := s.schemas + {w.table});
    FlatAppend(s.out, m);
    forall t ensures TableOk(s', w, t) {
      assert TableOk(s, w, t);
      PhaseOfAppend(s.out, m, t);
    }
  }

  // ------------------------------------------------------------------
  // Deduplication
  // ------------------------------------------------------------------

  /** The rows met so far: as root rows, and by foreign key. */
  datatype Seen = Seen(roots: set<Item>, edges: set<Item>)

  ghost function Add(seen: Seen, x: Item, p: Protocol): Seen {
    if p == Text then seen.(roots := seen.roots + {x}) else seen.(edges := seen.edges + {x})
  }

  /** The keys recorded for the rows met so far. */
  ghost function VisitedKeys(db: Database, seen: Seen): set<KeyItem> {
    (set x | x in seen.roots :: (x.0, KeyIn(db, x.0, x.1, Text))) +
    (set x | x in seen.edges :: (x.0, KeyIn(db, x.0, x.1, Binary)))
  }

  /** How often a row is sent: once for each key it was met under. */
  ghost function Times(db: Database, x: Item, seen: Seen): nat {
    (if x in seen.roots then 1 else 0) +
    (if x in seen.edges && (x !in seen.roots || !StableKey(db, x)) then 1 else 0)
  }

  ghost predicate SentOk(db: Database, log: seq<Item>, visited: set<KeyItem>, seen: Seen) {
    && seen.roots <= Universe(db) && seen.edges <= Universe(db)
    && visited == VisitedKeys(db, seen)
    && forall x :: multiset(log)[x] == Times(db, x, seen)
  }

  /** Gating emission on the row's key sends it exactly when this key is new. */
  lemma KeyGate(db: Database, log: seq<Item>, visited: set<KeyItem>, seen: Seen, x: Item, p: Protocol)
    requires KeysIdentify(db) && SentOk(db, log, visited, seen) && x in Universe(db)
    ensures var k := (x.0, KeyIn(db, x.0, x.1, p));
            SentOk(db, if k in visited then log else log + [x], visited + {k}, Add(seen, x, p))
  {
    hide RowKey;
    var k, seen' := (x.0, KeyIn(db, x.0, x.1, p)), Add(seen, x, p);
    assert VisitedKeys(db, seen') == visited + {k};
    KnownKey(db, seen, x, p);
    assert Times(db, x, seen') == Times(db, x, seen) + if k in visited then 0 else 1;
    var log' := if k in visited then log else log + [x];
    forall y ensures multiset(log')[y] == Times(db, y, seen') {
      if y != x { TimesOther(db, x, y, seen, p); }
    }
  }

  lemma TimesOther(db: Database, x: Item, y: Item, seen: Seen, p: Protocol)
    requires x != y
    ensures Times(db, y, Add(seen, x, p)) == Times(db, y, seen)
  {
    hide KeyIn;
  }

  lemma KnownKey(db: Database, seen: Seen, x: Item, p: Protocol)
    requires KeysIdentify(db) && seen.roots <= Universe(db) && seen.edges <= Universe(db) && x in Universe(db)
    ensures (x.0, KeyIn(db, x.0, x.1, p)) in VisitedKeys(db, seen) <==>
            || (x in seen.roots && (p == Text || StableKey(db, x)))
            || (x in seen.edges && (p == Binary || StableKey(db, x)))
  {
    hide RowKey;
    var k := (x.0, KeyIn(db, x.0, x.1, p));
    assert x.1 in RowsOf(db, x.0);
    if y :| y in seen.roots && k == (y.0, KeyIn(db, y.0, y.1, Text)) {
      assert y.1 in RowsOf(db, x.0) && y == x;
    }
    if y :| y in seen.edges && k == (y.0, KeyIn(db, y.0, y.1, Binary)) {
      assert y.1 in RowsOf(db, x.0) && y == x;
    }
  }

  lemma VisitedAside(s: Sender, w: Writer, visited: set<KeyItem>)
    requires StreamOk(s, w)
    ensures StreamOk(s.(visited := visited), w) && Log(s.(visited := visited), w) == Log(s, w)
  {
    forall t ensures TableOk(s.(visited := visited), w, t) { assert TableOk(s, w, t); }
  }

  ghost function Announced(visited: set<KeyItem>): set<string> { set k | k in visited :: k.0 }

  lemma AnnouncedMore(visited: set<KeyItem>, k: KeyItem)
    ensures Announced(visited + {k}) == Announced(visited) + {k.0}
    ensures k in visited ==> k.0 in Announced(visited) && visited + {k} == visited
  {
  }

  /** Everything the traversal maintains about emission between two rows. */
  ghost predicate EmissionOk(db: Database, s: Sender, w: Writer, seen: Seen) {
    && StreamOk(s, w)
    && SentOk(db, Log(s, w), s.visited, seen)
    && s.schemas == Announced(s.visited)
    && (forall t :: t in s.schemas ==> Count(s, t) > 0)
  }

  /** One row of a result set: sent when its key is new, with the table's schema first. */
  method EmitRow(db: Database, s: Sender, w: Writer, row: Row, p: Protocol, ghost seen: Seen)
    returns (s': Sender, w': Writer)
    requires KeysIdentify(db) && EmissionOk(db, s, w, seen) && row in RowsOf(db, w.table)
    ensures EmissionOk(db, s', w', Add(seen, (w.table, row), p))
    ensures w'.table == w.table && s.counts.Keys <= s'.counts.Keys && Zeroes(s') <= Zeroes(s)
  {
    hide RowKey, SentOk, StreamOk, Log, KeyIn;
    ghost var x := (w.table, row);
    assert x in Universe(db);
    KeyGate(db, Log(s, w), s.visited, seen, x, p);
    s', w' := s, w;
    if p == Text && w.table !in s'.schemas {
      s' := SendSchema(s', w);
    }
    var k := (w.table, KeyIn(db, w.table, row, p));
    AnnouncedMore(s.visited, k);
    if k in s'.visited {
      return;
    }
    VisitedAside(s', w, s'.visited + {k});
    s' := s'.(visited := s'.visited + {k});
    if w.table !in s'.schemas {
      s' := SendSchema(s', w);
    }
    s', w' := SendRow(db, s', w, row);
  }

  /** An empty writer belongs to any table. */
  lemma IdleWriter(db: Database, s: Sender, t: string, u: string, seen: Seen)
    requires EmissionOk(db, s, Writer(t, [], 0), seen)
    ensures EmissionOk(db, s, Writer(u, [], 0), seen)
  {
    hide SentOk;
    var v, w := Writer(t, [], 0), Writer(u, [], 0);
    assert Tag(u, []) == [] == Tag(t, []);
    forall x ensures TableOk(s, w, x) { assert TableOk(s, v, x); }
  }

  /** The row count entry a fetched table gets before its first query runs. */
  lemma CountFromZero(db: Database, s: Sender, t: string, u: string, seen: Seen)
    requires EmissionOk(db, s, Writer(t, [], 0), seen)
    ensures EmissionOk(db, s.(counts := s.counts[u := Count(s, u)]), Writer(t, [], 0), seen)
  {
    hide SentOk;
    var s', w := s.(counts := s.counts[u := Count(s, u)]), Writer(t, [], 0);
    assert Log(s', w) == Log(s, w);
    forall x ensures TableOk(s', w, x) { assert TableOk(s, w, x); }
  }

  const NO_WRITER: Writer := Writer("", [], 0)

  /** Sends what a result set's writer still holds. */
  method FlushWriter(db: Database, s: Sender, w: Writer, ghost seen: Seen) returns (s': Sender)
    requires EmissionOk(db, s, w, seen)
    ensures EmissionOk(db, s', NO_WRITER, seen)
    ensures s' == s.(out := s'.out) && Zeroes(s') == Zeroes(s)
  {
    hide SentOk;
    var w';
    s', w' := SendChunk(s, w);
    assert EmissionOk(db, s', w', seen) by {
      forall t | t in s'.schemas ensures Count(s', t) > 0 { assert Count(s', t) == Count(s, t); }
    }
    IdleWriter(db, s', w.table, "", seen);
  }
}
