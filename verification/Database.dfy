/** The source database during a run: fixed rows, and SQL `IN` as a predicate. */
module Database {
  import opened Bytes
  import opened RowKeys
  import opened Rows

  type Item = (string, Row)
  type KeyItem = (string, CompactKey)

  /** `matches(t, c, k, r)`: SQL finds row `r` of table `t` when column `c` is compared with
      a value whose compact key is `k`. `size` is the length of a row's TSV fields. */
  datatype Database = Database(
    schemas: map<string, Schema>,
    rows: map<string, set<Row>>,
    matches: (string, string, CompactKey, Row) -> bool,
    size: Row -> nat)

  function SchemaOf(db: Database, t: string): Schema {
    if t in db.schemas then db.schemas[t] else Schema([], [])
  }

  function RowsOf(db: Database, t: string): set<Row> {
    if t in db.rows then db.rows[t] else {}
  }

  function KeyIn(db: Database, t: string, r: Row, p: Protocol): CompactKey {
    RowKey(SchemaOf(db, t), r, p)
  }

  /** Both protocols deliver the row under the same key. */
  predicate StableKey(db: Database, x: Item) {
    KeyIn(db, x.0, x.1, Text) == KeyIn(db, x.0, x.1, Binary)
  }

  /** A key belongs to at most one row of its table (see `Rows.KeyIdentifiesRow`; identical
      rows of a table without a primary key are one row here). */
  ghost predicate KeysIdentify(db: Database) {
    forall t, r, s, p, q :: r in RowsOf(db, t) && s in RowsOf(db, t) && KeyIn(db, t, r, p) == KeyIn(db, t, s, q)
                            ==> r == s
  }

  /** SQL compares a stored cell the same way in either image. For NULLs, integers and byte
      strings the images have one key, so this only speaks of floats, dates and times. */
  ghost predicate MatchStable(db: Database) {
    forall u, r, c :: r in RowsOf(db, u) && c in r ==> CellStable(db, c)
  }

  ghost predicate CellStable(db: Database, c: Stored) {
    forall t, col, s :: s in RowsOf(db, t) ==>
      (db.matches(t, col, KeyOf(Image(c, Text)), s) <==> db.matches(t, col, KeyOf(Image(c, Binary)), s))
  }

  ghost predicate Sane(db: Database) { KeysIdentify(db) && MatchStable(db) }

  /** Every row has a cell in each column, which is NULL, an integer or a byte string under 4 GiB; a
      number whose text has zeros in front is looked up as the number in either image; each key
      column holds one kind of value; and rows that agree in every key column are the same row. */
  ghost predicate TypedData(db: Database) {
    && (forall t, r :: r in RowsOf(db, t) ==>
          forall c :: c in r ==> Typed(c) && ValidCell(c) && (Steady(c) || CellStable(db, c)))
    && (forall t, r, s :: r in RowsOf(db, t) && s in RowsOf(db, t) ==>
          Comparable(SchemaOf(db, t), r, s) && (SameKeyColumns(SchemaOf(db, t), r, s) ==> r == s))
  }

  ghost predicate SameKeyColumns(schema: Schema, r: Row, s: Row) {
    forall i: nat :: KeyColumn(schema, i) ==> i < |r| && i < |s| && r[i] == s[i]
  }

  /** On such data keys identify rows, and lookups find the same rows over both protocols. */
  lemma TypedIsSane(db: Database)
    requires TypedData(db)
    ensures Sane(db)
  {
    forall t, r, s, p, q | r in RowsOf(db, t) && s in RowsOf(db, t) && KeyIn(db, t, r, p) == KeyIn(db, t, s, q)
      ensures r == s
    {
      assert Comparable(SchemaOf(db, t), r, s);
      RowsShareKey(SchemaOf(db, t), r, s, p, q);
      assert SameKeyColumns(SchemaOf(db, t), r, s);
    }
    forall u, r, c | r in RowsOf(db, u) && c in r ensures CellStable(db, c) {
      ImageOfTyped(c);
      CompactKeysEqual(Image(c, Text), Image(c, Binary));
    }
  }

  /** No key column of the row holds a number whose text has zeros in front. */
  ghost predicate SteadyKey(db: Database, x: Item) {
    forall i: nat :: KeyColumn(SchemaOf(db, x.0), i) && i < |x.1| ==> Steady(x.1[i])
  }

  lemma TypedIsStable(db: Database, x: Item)
    requires TypedData(db) && x.1 in RowsOf(db, x.0)
    ensures StableKey(db, x) <==> SteadyKey(db, x)
  {
    assert Comparable(SchemaOf(db, x.0), x.1, x.1);
    RowHasOneKey(SchemaOf(db, x.0), x.1);
  }

  ghost function Universe(db: Database): set<Item> {
    set t, r | t in db.rows && r in db.rows[t] :: (t, r)
  }

  /** `SELECT * FROM t WHERE column IN (values)`. */
  function SelectIn(db: Database, t: string, column: string, values: seq<Value>): set<Row> {
    set r | r in RowsOf(db, t) && exists i :: 0 <= i < |values| && db.matches(t, column, KeyOf(values[i]), r)
  }

  function Keys(values: seq<Value>): set<CompactKey> {
    set v | v in values :: KeyOf(v)
  }

  /** The first value of each compact key, in order. */
  function FirstOfEach(values: seq<Value>): seq<Value> {
    if values == [] then []
    else
      var n := |values| - 1;
      FirstOfEach(values[..n]) + if KeyOf(values[n]) in Keys(values[..n]) then [] else [values[n]]
  }

  /** `dedupe_values`. */
  method DedupeValues(values: seq<Value>) returns (unique: seq<Value>)
    ensures unique == FirstOfEach(values) && Keys(unique) == Keys(values)
    ensures forall i, j :: 0 <= i < j < |unique| ==> KeyOf(unique[i]) != KeyOf(unique[j])
  {
    hide KeyOf;
    var seen: set<CompactKey> := {};
    unique := [];
    for i := 0 to |values|
      invariant seen == Keys(values[..i]) == Keys(unique) && unique == FirstOfEach(values[..i])
      invariant forall i, j :: 0 <= i < j < |unique| ==> KeyOf(unique[i]) != KeyOf(unique[j])
    {
      var k := KeyOf(values[i]);
      KeysAppend(values[..i], values[i]);
      assert values[..i + 1] == values[..i] + [values[i]];
      assert values[..i + 1][..i] == values[..i];
      if k !in seen {
        forall j | 0 <= j < |unique| ensures KeyOf(unique[j]) != k {
          assert unique[j] in unique;
        }
        seen := seen + {k};
        KeysAppend(unique, values[i]);
        unique := unique + [values[i]];
      }
    }
    assert values[..|values|] == values;
  }

  lemma KeysAppend(values: seq<Value>, v: Value)
    ensures Keys(values + [v]) == Keys(values) + {KeyOf(v)}
  {
    forall k | k in Keys(values) + {KeyOf(v)} ensures k in Keys(values + [v]) {
      if k == KeyOf(v) {
        assert v in values + [v];
      } else {
        var w :| w in values && KeyOf(w) == k;
        assert w in values + [v];
      }
    }
  }
}
