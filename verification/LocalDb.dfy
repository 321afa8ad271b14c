/** The local MySQL database as an import sees it: tables filled by chunk loads, the
    checkpoint table and the backups of preserved rows. */
module LocalDb {
  import opened Bytes

  /** A table's rows by key. */
  type Rows = map<nat, string>

  /** A table as the chunks loaded since it was created, oldest first, and the preserved rows
      written back over them. */
  datatype Table = Table(loads: seq<Rows>, restored: Rows)

  /** LOAD DATA LOCAL skips a row whose key the table already has. */
  function Loaded(loads: seq<Rows>): Rows {
    if loads == [] then map[] else loads[|loads| - 1] + Loaded(loads[..|loads| - 1])
  }

  /** REPLACE INTO overwrites. */
  function Content(t: Table): Rows { Loaded(t.loads) + t.restored }

  function Contents(tables: map<string, Table>): map<string, Rows> {
    map t | t in tables :: Content(tables[t])
  }

  ghost predicate Within(a: Rows, b: Rows) { forall k :: k in a ==> k in b && b[k] == a[k] }

  /** No two chunks disagree on a key. */
  ghost predicate Agreeing(loads: seq<Rows>) {
    forall i, j, k :: 0 <= i < |loads| && 0 <= j < |loads| && k in loads[i] && k in loads[j]
                      ==> loads[i][k] == loads[j][k]
  }

  lemma {:induction false} LoadedKeys(loads: seq<Rows>, k: nat)
    ensures k in Loaded(loads) <==> exists i :: 0 <= i < |loads| && k in loads[i]
    ensures k in Loaded(loads) ==> exists i :: 0 <= i < |loads| && k in loads[i] && Loaded(loads)[k] == loads[i][k]
  {
    if loads != [] {
      var init := loads[..|loads| - 1];
      LoadedKeys(init, k);
      if k in Loaded(init) {
        var i :| 0 <= i < |init| && k in init[i] && Loaded(init)[k] == init[i][k];
        assert loads[i] == init[i];
      }
      if i :| 0 <= i < |loads| && k in loads[i] {
        assert i < |init| ==> k in init[i];
      }
    }
  }

  /** Whatever order the workers loaded the chunks in, every key of every chunk is there. */
  lemma SameKeys(a: seq<Rows>, b: seq<Rows>)
    requires multiset(a) == multiset(b)
    ensures Loaded(a).Keys == Loaded(b).Keys
  {
    forall k ensures k in Loaded(a) <==> k in Loaded(b) {
      LoadedKeys(a, k);
      LoadedKeys(b, k);
      if i :| 0 <= i < |a| && k in a[i] { SomewhereIn(a, b, i); }
      if i :| 0 <= i < |b| && k in b[i] { SomewhereIn(b, a, i); }
    }
  }

  lemma SomewhereIn(a: seq<Rows>, b: seq<Rows>, i: nat)
    requires multiset(a) == multiset(b) && i < |a|
    ensures exists j :: 0 <= j < |b| && b[j] == a[i]
  {
    assert a[i] in multiset(a);
    assert a[i] in b;
  }

  /** Chunks that agree give the same table in every order. */
  lemma SameTable(a: seq<Rows>, b: seq<Rows>)
    requires multiset(a) == multiset(b) && Agreeing(b)
    ensures Loaded(a) == Loaded(b)
  {
    SameKeys(a, b);
    forall k | k in Loaded(a) ensures Loaded(a)[k] == Loaded(b)[k] {
      LoadedKeys(a, k);
      LoadedKeys(b, k);
      var i :| 0 <= i < |a| && k in a[i] && Loaded(a)[k] == a[i][k];
      SomewhereIn(a, b, i);
      var j :| 0 <= j < |b| && b[j] == a[i];
      var m :| 0 <= m < |b| && k in b[m] && Loaded(b)[k] == b[m][k];
      assert b[j][k] == b[m][k];
    }
  }

  /** The chunk loaded first keeps its row. */
  lemma {:induction false} FirstWins(first: Rows, rest: seq<Rows>, k: nat)
    requires k in first
    ensures k in Loaded([first] + rest) && Loaded([first] + rest)[k] == first[k]
  {
    var loads := [first] + rest;
    if rest == [] {
      assert loads[..0] == [];
    } else {
      FirstWins(first, rest[..|rest| - 1], k);
      assert loads[..|loads| - 1] == [first] + rest[..|rest| - 1];
    }
  }

  lemma MoveToFront(loads: seq<Rows>, i: nat)
    requires i < |loads|
    ensures multiset([loads[i]] + (loads[..i] + loads[i + 1..])) == multiset(loads)
  {
    assert loads == loads[..i] + [loads[i]] + loads[i + 1..];
  }

  /** The table is the same for every schedule of the workers exactly when the chunks agree. */
  lemma ScheduleIndependent(loads: seq<Rows>)
    ensures Agreeing(loads) <==> forall a :: multiset(a) == multiset(loads) ==> Loaded(a) == Loaded(loads)
  {
    if Agreeing(loads) {
      forall a | multiset(a) == multiset(loads) ensures Loaded(a) == Loaded(loads) { SameTable(a, loads); }
    } else {
      var i, j, k :| 0 <= i < |loads| && 0 <= j < |loads| && k in loads[i] && k in loads[j]
          && loads[i][k] != loads[j][k];
      var a, b := [loads[i]] + (loads[..i] + loads[i + 1..]), [loads[j]] + (loads[..j] + loads[j + 1..]);
      MoveToFront(loads, i);
      MoveToFront(loads, j);
      FirstWins(loads[i], loads[..i] + loads[i + 1..], k);
      FirstWins(loads[j], loads[..j] + loads[j + 1..], k);
      assert Loaded(a) != Loaded(b);
    }
  }
}
