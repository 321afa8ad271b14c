/** Foreign keys across interrupted runs: captured, saved, dropped, and recreated, one
    statement at a time, with the connection lost after any statement. */
module KeyStore {
  import opened Bytes
  import opened ForeignKeys

  /** The schema's foreign keys, the saved statements, and the statements printed for the user
      because they could not be run. */
  datatype Keys = Keys(schema: map<Key, ForeignKey>, store: map<Key, string>, printed: set<string>)

  function Ddls(schema: map<Key, ForeignKey>): map<Key, string> { map k | k in schema :: Ddl(schema[k]) }

  /** What is known of the keys: a definition in the schema wins over a saved one. */
  function Known(d: Keys): map<Key, string> { d.store + Ddls(d.schema) }

  predicate Names(k: Key, fk: ForeignKey) { k == (fk.table, fk.name) }

  ghost predicate Saved(k: Key, ddl: string) {
    ParseDdl(ddl).Some? && Names(k, ParseDdl(ddl).value) && Ddl(ParseDdl(ddl).value) == ddl
  }

  ghost predicate Valid(d: Keys) {
    && (forall k :: k in d.schema ==> Names(k, d.schema[k]))
    && (forall k :: k in d.store ==> Saved(k, d.store[k]))
  }

  /** MySQL refuses a statement whose key exists, or for a reason of its own (`refused`): the
      referenced table is gone, say. */
  predicate Runs(d: Keys, k: Key, refused: set<Key>) { k !in d.schema && k !in refused }

  /** In `preserve_and_drop_foreign_keys`, after the rows of the keys `saved`. */
  function Saving(d: Keys, saved: set<Key>): Keys {
    d.(store := d.store + map k | k in Known(d) && k in saved :: Known(d)[k])
  }

  /** Then, after the keys `dropped`. */
  function Dropping(d: Keys, dropped: set<Key>): Keys { Keys(d.schema - dropped, Known(d), d.printed) }

  function Preserved(d: Keys): Keys { Dropping(d, d.schema.Keys) }

  /** In `restore_foreign_keys`, after the statements of the keys `tried`. */
  function Restoring(d: Keys, refused: set<Key>, tried: set<Key>): Keys {
    Keys(d.schema + map k | k in d.store && k in tried && Runs(d, k, refused) && ParseDdl(d.store[k]).Some?
                    :: ParseDdl(d.store[k]).value,
         d.store,
         d.printed + set k | k in d.store && k in tried && !Runs(d, k, refused) :: d.store[k])
  }

  /** MySQL runs, or refuses, the saved statement of one key. */
  function Tried(d: Keys, k: Key, refused: set<Key>): Keys
    requires k in d.store && ParseDdl(d.store[k]).Some?
  {
    if Runs(d, k, refused) then d.(schema := d.schema[k := ParseDdl(d.store[k]).value])
    else d.(printed := d.printed + {d.store[k]})
  }

  function Restored(d: Keys, refused: set<Key>): Keys {
    Restoring(d, refused, d.store.Keys).(store := map[])
  }

  function KeyOf(fk: ForeignKey): Key { (fk.table, fk.name) }

  /** The source's keys, added in order; a name that is taken stays as it is. */
  function Applied(schema: map<Key, ForeignKey>, source: seq<ForeignKey>, refused: set<Key>): map<Key, ForeignKey> {
    if source == [] then schema
    else
      var before := Applied(schema, source[..|source| - 1], refused);
      var fk := source[|source| - 1];
      if KeyOf(fk) in before || KeyOf(fk) in refused then before else before[KeyOf(fk) := fk]
  }

  /** The statements of those that were not added. */
  function Unapplied(schema: map<Key, ForeignKey>, source: seq<ForeignKey>, refused: set<Key>): set<string> {
    if source == [] then {}
    else
      var before := source[..|source| - 1];
      var fk := source[|source| - 1];
      Unapplied(schema, before, refused)
      + if KeyOf(fk) in Applied(schema, before, refused) || KeyOf(fk) in refused then {SourceDdl(fk)} else {}
  }

  /** In `apply_foreign_keys`, after these source keys; the saved statements are still there. */
  function Applying(d: Keys, source: seq<ForeignKey>, refused: set<Key>): Keys {
    d.(schema := Applied(d.schema, source, refused), printed := d.printed + Unapplied(d.schema, source, refused))
  }

  /** A dump, or a server, may carry the source's keys. An import takes an empty list for none;
      a load takes it at its word. */
  predicate Restores(load: bool, source: Option<seq<ForeignKey>>) { source.None? || (!load && source.value == []) }

  function Finished(d: Keys, load: bool, source: Option<seq<ForeignKey>>, refused: set<Key>): Keys {
    if Restores(load, source) then Restored(d, refused) else Applying(d, source.value, refused).(store := map[])
  }

  // ------------------------------------------------------------------
  // The operations
  // ------------------------------------------------------------------

  class LocalSchema {
    var schema: map<Key, ForeignKey>
    var store: map<Key, string>
    var printed: set<string>

    function State(): Keys
      reads this
    {
      Keys(schema, store, printed)
    }

    /** `budget` is the number of statements that reach the server before the connection is
        lost; `left` is what remains of it, `ok` that it lasted. */
    method PreserveAndDrop(budget: nat) returns (left: nat, ok: bool)
      modifies this
      ensures ok ==> State() == Preserved(old(State())) && schema == map[]
      ensures ok ==> forall k ::
                (k in store <==> k in old(schema) || k in old(store))
                && (k in old(schema) ==> store[k] == Ddl(old(schema)[k]))
                && (k in old(store) && k !in old(schema) ==> store[k] == old(store)[k])
      ensures !ok ==> exists keys :: State() == Saving(old(State()), keys) || State() == Dropping(old(State()), keys)
      ensures ok <==> budget >= |Known(old(State()))| + |old(schema)|
    {
      hide Ddl, ParseDdl, Known, Saving, Dropping;
      ghost var d := State();
      var merged := Known(State());
      left, ok := Save(merged, budget);
      if !ok { return; }
      var todo := schema.Keys;
      ghost var dropped: set<Key> := {};
      ghost var size := |todo|;
      DroppingNone(d);
      while todo != {}
        invariant todo <= d.schema.Keys && dropped == d.schema.Keys - todo && State() == Dropping(d, dropped)
        invariant budget == left + |merged| + (size - |todo|)
        decreases |todo|
      {
        if left == 0 { return left, false; }
        var k :| k in todo;
        DropOne(d, dropped, k);
        schema, todo, left := schema - {k}, todo - {k}, left - 1;
        dropped := dropped + {k};
      }
      assert dropped == d.schema.Keys;
      PreservedAll(d);
    }

    /** One REPLACE per saved key. */
    method Save(merged: map<Key, string>, budget: nat) returns (left: nat, ok: bool)
      requires merged == Known(State())
      modifies this`store
      ensures ok ==> store == merged && budget == left + |merged|
      ensures !ok ==> budget < |merged| && exists keys :: State() == Saving(old(State()), keys)
    {
      hide Known, Saving, Ddl, ParseDdl;
      ghost var d := State();
      left, ok := budget, true;
      var todo := merged.Keys;
      ghost var saved: set<Key> := {};
      ghost var size := |todo|;
      SavingNone(d);
      while todo != {}
        invariant todo <= merged.Keys && saved == merged.Keys - todo
        invariant State() == Saving(d, saved)
        invariant budget == left + (size - |todo|)
        decreases |todo|
      {
        if left == 0 { return left, false; }
        var k :| k in todo;
        SaveOne(d, saved, k);
        store, todo, left := store[k := merged[k]], todo - {k}, left - 1;
        saved := saved + {k};
      }
      assert saved == merged.Keys;
      SavingAll(d);
    }

    method Restore(budget: nat, refused: set<Key>) returns (left: nat, ok: bool)
      requires Valid(State())
      modifies this
      ensures ok ==> State() == Restored(old(State()), refused)
      ensures !ok ==> exists tried :: State() == Restoring(old(State()), refused, tried)
      ensures ok <==> budget > |old(store)|
    {
      hide Ddl, ParseDdl, Tried, Restoring, Valid, Saved;
      left := budget;
      var todo := store.Keys;
      ghost var d := State();
      ghost var tried: set<Key> := {};
      ghost var size := |todo|;
      RestoringNone(d, refused);
      SavedParse(d);
      while todo != {}
        invariant todo <= d.store.Keys && tried == d.store.Keys - todo && State() == Restoring(d, refused, tried)
        invariant budget == left + (size - |todo|)
        decreases |todo|
      {
        if left == 0 { return left, false; }
        var k :| k in todo;
        RestoreOne(d, refused, tried, k);
        Recreate(k, refused);
        todo, left := todo - {k}, left - 1;
        tried := tried + {k};
      }
      assert tried == d.store.Keys;
      if left == 0 { return left, false; }
      store, left, ok := map[], left - 1, true;
    }

    method Recreate(k: Key, refused: set<Key>)
      requires k in store && ParseDdl(store[k]).Some?
      modifies this
      ensures State() == Tried(old(State()), k, refused)
    {
      hide ParseDdl, Ddl;
      if k !in schema && k !in refused {
        schema := schema[k := ParseDdl(store[k]).value];
      } else {
        printed := printed + {store[k]};
      }
    }

    /** One statement per source key, and one that drops the saved statements. */
    method ApplySource(source: seq<ForeignKey>, refused: set<Key>, budget: nat) returns (left: nat, ok: bool)
      modifies this
      ensures ok ==> State() == Applying(old(State()), source, refused).(store := map[])
      ensures !ok ==> exists n :: 0 <= n <= |source| && State() == Applying(old(State()), source[..n], refused)
      ensures ok <==> budget > |source|
    {
      hide Ddl, ParseDdl, SourceDdl;
      left, ok := budget, false;
      ghost var d := State();
      for i := 0 to |source|
        invariant State() == Applying(d, source[..i], refused) && budget == left + i
      {
        assert source[..i + 1][..i] == source[..i];
        if left == 0 { return; }
        var fk := source[i];
        if KeyOf(fk) !in schema && KeyOf(fk) !in refused {
          schema := schema[KeyOf(fk) := fk];
        } else {
          printed := printed + {SourceDdl(fk)};
        }
        left := left - 1;
      }
      assert source[..|source|] == source;
      if left == 0 { return; }
      store, left, ok := map[], left - 1, true;
    }

    /** The end of a run that succeeded. A live import is sent a list, and takes an empty one for
        none; a dump may carry none. */
    method Finish(load: bool, source: Option<seq<ForeignKey>>, refused: set<Key>, budget: nat)
      returns (left: nat, ok: bool)
      requires Valid(State())
      modifies this
      ensures ok ==> State() == Finished(old(State()), load, source, refused)
      ensures !ok && Restores(load, source) ==> exists tried :: State() == Restoring(old(State()), refused, tried)
      ensures !ok && !Restores(load, source) ==>
                exists n :: 0 <= n <= |source.value| && State() == Applying(old(State()), source.value[..n], refused)
      ensures ok <==> budget > if Restores(load, source) then |old(store)| else |source.value|
    {
      hide Valid, Restored, Applying;
      match source
      case Some(fks) =>
        if !load && fks == [] {
          left, ok := Restore(budget, refused);
        } else {
          left, ok := ApplySource(fks, refused, budget);
        }
      case None =>
        left, ok := Restore(budget, refused);
    }

    /** The foreign keys over one run: preserved and dropped, then put back or replaced at its end, with
        the connection lost anywhere on the way. It is a run as `KeysSurvive` speaks of. */
    method RunOnce(load: bool, source: Option<seq<ForeignKey>>, refused: set<Key>, budget: nat) returns (ok: bool)
      requires Valid(State())
      modifies this
      ensures ok ==> State() == Finished(Preserved(old(State())), load, source, refused)
      ensures exists o :: Run(old(State()), o, State()) && (ok <==> Ended(o))
    {
      hide Valid, Finished, Preserved, Saving, Dropping, Restoring, Applying, Known, Ddl;
      ghost var d := State();
      var left;
      left, ok := PreserveAndDrop(budget);
      if !ok {
        LostEarly(d, State());
        return;
      }
      PreservedValid(d);
      left, ok := Finish(load, source, refused, left);
      if ok {
        FinishedLeaves(d, load, source, refused);
      } else {
        LostLate(d, load, source, refused, State());
      }
    }
  }

  lemma LostEarly(d: Keys, d': Keys)
    requires exists keys :: d' == Saving(d, keys) || d' == Dropping(d, keys)
    ensures exists o :: Run(d, o, d') && !Ended(o)
  {
    hide Saving, Dropping;
    var keys :| d' == Saving(d, keys) || d' == Dropping(d, keys);
    assert if d' == Saving(d, keys) then Run(d, LostInSave(keys), d') else Run(d, LostInDrop(keys), d');
  }

  lemma LostLate(d: Keys, load: bool, source: Option<seq<ForeignKey>>, refused: set<Key>, d': Keys)
    requires Restores(load, source) ==> exists tried :: d' == Restoring(Preserved(d), refused, tried)
    requires !Restores(load, source) ==>
               exists n :: 0 <= n <= |source.value| && d' == Applying(Preserved(d), source.value[..n], refused)
    ensures exists o :: Run(d, o, d') && !Ended(o)
  {
    hide Restoring, Applying, Preserved;
    if Restores(load, source) {
      var tried :| d' == Restoring(Preserved(d), refused, tried);
      assert Run(d, LostInRestore(refused, tried), d');
    } else {
      var n :| 0 <= n <= |source.value| && d' == Applying(Preserved(d), source.value[..n], refused);
      assert Run(d, LostInApply(source.value, n, refused), d');
    }
  }

  lemma PreservedValid(d: Keys)
    requires Valid(d)
    ensures Valid(Preserved(d))
  {
    PreservingKnows(d, d.schema.Keys);
  }

  lemma PreservedAll(d: Keys)
    ensures Preserved(d).schema == map[] && Preserved(d).store == Known(d)
    ensures forall k ::
              (k in Known(d) <==> k in d.schema || k in d.store)
              && (k in d.schema ==> Known(d)[k] == Ddl(d.schema[k]))
              && (k in d.store && k !in d.schema ==> Known(d)[k] == d.store[k])
  {
    hide Ddl;
    assert d.schema - d.schema.Keys == map[];
  }

  // ------------------------------------------------------------------
  // Runs
  // ------------------------------------------------------------------

  /** How a run left the keys: it was lost while preserving them (or at any time after, before they
      were put back), while restoring them, or while applying the source's, of which `count` had
      been tried; or it finished, one way or the other. */
  datatype Outcome =
    | LostInSave(keys: set<Key>)
    | LostInDrop(keys: set<Key>)
    | LostInRestore(refused: set<Key>, tried: set<Key>)
    | LostInApply(source: seq<ForeignKey>, count: nat, refused: set<Key>)
    | Done(refused: set<Key>)
    | DoneWithSource(source: seq<ForeignKey>, refused: set<Key>)

  predicate Ended(o: Outcome) { o.Done? || o.DoneWithSource? }

  ghost predicate Run(d: Keys, o: Outcome, d': Keys) {
    match o
    case LostInSave(keys) => d' == Saving(d, keys)
    case LostInDrop(keys) => d' == Dropping(d, keys)
    case LostInRestore(refused, tried) => d' == Restoring(Preserved(d), refused, tried)
    case LostInApply(source, count, refused) =>
      count <= |source| && d' == Applying(Preserved(d), source[..count], refused)
    case Done(refused) => d' == Restored(Preserved(d), refused)
    case DoneWithSource(source, refused) => d' == Applying(Preserved(d), source, refused).(store := map[])
  }

  ghost predicate AllRuns(states: seq<Keys>, runs: seq<Outcome>) {
    |states| == |runs| + 1 && Valid(states[0]) && forall i :: 0 <= i < |runs| ==> Run(states[i], runs[i], states[i + 1])
  }

  lemma SavedParse(d: Keys)
    requires Valid(d)
    ensures forall k :: k in d.store ==> ParseDdl(d.store[k]).Some?
  {
    hide Ddl, ParseDdl;
  }

  lemma SavingNone(d: Keys)
    ensures Saving(d, {}) == d
  {
    hide Known;
  }

  lemma SavingAll(d: Keys)
    ensures Saving(d, Known(d).Keys) == d.(store := Known(d))
  {
    StoreIsKnown(d);
    hide Known;
    assert Saving(d, Known(d).Keys).store == Known(d);
  }

  lemma StoreIsKnown(d: Keys)
    ensures d.store.Keys <= Known(d).Keys
  {
    hide Ddls;
  }

  lemma SaveOne(d: Keys, saved: set<Key>, k: Key)
    requires k in Known(d)
    ensures Saving(d, saved + {k}) == d.(store := Saving(d, saved).store[k := Known(d)[k]])
  {
    hide Known;
  }

  lemma DroppingNone(d: Keys)
    ensures Dropping(d, {}) == d.(store := Known(d))
  {
    hide Known;
    assert d.schema - {} == d.schema;
  }

  lemma DropOne(d: Keys, dropped: set<Key>, k: Key)
    ensures Dropping(d, dropped + {k}) == Dropping(d, dropped).(schema := Dropping(d, dropped).schema - {k})
  {
    hide Known;
    assert d.schema - (dropped + {k}) == d.schema - dropped - {k};
  }

  lemma RestoringNone(d: Keys, refused: set<Key>)
    ensures Restoring(d, refused, {}) == d
    ensures forall tried :: Restoring(d, refused, tried).store == d.store
  {
    assert Restoring(d, refused, {}).schema == d.schema;
  }

  lemma RestoreOne(d: Keys, refused: set<Key>, tried: set<Key>, k: Key)
    requires k in d.store && k !in tried && ParseDdl(d.store[k]).Some?
    ensures var now := Restoring(d, refused, tried);
            k in now.store && now.store[k] == d.store[k] && Restoring(d, refused, tried + {k}) == Tried(now, k, refused)
  {
    hide ParseDdl;
    var now, next := Restoring(d, refused, tried), Restoring(d, refused, tried + {k});
    assert k in now.schema <==> k in d.schema;
    if Runs(d, k, refused) {
      assert next.schema == now.schema[k := ParseDdl(d.store[k]).value];
      assert next.printed == now.printed;
    } else {
      assert next.schema == now.schema;
      assert next.printed == now.printed + {d.store[k]};
    }
  }

  lemma SavedDdl(d: Keys)
    requires Valid(d)
    ensures forall k :: k in Known(d) ==> Saved(k, Known(d)[k])
  {
    hide Ddl, ParseDdl;
    forall k | k in d.schema ensures Saved(k, Ddl(d.schema[k])) { DdlRecreates(d.schema[k]); }
  }

  /** Saving and dropping lose no key. */
  lemma PreservingKnows(d: Keys, keys: set<Key>)
    requires Valid(d)
    ensures Valid(Saving(d, keys)) && Known(Saving(d, keys)) == Known(d)
    ensures Valid(Dropping(d, keys)) && Known(Dropping(d, keys)) == Known(d)
  {
    hide Ddl, ParseDdl, Saved;
    SavedDdl(d);
    assert Valid(Saving(d, keys)) && Valid(Dropping(d, keys));
    hide Valid, Known, Saving, Dropping;
    forall k ensures SameKnown(d, Saving(d, keys), k) && SameKnown(d, Dropping(d, keys), k) {
      PreservingKnowsOne(d, keys, k);
    }
  }

  ghost predicate SameKnown(d: Keys, d': Keys, k: Key) {
    (k in Known(d') <==> k in Known(d)) && (k in Known(d) ==> Known(d')[k] == Known(d)[k])
  }

  lemma PreservingKnowsOne(d: Keys, keys: set<Key>, k: Key)
    ensures SameKnown(d, Saving(d, keys), k) && SameKnown(d, Dropping(d, keys), k)
  {
    hide Ddl;
  }

  /** Restoring loses no key while the saved statements are there. */
  lemma RestoringKnows(d: Keys, refused: set<Key>, tried: set<Key>)
    requires Valid(d)
    ensures Valid(Restoring(d, refused, tried)) && Known(Restoring(d, refused, tried)) == Known(d)
  {
    hide Ddl, ParseDdl;
    var next := Restoring(d, refused, tried);
    assert Valid(next);
    hide Valid, Known;
    forall k ensures SameKnown(d, next, k) {
      RestoringKnowsOne(d, refused, tried, k);
    }
  }

  lemma RestoringKnowsOne(d: Keys, refused: set<Key>, tried: set<Key>, k: Key)
    requires Valid(d)
    ensures SameKnown(d, Restoring(d, refused, tried), k)
  {
    hide Ddl, ParseDdl;
  }

  /** Every key was recreated from its statement, or the statement was printed. */
  lemma RestoredKnows(d: Keys, refused: set<Key>, k: Key)
    requires Valid(d) && k in Known(d)
    ensures Valid(Restored(d, refused))
    ensures var d' := Restored(d, refused);
            (k in Known(d') && Known(d')[k] == Known(d)[k]) || (k in d.store && d.store[k] in d'.printed)
  {
    hide Ddl, ParseDdl;
  }

  /** Known in the schema or the store, or printed. */
  ghost predicate Accounted(d: Keys, k: Key, ddl: string) {
    (k in Known(d) && Known(d)[k] == ddl) || ddl in d.printed
  }

  /** The source list a run applied, as far as it got. */
  function Sourced(o: Outcome): seq<ForeignKey> {
    match o
    case LostInApply(source, count, _) => if count <= |source| then source[..count] else []
    case DoneWithSource(source, _) => source
    case _ => []
  }

  /** The run gave the name to a key of the source. */
  ghost predicate Replaces(o: Outcome, k: Key, ddl: string) {
    exists i :: 0 <= i < |Sourced(o)| && KeyOf(Sourced(o)[i]) == k && ddl == Ddl(Sourced(o)[i])
  }

  /** A run that does not finish on a source list keeps account of a key, or replaces it. */
  lemma RunAccounts(d: Keys, o: Outcome, d': Keys, k: Key, ddl: string)
    requires Valid(d) && Run(d, o, d') && Accounted(d, k, ddl)
    ensures Valid(d')
    ensures !o.DoneWithSource? ==>
              Accounted(d', k, ddl) || exists other :: Replaces(o, k, other) && Accounted(d', k, other)
  {
    hide Ddl, ParseDdl, Valid, Applied, Unapplied;
    PreservingKnows(d, d.schema.Keys);
    match o
    case LostInSave(keys) => PreservingKnows(d, keys);
    case LostInDrop(keys) => PreservingKnows(d, keys);
    case LostInRestore(refused, tried) => RestoringKnows(Preserved(d), refused, tried);
    case LostInApply(source, count, refused) =>
      ApplyAccounts(d, source[..count], refused, k, ddl);
      if i :| 0 <= i < count && KeyOf(source[..count][i]) == k && Accounted(d', k, Ddl(source[..count][i])) {
        assert Sourced(o) == source[..count];
        assert KeyOf(Sourced(o)[i]) == k && Ddl(source[..count][i]) == Ddl(Sourced(o)[i]);
      }
    case Done(refused) =>
      if k in Known(d) { RestoredKnows(Preserved(d), refused, k); } else { RestoredValid(Preserved(d), refused); }
    case DoneWithSource(source, refused) => AppliedValid(Preserved(d), source, refused);
  }

  lemma AppliedValid(d: Keys, source: seq<ForeignKey>, refused: set<Key>)
    requires Valid(d)
    ensures Valid(Applying(d, source, refused)) && Valid(Applying(d, source, refused).(store := map[]))
  {
    hide Ddl, ParseDdl, Saved, Applied, Unapplied;
    forall k | k in Applied(d.schema, source, refused) ensures Names(k, Applied(d.schema, source, refused)[k]) {
      AppliedHolds(d.schema, source, refused, k);
    }
  }

  lemma ApplyAccounts(d: Keys, source: seq<ForeignKey>, refused: set<Key>, k: Key, ddl: string)
    requires Valid(d) && Valid(Preserved(d)) && Known(Preserved(d)) == Known(d) && Accounted(d, k, ddl)
    ensures var d' := Applying(Preserved(d), source, refused);
            && Valid(d')
            && (Accounted(d', k, ddl) ||
                exists i :: 0 <= i < |source| && KeyOf(source[i]) == k && Accounted(d', k, Ddl(source[i])))
  {
    hide Ddl, ParseDdl, Valid, Applied, Unapplied;
    AppliedValid(Preserved(d), source, refused);
    AppliedHolds(Preserved(d).schema, source, refused, k);
    assert Preserved(d).schema == map[];
  }

  lemma RestoredValid(d: Keys, refused: set<Key>)
    requires Valid(d)
    ensures Valid(Restored(d, refused))
  {
    hide Ddl, ParseDdl;
  }

  /** Among the first `n` runs: one gave the name to this key of the source; one finished on a
      source list, and discarded the saved statements. */
  ghost predicate Replaced(runs: seq<Outcome>, n: nat, k: Key, ddl: string)
    requires n <= |runs|
  {
    exists i :: 0 <= i < n && Replaces(runs[i], k, ddl)
  }

  ghost predicate Discarded(runs: seq<Outcome>, n: nat)
    requires n <= |runs|
  {
    exists i :: 0 <= i < n && runs[i].DoneWithSource?
  }

  ghost predicate StillAccounted(d: Keys, runs: seq<Outcome>, n: nat, k: Key, ddl: string)
    requires n <= |runs|
  {
    || Accounted(d, k, ddl)
    || (exists other :: Replaced(runs, n, k, other) && Accounted(d, k, other))
    || Discarded(runs, n)
  }

  /** Over any sequence of runs, interrupted anywhere: every key the schema or the store had at
      first is there with its definition, or its statement has been printed; or the same holds of a
      key of that name from a source list that a run applied in its place; or a run has finished on
      a source list and discarded what was saved. */
  lemma {:induction false} KeysSurvive(states: seq<Keys>, runs: seq<Outcome>, k: Key)
    requires AllRuns(states, runs) && k in Known(states[0])
    ensures Valid(states[|runs|]) && StillAccounted(states[|runs|], runs, |runs|, k, Known(states[0])[k])
  {
    KeysSurviveTo(states, runs, k, |runs|);
  }

  lemma {:induction false} KeysSurviveTo(states: seq<Keys>, runs: seq<Outcome>, k: Key, n: nat)
    requires AllRuns(states, runs) && k in Known(states[0]) && n <= |runs|
    ensures Valid(states[n]) && StillAccounted(states[n], runs, n, k, Known(states[0])[k])
  {
    hide Valid, Known, Run, Accounted, Replaces;
    var first := Known(states[0])[k];
    if n == 0 {
      AccountedFirst(states[0], k);
    } else {
      var d, o, d' := states[n - 1], runs[n - 1], states[n];
      KeysSurviveTo(states, runs, k, n - 1);
      assert Run(d, o, d');
      if o.DoneWithSource? {
        assert runs[n - 1].DoneWithSource?;
        RunValid(d, o, d');
      } else if Discarded(runs, n - 1) {
        RunValid(d, o, d');
      } else if Accounted(d, k, first) {
        RunAccounts(d, o, d', k, first);
        if other :| Replaces(o, k, other) && Accounted(d', k, other) { assert Replaced(runs, n, k, other); }
      } else {
        var other :| Replaced(runs, n - 1, k, other) && Accounted(d, k, other);
        RunAccounts(d, o, d', k, other);
        assert Replaced(runs, n, k, other);
        if newer :| Replaces(o, k, newer) && Accounted(d', k, newer) { assert Replaced(runs, n, k, newer); }
      }
    }
  }

  lemma {:induction false} SourceAccounted(schema: map<Key, ForeignKey>, source: seq<ForeignKey>, refused: set<Key>,
                                           i: nat)
    requires i < |source|
    ensures || SourceDdl(source[i]) in Unapplied(schema, source, refused)
            || var applied := Applied(schema, source, refused);
               KeyOf(source[i]) in applied && applied[KeyOf(source[i])] == source[i]
  {
    hide SourceDdl;
    var n := |source| - 1;
    if i < n {
      SourceAccounted(schema, source[..n], refused, i);
      if KeyOf(source[i]) in Applied(schema, source[..n], refused) {
        assert KeyOf(source[i]) == KeyOf(source[n])
               ==> Applied(schema, source, refused) == Applied(schema, source[..n], refused);
      }
    }
  }

  /** A run that finishes on a source list leaves the source's keys and no others, each there as the
      source has it or printed, and nothing saved: that is what is known from then on. */
  lemma SourceLeaves(d: Keys, source: seq<ForeignKey>, refused: set<Key>, d': Keys)
    requires Valid(d) && Run(d, DoneWithSource(source, refused), d')
    ensures d'.schema == Applied(map[], source, refused) && d'.store == map[] && Known(d') == Ddls(d'.schema)
    ensures forall k :: k in Known(d') <==> k !in refused && exists i :: 0 <= i < |source| && KeyOf(source[i]) == k
    ensures forall i :: 0 <= i < |source| ==>
              || SourceDdl(source[i]) in d'.printed
              || (KeyOf(source[i]) in d'.schema && d'.schema[KeyOf(source[i])] == source[i])
  {
    hide Ddl, SourceDdl, Valid, Applied, Unapplied;
    assert Preserved(d).schema == map[];
    forall k ensures k in Known(d') <==> k !in refused && exists i :: 0 <= i < |source| && KeyOf(source[i]) == k {
      AppliedHolds(map[], source, refused, k);
    }
    forall i | 0 <= i < |source|
      ensures SourceDdl(source[i]) in d'.printed
              || (KeyOf(source[i]) in d'.schema && d'.schema[KeyOf(source[i])] == source[i])
    {
      SourceAccounted(map[], source, refused, i);
    }
  }

  /** The account can be taken up anywhere: every key known before run `m` is accounted for by the
      runs since, and outright if none of them finished on a source list. */
  lemma KeysSurviveSince(states: seq<Keys>, runs: seq<Outcome>, m: nat, k: Key)
    requires AllRuns(states, runs) && m <= |runs| && k in Known(states[m])
    ensures StillAccounted(states[|runs|], runs[m..], |runs| - m, k, Known(states[m])[k])
    ensures (forall i :: m <= i < |runs| ==> !runs[i].DoneWithSource?) ==>
              || Accounted(states[|runs|], k, Known(states[m])[k])
              || exists other :: Replaced(runs[m..], |runs| - m, k, other) && Accounted(states[|runs|], k, other)
  {
    hide Valid, Known, Run, Accounted, Replaces;
    RunsValid(states, runs, m);
    KeysSurvive(states[m..], runs[m..], k);
  }

  lemma {:induction false} RunsValid(states: seq<Keys>, runs: seq<Outcome>, n: nat)
    requires AllRuns(states, runs) && n <= |runs|
    ensures Valid(states[n])
  {
    hide Valid, Run;
    if n > 0 {
      RunsValid(states, runs, n - 1);
      RunValid(states[n - 1], runs[n - 1], states[n]);
    }
  }

  lemma AccountedFirst(d: Keys, k: Key)
    requires k in Known(d)
    ensures Accounted(d, k, Known(d)[k])
  {
  }

  lemma RunValid(d: Keys, o: Outcome, d': Keys)
    requires Valid(d) && Run(d, o, d')
    ensures Valid(d')
  {
    hide Valid, Known, Ddl, ParseDdl, Saving, Dropping, Restoring, Applying;
    PreservingKnows(d, d.schema.Keys);
    match o
    case LostInSave(keys) => PreservingKnows(d, keys);
    case LostInDrop(keys) => PreservingKnows(d, keys);
    case LostInRestore(refused, tried) => RestoringKnows(Preserved(d), refused, tried);
    case LostInApply(source, count, refused) => AppliedValid(Preserved(d), source[..count], refused);
    case Done(refused) => RestoredValid(Preserved(d), refused);
    case DoneWithSource(source, refused) => AppliedValid(Preserved(d), source, refused);
  }

  /** What is known after runs that did not finish: what was, under the source keys they applied. */
  ghost function KnownAfter(known: map<Key, string>, runs: seq<Outcome>): map<Key, string> {
    if runs == [] then known
    else
      var o := runs[|runs| - 1];
      KnownAfter(known, runs[..|runs| - 1]) + Ddls(Applied(map[], Sourced(o), if o.LostInApply? then o.refused else {}))
  }

  lemma {:induction false} LostRunsKnow(states: seq<Keys>, runs: seq<Outcome>, n: nat)
    requires AllRuns(states, runs) && n <= |runs| && forall i :: 0 <= i < n ==> !Ended(runs[i])
    ensures Valid(states[n]) && Known(states[n]) == KnownAfter(Known(states[0]), runs[..n])
  {
    hide Valid, Known, Saving, Dropping, Restoring, Applying, Applied, Ddls;
    if n == 0 {
      assert runs[..0] == [];
    } else {
      LostRunsKnow(states, runs, n - 1);
      assert runs[..n][..n - 1] == runs[..n - 1];
      assert Run(states[n - 1], runs[n - 1], states[n]);
      LostRunKnows(states[n - 1], runs[n - 1], states[n]);
    }
  }

  lemma LostRunKnows(d: Keys, o: Outcome, d': Keys)
    requires Valid(d) && Run(d, o, d') && !Ended(o)
    ensures Valid(d')
    ensures Known(d') == Known(d) + Ddls(Applied(map[], Sourced(o), if o.LostInApply? then o.refused else {}))
  {
    hide Valid, Known, Saving, Dropping, Restoring, Ddl;
    PreservingKnows(d, d.schema.Keys);
    NoneApplied();
    match o
    case LostInSave(keys) => PreservingKnows(d, keys);
    case LostInDrop(keys) => PreservingKnows(d, keys);
    case LostInRestore(refused, tried) => RestoringKnows(Preserved(d), refused, tried);
    case LostInApply(source, count, refused) =>
      AppliedValid(Preserved(d), source[..count], refused);
      ApplyKnows(d, source[..count], refused);
  }

  lemma NoneApplied()
    ensures Ddls(Applied(map[], [], {})) == map[]
  {
  }

  lemma ApplyKnows(d: Keys, source: seq<ForeignKey>, refused: set<Key>)
    ensures Known(Applying(Preserved(d), source, refused)) == Known(d) + Ddls(Applied(map[], source, refused))
  {
    hide Ddl, Unapplied, Applied;
    assert Preserved(d).schema == map[];
  }

  /** Runs that applied no source keys leave everything known as it was. */
  lemma {:induction false} NothingApplied(known: map<Key, string>, runs: seq<Outcome>)
    requires forall i :: 0 <= i < |runs| ==> Sourced(runs[i]) == []
    ensures KnownAfter(known, runs) == known
  {
    if runs != [] {
      NothingApplied(known, runs[..|runs| - 1]);
      assert Applied(map[], [], if runs[|runs| - 1].LostInApply? then runs[|runs| - 1].refused else {}) == map[];
      assert Ddls(map[]) == map[];
    }
  }

  /** After any number of interrupted runs, one that finishes by restoring with MySQL refusing
      none leaves exactly the keys there were, under those source keys the interrupted runs had
      applied, and no saved statements. */
  lemma KeysComeBack(states: seq<Keys>, runs: seq<Outcome>)
    requires AllRuns(states, runs) && runs != [] && runs[|runs| - 1] == Done({})
    requires forall i :: 0 <= i < |runs| - 1 ==> !Ended(runs[i])
    ensures Ddls(states[|runs|].schema) == KnownAfter(Known(states[0]), runs[..|runs| - 1])
            && states[|runs|].store == map[]
    ensures (forall i :: 0 <= i < |runs| - 1 ==> Sourced(runs[i]) == [])
            ==> Ddls(states[|runs|].schema) == Known(states[0])
    ensures (forall i :: 0 <= i < |runs| - 1 ==> Sourced(runs[i]) == []) && states[0].store == map[]
            ==> states[|runs|].schema == states[0].schema
  {
    hide Valid, Known, Saving, Dropping, Restoring, Ddls, KnownAfter, Applying;
    var n := |runs| - 1;
    LostRunsKnow(states, runs, n);
    assert Run(states[n], runs[n], states[n + 1]);
    RestoresAll(states[n]);
    if forall i :: 0 <= i < n ==> Sourced(runs[i]) == [] {
      NothingApplied(Known(states[0]), runs[..n]);
      if states[0].store == map[] { SameDdls(states[n + 1].schema, states[0]); }
    }
  }

  lemma RestoresAll(d: Keys)
    requires Valid(d)
    ensures Ddls(Restored(Preserved(d), {}).schema) == Known(d)
  {
    hide Ddl, ParseDdl;
    var p := Preserved(d);
    PreservingKnows(d, d.schema.Keys);
    assert p.store == Known(d) && p.schema == map[];
    var back := Restored(p, {}).schema;
    forall k ensures (k in back <==> k in p.store) && (k in back ==> Ddl(back[k]) == p.store[k]) { }
  }

  lemma SameDdls(schema: map<Key, ForeignKey>, d: Keys)
    requires Ddls(schema) == Known(d) && d.store == map[]
    ensures schema == d.schema
  {
    hide Ddl, ParseDdl;
    assert Known(d) == Ddls(d.schema);
    forall k ensures (k in schema <==> k in d.schema) && (k in schema ==> schema[k] == d.schema[k]) {
      assert k in Ddls(schema) <==> k in Ddls(d.schema);
      if k in schema {
        assert Ddls(schema)[k] == Ddls(d.schema)[k];
        DdlRecreates(schema[k]);
        DdlRecreates(d.schema[k]);
      }
    }
  }

  /** Applying source keys keeps every key there is, adds each that is not refused, and gives a
      name that comes twice its first definition. */
  lemma {:induction false} AppliedHolds(schema: map<Key, ForeignKey>, source: seq<ForeignKey>, refused: set<Key>,
                                        k: Key)
    ensures k in Applied(schema, source, refused) <==>
            k in schema || (k !in refused && exists i :: 0 <= i < |source| && KeyOf(source[i]) == k)
    ensures k in schema ==> Applied(schema, source, refused)[k] == schema[k]
    ensures k !in schema && k in Applied(schema, source, refused) ==>
              exists i :: 0 <= i < |source| && Applied(schema, source, refused)[k] == source[i] && KeyOf(source[i]) == k
                          && forall j :: 0 <= j < i ==> KeyOf(source[j]) != k
  {
    if source != [] {
      var n := |source| - 1;
      AppliedHolds(schema, source[..n], refused, k);
      if i :| 0 <= i < |source| && KeyOf(source[i]) == k {
        assert i < n ==> source[..n][i] == source[i];
      }
      assert forall i :: 0 <= i < n ==> source[..n][i] == source[i];
    }
  }

  /** The local keys after a run that was sent keys of the source: exactly those listed that MySQL
      did not refuse, each with its first definition, whatever there was before. */
  ghost predicate HoldsSource(schema: map<Key, ForeignKey>, source: seq<ForeignKey>, refused: set<Key>) {
    && (forall t, n ::
          (t, n) in schema <==>
          (t, n) !in refused && exists i :: 0 <= i < |source| && source[i].table == t && source[i].name == n)
    && (forall i ::
          0 <= i < |source| && (source[i].table, source[i].name) !in refused
          && (forall j :: 0 <= j < i ==> source[j].table != source[i].table || source[j].name != source[i].name)
          ==> (source[i].table, source[i].name) in schema && schema[(source[i].table, source[i].name)] == source[i])
  }

  /** The local keys after a run that restores: exactly those of the schema and of the store before
      that MySQL does not refuse; the schema's as they were, and a saved one as its statement says. */
  ghost predicate HoldsLocal(schema: map<Key, ForeignKey>, d: Keys, refused: set<Key>) {
    && (forall k :: k in schema <==> k !in refused && (k in d.schema || k in d.store))
    && (forall k :: k in d.schema && k !in refused ==> schema[k] == d.schema[k])
    && (forall k :: k in d.store && k !in d.schema && k !in refused ==> ParseDdl(d.store[k]) == Some(schema[k]))
  }

  /** How an import or a load ends. Sent a list of the source's keys that is not empty, or, for a
      load, any list: on the source's keys. Sent none, or, for an import, an empty list: on the keys
      there were. Nothing stays saved either way. */
  lemma FinishedLeaves(d: Keys, load: bool, source: Option<seq<ForeignKey>>, refused: set<Key>)
    requires Valid(d)
    ensures var end := Finished(Preserved(d), load, source, refused);
            && end.store == map[]
            && (source.Some? && (source.value != [] || load) ==> HoldsSource(end.schema, source.value, refused))
            && (source.None? || (source.value == [] && !load) ==> HoldsLocal(end.schema, d, refused))
            && Run(d, if source.Some? && (source.value != [] || load) then DoneWithSource(source.value, refused)
                      else Done(refused), end)
  {
    hide Ddl, ParseDdl, Applied, Unapplied, HoldsSource, HoldsLocal, Valid;
    PreservedAll(d);
    if source.Some? && (source.value != [] || load) {
      SourceHeld(source.value, refused);
    } else {
      LocalHeld(d, refused);
    }
  }

  /** And every key that did not make it has been printed: a statement for each of the source's that
      is not there as listed, or for each known key that MySQL refused. */
  lemma FinishedPrints(d: Keys, load: bool, source: Option<seq<ForeignKey>>, refused: set<Key>)
    requires Valid(d)
    ensures var end := Finished(Preserved(d), load, source, refused);
            && d.printed <= end.printed
            && (source.Some? && (source.value != [] || load) ==>
                  forall fk :: fk in source.value ==>
                    || SourceDdl(fk) in end.printed
                    || ((fk.table, fk.name) in end.schema && end.schema[(fk.table, fk.name)] == fk))
            && (source.None? || (source.value == [] && !load) ==>
                  && (forall k :: k in d.schema && k in refused ==> Ddl(d.schema[k]) in end.printed)
                  && (forall k :: k in d.store && k !in d.schema && k in refused ==> d.store[k] in end.printed))
  {
    hide Ddl, ParseDdl, SourceDdl, Applied, Unapplied, Valid;
    PreservedAll(d);
    var end := Finished(Preserved(d), load, source, refused);
    if source.Some? && (source.value != [] || load) {
      forall fk | fk in source.value
        ensures SourceDdl(fk) in end.printed || (KeyOf(fk) in end.schema && end.schema[KeyOf(fk)] == fk)
      {
        var i :| 0 <= i < |source.value| && source.value[i] == fk;
        SourceAccounted(map[], source.value, refused, i);
      }
    }
  }

  lemma SourceHeld(source: seq<ForeignKey>, refused: set<Key>)
    ensures HoldsSource(Applied(map[], source, refused), source, refused)
  {
    hide Applied;
    var schema := Applied(map[], source, refused);
    forall t, n
      ensures (t, n) in schema <==>
              (t, n) !in refused && exists i :: 0 <= i < |source| && source[i].table == t && source[i].name == n
    {
      AppliedHolds(map[], source, refused, (t, n));
      if i :| 0 <= i < |source| && source[i].table == t && source[i].name == n { assert KeyOf(source[i]) == (t, n); }
    }
    forall i | 0 <= i < |source| && (source[i].table, source[i].name) !in refused
               && forall j :: 0 <= j < i ==> source[j].table != source[i].table || source[j].name != source[i].name
      ensures (source[i].table, source[i].name) in schema && schema[(source[i].table, source[i].name)] == source[i]
    {
      AppliedHolds(map[], source, refused, (source[i].table, source[i].name));
      assert KeyOf(source[i]) == (source[i].table, source[i].name);
    }
  }

  lemma LocalHeld(d: Keys, refused: set<Key>)
    requires Valid(d)
    ensures HoldsLocal(Restored(Preserved(d), refused).schema, d, refused)
  {
    hide Ddl, ParseDdl;
    PreservedAll(d);
    var p, schema := Preserved(d), Restored(Preserved(d), refused).schema;
    forall k | k in d.schema && k !in refused ensures k in schema && schema[k] == d.schema[k] {
      DdlRecreates(d.schema[k]);
    }
    forall k | k in d.schema ensures ParseDdl(p.store[k]).Some? { DdlRecreates(d.schema[k]); }
    forall k ensures k in schema <==> k !in refused && (k in d.schema || k in d.store) { }
  }

  /** A live import and the load of a dump that carries the same list of source keys leave the
      same keys exactly when the list is not empty, or there is nothing to restore: every key there
      was is refused, and its statement already printed. */
  lemma ImportAndLoadKeysAgree(d: Keys, source: seq<ForeignKey>, refused: set<Key>)
    requires Valid(d)
    ensures Finished(Preserved(d), false, Some(source), refused) == Finished(Preserved(d), true, Some(source), refused)
            <==> source != [] || forall k :: k in Known(d) ==> k in refused && Known(d)[k] in d.printed
  {
    hide Ddl, ParseDdl, Valid, Known, Restored, Applying;
    var p := Preserved(d);
    PreservingKnows(d, d.schema.Keys);
    assert p.schema == map[] && p.store == Known(d) && p.printed == d.printed;
    if source == [] {
      NothingApplying(p, refused);
      NothingRestored(p, refused);
    }
  }

  lemma NothingApplying(d: Keys, refused: set<Key>)
    ensures Applying(d, [], refused) == d
  {
  }

  /** Restoring changes no more than the store exactly when everything is refused and printed. */
  lemma NothingRestored(d: Keys, refused: set<Key>)
    requires Valid(d) && d.schema == map[]
    ensures Restored(d, refused) == d.(store := map[])
            <==> forall k :: k in d.store ==> k in refused && d.store[k] in d.printed
  {
    hide Ddl, ParseDdl;
    var back := Restored(d, refused);
    forall k | k in d.store
      ensures k !in refused ==> k in back.schema
      ensures k in refused ==> d.store[k] in back.printed
    {
    }
    if forall k :: k in d.store ==> k in refused && d.store[k] in d.printed {
      assert back.schema == map[];
      assert back.printed == d.printed;
    }
  }
}
