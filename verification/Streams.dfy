/** The server's message stream, and what it means for it to be well formed: every table
    is announced once, then its chunks, then its end with their total row count. */
module Streams {

  /** A table message; `data` is a chunk's payload and `rows` its row count. */
  datatype Message<+D> =
    | Schema(table: string)
    | Data(table: string, rows: nat, data: D)
    | TableDone(table: string, rows: nat)

  /** Where one table stands. `Bare` is a table whose end arrives though it was never
      announced. */
  datatype Phase = Absent | Open(rows: nat) | Ended(rows: nat) | Bare | Broken

  const CHUNK_ROW_LIMIT: nat := 10_000

  function Advance<D>(ph: Phase, m: Message<D>): Phase {
    match (ph, m)
    case (Absent, Schema(_)) => Open(0)
    case (Open(n), Data(_, k, _)) => if 0 < k <= CHUNK_ROW_LIMIT then Open(n + k) else Broken
    case (Open(n), TableDone(_, k)) => if k == n then Ended(n) else Broken
    case (Absent, TableDone(_, k)) => if k == 0 then Bare else Broken
    case _ => Broken
  }

  function PhaseOf<D>(ms: seq<Message<D>>, t: string): Phase {
    if ms == [] then Absent
    else
      var m := ms[|ms| - 1];
      var before := PhaseOf(ms[..|ms| - 1], t);
      if m.table == t then Advance(before, m) else before
  }

  /** Every table the stream mentions is announced and ended. */
  ghost predicate WellFormed<D>(ms: seq<Message<D>>) {
    forall t :: PhaseOf(ms, t).Absent? || PhaseOf(ms, t).Ended?
  }

  /** A table may also be ended without ever being announced: it was looked up in vain. */
  ghost predicate Orderly<D>(ms: seq<Message<D>>) {
    forall t :: PhaseOf(ms, t).Absent? || PhaseOf(ms, t).Ended? || PhaseOf(ms, t).Bare?
  }

  predicate Begun(ph: Phase) { ph.Open? || ph.Ended? }

  lemma PhaseOfAppend<D>(ms: seq<Message<D>>, m: Message<D>, t: string)
    ensures PhaseOf(ms + [m], t) == if m.table == t then Advance(PhaseOf(ms, t), m) else PhaseOf(ms, t)
  {
    assert (ms + [m])[..|ms|] == ms;
  }

  ghost predicate Mentions<D>(ms: seq<Message<D>>, t: string) {
    exists i :: 0 <= i < |ms| && ms[i].table == t
  }

  lemma {:induction false} Unmentioned<D>(ms: seq<Message<D>>, t: string)
    ensures !Mentions(ms, t) ==> PhaseOf(ms, t) == Absent
  {
    if ms != [] {
      MentionsInit(ms, t);
      Unmentioned(ms[..|ms| - 1], t);
    }
  }

  // ------------------------------------------------------------------
  // Several producers, one channel
  // ------------------------------------------------------------------

  /** `whole` is an interleaving of two producers' messages. */
  ghost predicate Merged<D>(a: seq<Message<D>>, b: seq<Message<D>>, whole: seq<Message<D>>)
    decreases |whole|
  {
    if whole == [] then a == [] && b == []
    else
      var n, last := |whole| - 1, whole[|whole| - 1];
      || (a != [] && a[|a| - 1] == last && Merged(a[..|a| - 1], b, whole[..n]))
      || (b != [] && b[|b| - 1] == last && Merged(a, b[..|b| - 1], whole[..n]))
  }

  /** `whole` is an interleaving of all the producers' messages. */
  ghost predicate MergedAll<D(!new)>(parts: seq<seq<Message<D>>>, whole: seq<Message<D>>)
    decreases |parts|, 0
  {
    if parts == [] then whole == [] else MergedWith(parts[..|parts| - 1], parts[|parts| - 1], whole)
  }

  ghost predicate MergedWith<D(!new)>(parts: seq<seq<Message<D>>>, last: seq<Message<D>>, whole: seq<Message<D>>)
    decreases |parts|, 1
  {
    exists rest :: MergedAll(parts, rest) && Merged(rest, last, whole)
  }

  /** A table only one producer mentions keeps that producer's phase. */
  lemma {:induction false} MergedPhase<D>(a: seq<Message<D>>, b: seq<Message<D>>, whole: seq<Message<D>>, t: string)
    requires Merged(a, b, whole)
    ensures !Mentions(b, t) ==> PhaseOf(whole, t) == PhaseOf(a, t)
    ensures !Mentions(a, t) ==> PhaseOf(whole, t) == PhaseOf(b, t)
    ensures Mentions(whole, t) ==> Mentions(a, t) || Mentions(b, t)
    decreases |whole|
  {
    if whole != [] {
      var n, last := |whole| - 1, whole[|whole| - 1];
      if a != [] && a[|a| - 1] == last && Merged(a[..|a| - 1], b, whole[..n]) {
        MergedPhase(a[..|a| - 1], b, whole[..n], t);
        MentionsInit(a, t);
        MentionsInit(whole, t);
      } else {
        MergedPhase(a, b[..|b| - 1], whole[..n], t);
        MentionsInit(b, t);
        MentionsInit(whole, t);
      }
    }
  }

  lemma MentionsInit<D>(ms: seq<Message<D>>, t: string)
    requires ms != []
    ensures Mentions(ms, t) <==> Mentions(ms[..|ms| - 1], t) || ms[|ms| - 1].table == t
  {
    if Mentions(ms[..|ms| - 1], t) {
      var i :| 0 <= i < |ms| - 1 && ms[..|ms| - 1][i].table == t;
      assert ms[i].table == t;
    }
    if Mentions(ms, t) && ms[|ms| - 1].table != t {
      var i :| 0 <= i < |ms| && ms[i].table == t;
      assert ms[..|ms| - 1][i].table == t;
    }
  }

  /** However the producers interleave, a table owned by producer `k` alone reads as that
      producer sent it. */
  lemma {:induction false} MergedAllPhase<D(!new)>(parts: seq<seq<Message<D>>>, whole: seq<Message<D>>, t: string,
                                                   k: nat)
    requires MergedAll(parts, whole) && k < |parts|
    requires forall i :: 0 <= i < |parts| && i != k ==> !Mentions(parts[i], t)
    ensures PhaseOf(whole, t) == PhaseOf(parts[k], t)
    decreases |parts|
  {
    var n := |parts| - 1;
    var rest :| MergedAll(parts[..n], rest) && Merged(rest, parts[n], whole);
    MergedPhase(rest, parts[n], whole, t);
    if k == n {
      MergedAllSilent(parts[..n], rest, t);
    } else {
      MergedAllPhase(parts[..n], rest, t, k);
    }
  }

  lemma {:induction false} MergedAllSilent<D(!new)>(parts: seq<seq<Message<D>>>, whole: seq<Message<D>>, t: string)
    requires MergedAll(parts, whole)
    requires forall i :: 0 <= i < |parts| ==> !Mentions(parts[i], t)
    ensures !Mentions(whole, t)
    decreases |parts|
  {
    if parts != [] {
      var n := |parts| - 1;
      var rest :| MergedAll(parts[..n], rest) && Merged(rest, parts[n], whole);
      MergedAllSilent(parts[..n], rest, t);
      MergedPhase(rest, parts[n], whole, t);
    }
  }

  // ------------------------------------------------------------------
  // What a phase says of a table's messages
  // ------------------------------------------------------------------

  /** The messages of one table, in order. */
  function About<D>(ms: seq<Message<D>>, t: string): seq<Message<D>> {
    if ms == [] then []
    else About(ms[..|ms| - 1], t) + if ms[|ms| - 1].table == t then [ms[|ms| - 1]] else []
  }

  /** Chunks, none of them empty or over the limit. */
  ghost predicate AreChunks<D>(ms: seq<Message<D>>) {
    forall i :: 0 <= i < |ms| ==> ms[i].Data? && 0 < ms[i].rows <= 10_000
  }

  function TotalRows<D>(ms: seq<Message<D>>): nat {
    if ms == [] then 0
    else TotalRows(ms[..|ms| - 1]) + if ms[|ms| - 1].Data? then ms[|ms| - 1].rows else 0
  }

  ghost predicate IsOpen<D>(ms: seq<Message<D>>, n: nat) {
    ms != [] && ms[0].Schema? && AreChunks(ms[1..]) && TotalRows(ms[1..]) == n
  }

  /** The schema once, then chunks of at most 10,000 rows, then an end with the number of rows. */
  ghost predicate IsEnded<D>(ms: seq<Message<D>>, n: nat) {
    |ms| > 1 && IsOpen(ms[..|ms| - 1], n) && ms[|ms| - 1].TableDone? && ms[|ms| - 1].rows == n
  }

  /** An end with no rows, and nothing else. */
  ghost predicate IsBare<D>(ms: seq<Message<D>>) { |ms| == 1 && ms[0].TableDone? && ms[0].rows == 0 }

  /** A table is open, ended or ended bare exactly when its messages have that form. */
  lemma {:induction false} PhaseMeans<D>(ms: seq<Message<D>>, t: string)
    ensures PhaseOf(ms, t).Absent? <==> About(ms, t) == []
    ensures forall n :: PhaseOf(ms, t) == Open(n) <==> IsOpen(About(ms, t), n)
    ensures forall n :: PhaseOf(ms, t) == Ended(n) <==> IsEnded(About(ms, t), n)
    ensures PhaseOf(ms, t).Bare? <==> IsBare(About(ms, t))
  {
    if ms != [] {
      var n := |ms| - 1;
      PhaseMeans(ms[..n], t);
      if ms[n].table == t {
        OneMessageMore(About(ms[..n], t), PhaseOf(ms[..n], t), ms[n]);
      } else {
        assert About(ms[..n], t) + [] == About(ms[..n], t);
      }
    }
  }

  ghost predicate Shows<D>(ms: seq<Message<D>>, ph: Phase) {
    && (ph.Absent? <==> ms == [])
    && (forall n :: ph == Open(n) <==> IsOpen(ms, n))
    && (forall n :: ph == Ended(n) <==> IsEnded(ms, n))
    && (ph.Bare? <==> IsBare(ms))
  }

  lemma OneMessageMore<D>(ms: seq<Message<D>>, ph: Phase, m: Message<D>)
    requires Shows(ms, ph)
    ensures Shows(ms + [m], Advance(ph, m))
  {
    forall n ensures IsOpen(ms + [m], n) <==> Advance(ph, m) == Open(n) { OpenMore(ms, ph, m, n); }
    assert (ms + [m])[..|ms|] == ms;
  }

  lemma OpenMore<D>(ms: seq<Message<D>>, ph: Phase, m: Message<D>, n: nat)
    requires Shows(ms, ph)
    ensures IsOpen(ms + [m], n) <==> Advance(ph, m) == Open(n)
  {
    if ms == [] {
      assert ([m])[1..] == [];
    } else {
      var rest := ms[1..];
      assert (ms + [m])[1..] == rest + [m];
      assert (rest + [m])[..|rest|] == rest;
      assert AreChunks(rest + [m]) <==> AreChunks(rest) && m.Data? && 0 < m.rows <= 10_000 by {
        if AreChunks(rest + [m]) {
          assert forall i :: 0 <= i < |rest| ==> rest[i] == (rest + [m])[i];
          assert (rest + [m])[|rest|] == m;
        }
      }
      if ms[0].Schema? && AreChunks(rest) { assert IsOpen(ms, TotalRows(rest)); }
    }
  }

  // ------------------------------------------------------------------
  // Every interleaving is one
  // ------------------------------------------------------------------

  /** The producers once producer `k` has not sent its last message. */
  function Before<D>(parts: seq<seq<Message<D>>>, k: nat): seq<seq<Message<D>>>
    requires k < |parts| && parts[k] != []
  {
    parts[k := parts[k][..|parts[k]| - 1]]
  }

  /** The last message is producer `k`'s last, and the rest an interleaving of the rest. */
  ghost predicate LastFrom<D(!new)>(parts: seq<seq<Message<D>>>, whole: seq<Message<D>>, k: nat) {
    && k < |parts| && parts[k] != [] && whole != [] && parts[k][|parts[k]| - 1] == whole[|whole| - 1]
    && MergedAll(Before(parts, k), whole[..|whole| - 1])
  }

  /** The empty stream is an interleaving when no producer sent a thing; any other, exactly when its
      last message is some producer's last, and the rest an interleaving of the rest. So whichever
      producer sends next, the stream is one, and there are no others. */
  lemma {:induction false} MergedByLast<D(!new)>(parts: seq<seq<Message<D>>>, whole: seq<Message<D>>)
    ensures whole == [] ==> (MergedAll(parts, whole) <==> forall k :: 0 <= k < |parts| ==> parts[k] == [])
    ensures whole != [] ==> (MergedAll(parts, whole) <==> exists k :: LastFrom(parts, whole, k))
    decreases |parts|
  {
    if whole == [] {
      NothingMerged(parts);
    } else {
      if MergedAll(parts, whole) { var k := LastSender(parts, whole); }
      if k :| LastFrom(parts, whole, k) { SendsLast(parts, whole, k); }
    }
  }

  lemma {:induction false} NothingMerged<D(!new)>(parts: seq<seq<Message<D>>>)
    ensures MergedAll(parts, []) <==> forall k :: 0 <= k < |parts| ==> parts[k] == []
    decreases |parts|
  {
    if parts != [] {
      var n := |parts| - 1;
      NothingMerged(parts[..n]);
      if forall k :: 0 <= k < |parts| ==> parts[k] == [] {
        assert MergedAll(parts[..n], []) && Merged([], parts[n], []);
      }
    }
  }

  lemma BeforeInit<D>(parts: seq<seq<Message<D>>>, k: nat)
    requires k < |parts| && parts[k] != []
    ensures var n := |parts| - 1;
            && Before(parts, k)[..n] == (if k < n then Before(parts[..n], k) else parts[..n])
            && Before(parts, k)[n] == (if k < n then parts[n] else parts[n][..|parts[n]| - 1])
  {
  }

  lemma {:induction false} LastSender<D(!new)>(parts: seq<seq<Message<D>>>, whole: seq<Message<D>>) returns (k: nat)
    requires whole != [] && MergedAll(parts, whole)
    ensures LastFrom(parts, whole, k)
    decreases |parts|
  {
    var n, last, m := |parts| - 1, parts[|parts| - 1], whole[|whole| - 1];
    var rest :| MergedAll(parts[..n], rest) && Merged(rest, last, whole);
    if rest != [] && rest[|rest| - 1] == m && Merged(rest[..|rest| - 1], last, whole[..|whole| - 1]) {
      k := LastSender(parts[..n], rest);
      BeforeInit(parts, k);
      assert MergedWith(Before(parts, k)[..n], last, whole[..|whole| - 1]);
    } else {
      k := n;
      BeforeInit(parts, k);
      assert MergedWith(parts[..n], last[..|last| - 1], whole[..|whole| - 1]);
    }
  }

  lemma {:induction false} SendsLast<D(!new)>(parts: seq<seq<Message<D>>>, whole: seq<Message<D>>, k: nat)
    requires LastFrom(parts, whole, k)
    ensures MergedAll(parts, whole)
    decreases |parts|
  {
    var n, last, m := |parts| - 1, parts[|parts| - 1], whole[|whole| - 1];
    BeforeInit(parts, k);
    var before := Before(parts, k);
    assert |before| == n + 1 && MergedWith(before[..n], before[n], whole[..|whole| - 1]);
    var rest :| MergedAll(before[..n], rest) && Merged(rest, before[n], whole[..|whole| - 1]);
    if k == n {
      assert Merged(rest, last, whole);
    } else {
      assert (rest + [m])[..|rest|] == rest;
      SendsLast(parts[..n], rest + [m], k);
      assert Merged(rest + [m], last, whole);
    }
  }
}
