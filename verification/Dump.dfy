/** The `.jibsdump` file: a header, length-prefixed records, and a terminator without which the
    file does not load. */
module Dump {
  import opened Bytes
  import opened Framing
  import opened ForeignKeys

  datatype Record =
    | Manifest(preserves: seq<string>)
    | Table(name: string, definition: string)
    | Rows(table: string, mode: Mode, rows: U16, data: seq<Byte>)
    | TableEnd(table: string, total: nat)
    | PostProcess(sets: seq<string>, after: seq<string>)
    | ForeignKeyList(keys: seq<ForeignKey>)
    | End

  /** "JIBSDUMP" */
  const MAGIC: seq<Byte> := [74, 73, 66, 83, 68, 85, 77, 80]
  const FORMAT_VERSION: nat := 3
  const PREAMBLE_LEN: nat := 10

  function Preamble(): (s: seq<Byte>)
    ensures |s| == PREAMBLE_LEN
  {
    MAGIC + Le(FORMAT_VERSION, 2)
  }

  function RecordFrames(codec: Codec<Record>, rs: seq<Record>): seq<Byte> {
    if rs == [] then [] else Framed(codec.encode(rs[0])) + RecordFrames(codec, rs[1..])
  }

  /** A finished dump. */
  function DumpOf(codec: Codec<Record>, rs: seq<Record>): seq<Byte> {
    Preamble() + RecordFrames(codec, rs + [End])
  }

  // ------------------------------------------------------------------
  // Loading
  // ------------------------------------------------------------------

  /** What a load has read: `tables` are the announced tables, each with the preserve rules then
      in force; `open` those whose end has not come; `body` the table records in order. */
  datatype Loaded = Loaded(
    preserves: seq<string>,
    tables: seq<(string, seq<string>)>,
    known: set<string>,
    body: seq<Record>,
    sets: seq<string>,
    after: seq<string>,
    keys: Option<seq<ForeignKey>>)

  const NOTHING := Loaded([], [], {}, [], [], [], None)

  /** One record other than the terminator. */
  function Take(l: Loaded, r: Record): Option<Loaded> {
    match r
    case Manifest(preserves) => Some(l.(preserves := preserves))
    case Table(name, _) =>
      Some(l.(tables := l.tables + [(name, l.preserves)], known := l.known + {name}, body := l.body + [r]))
    case Rows(table, _, _, _) => if table in l.known then Some(l.(body := l.body + [r])) else None
    case TableEnd(table, _) => Some(l.(known := l.known - {table}, body := l.body + [r]))
    case PostProcess(sets, after) => Some(l.(sets := sets, after := after))
    case ForeignKeyList(keys) => Some(l.(keys := Some(keys)))
    case End => None
  }

  function TakeAll(l: Loaded, rs: seq<Record>): Option<Loaded>
    decreases |rs|
  {
    if rs == [] then Some(l)
    else
      var next :- Take(l, rs[0]);
      TakeAll(next, rs[1..])
  }

  datatype Next = Got(record: Record, rest: seq<Byte>) | Clean | Bad

  /** The next record; a file that ends inside one is damaged, not finished. */
  function NextRecord(codec: Codec<Record>, s: seq<Byte>, max: nat): (n: Next)
    ensures n.Got? ==> |n.rest| < |s|
  {
    if s == [] then Clean
    else if |s| < 4 then Bad
    else
      var len := FromLe(s[..4]);
      if len > max || |s| < 4 + len then Bad
      else
        match codec.decode(s[4..4 + len])
        case None => Bad
        case Some(r) => Got(r, s[4 + len..])
  }

  function LoadFrom(codec: Codec<Record>, s: seq<Byte>, max: nat, l: Loaded): Option<Loaded>
    decreases |s|
  {
    match NextRecord(codec, s, max)
    case Clean => None
    case Bad => None
    case Got(r, rest) =>
      if r.End? then Some(l)
      else
        var next :- Take(l, r);
        LoadFrom(codec, rest, max, next)
  }

  function LoadDump(codec: Codec<Record>, s: seq<Byte>, max: nat): Option<Loaded> {
    if |s| < PREAMBLE_LEN || s[..PREAMBLE_LEN] != Preamble() then None
    else LoadFrom(codec, s[PREAMBLE_LEN..], max, NOTHING)
  }

  // ------------------------------------------------------------------
  // Complete and truncated files
  // ------------------------------------------------------------------

  ghost predicate Encodable(codec: Codec<Record>, rs: seq<Record>) {
    forall r :: r in rs ==> |codec.encode(r)| < U32_END
  }

  ghost predicate Fits(codec: Codec<Record>, rs: seq<Record>, max: nat) {
    forall r :: r in rs ==> |codec.encode(r)| <= max
  }

  /** A complete record reads back, or is over the reader's limit. */
  lemma RecordRead(codec: Codec<Record>, r: Record, rest: seq<Byte>, max: nat)
    requires Lossless(codec) && |codec.encode(r)| < U32_END
    ensures NextRecord(codec, Framed(codec.encode(r)) + rest, max)
            == if |codec.encode(r)| <= max then Got(r, rest) else Bad
  {
    hide Le, FromLe, Pow256;
    var body := codec.encode(r);
    var s := Framed(body) + rest;
    assert s == Le(AsU32(|body|), 4) + (body + rest);
    WordOf(AsU32(|body|), body + rest);
    assert (body + rest)[..|body|] == body && (body + rest)[|body|..] == rest;
    assert s[4..][..|body|] == s[4..4 + |body|] && s[4..][|body|..] == s[4 + |body|..];
  }

  /** A record cut short is an error wherever the cut is, unless nothing of it is left. */
  lemma RecordCut(codec: Codec<Record>, r: Record, n: nat, max: nat)
    requires |codec.encode(r)| < U32_END && n < |Framed(codec.encode(r))|
    ensures !NextRecord(codec, Framed(codec.encode(r))[..n], max).Got?
  {
    hide Le, FromLe, Pow256;
    var body := codec.encode(r);
    WordOf(AsU32(|body|), body);
    if n >= 4 { assert Framed(body)[..n][..4] == Framed(body)[..4]; }
  }

  lemma {:induction false} FramesLoad(codec: Codec<Record>, rs: seq<Record>, rest: seq<Byte>, max: nat, l: Loaded)
    requires Lossless(codec) && Encodable(codec, rs + [End]) && Fits(codec, rs + [End], max) && End !in rs
    ensures LoadFrom(codec, RecordFrames(codec, rs + [End]) + rest, max, l) == TakeAll(l, rs)
  {
    hide Framed, NextRecord, Take;
    var all := rs + [End];
    var more := RecordFrames(codec, all[1..]) + rest;
    assert all[0] in all;
    assert RecordFrames(codec, all) + rest == Framed(codec.encode(all[0])) + more;
    RecordRead(codec, all[0], more, max);
    if rs != [] {
      assert all[1..] == rs[1..] + [End];
      assert all[0] == rs[0] && rs[0] in rs;
      var next := Take(l, rs[0]);
      if next.Some? { FramesLoad(codec, rs[1..], rest, max, next.value); }
    }
  }

  /** A finished dump loads to exactly what its records say, in order. */
  lemma DumpLoads(codec: Codec<Record>, rs: seq<Record>, max: nat)
    requires Lossless(codec) && Encodable(codec, rs + [End]) && Fits(codec, rs + [End], max) && End !in rs
    ensures LoadDump(codec, DumpOf(codec, rs), max) == TakeAll(NOTHING, rs)
  {
    hide RecordFrames, LoadFrom;
    var frames := RecordFrames(codec, rs + [End]);
    FramesLoad(codec, rs, [], max, NOTHING);
    assert frames + [] == frames;
    assert DumpOf(codec, rs)[PREAMBLE_LEN..] == frames;
    assert DumpOf(codec, rs)[..PREAMBLE_LEN] == Preamble();
  }

  lemma {:induction false} CutFramesFail(codec: Codec<Record>, rs: seq<Record>, n: nat, max: nat, l: Loaded)
    requires Lossless(codec) && Encodable(codec, rs + [End]) && End !in rs
    requires n < |RecordFrames(codec, rs + [End])|
    ensures LoadFrom(codec, RecordFrames(codec, rs + [End])[..n], max, l) == None
  {
    hide Framed, NextRecord, Take;
    var all := rs + [End];
    var first, more := Framed(codec.encode(all[0])), RecordFrames(codec, all[1..]);
    assert all[0] in all;
    assert RecordFrames(codec, all) == first + more;
    if n < |first| {
      assert (first + more)[..n] == first[..n];
      RecordCut(codec, all[0], n, max);
    } else if rs != [] {
      assert (first + more)[..n] == first + more[..n - |first|];
      RecordRead(codec, all[0], more[..n - |first|], max);
      assert all[1..] == rs[1..] + [End];
      assert all[0] == rs[0] && rs[0] in rs;
      var next := Take(l, rs[0]);
      if next.Some? { CutFramesFail(codec, rs[1..], n - |first|, max, next.value); }
    }
  }

  /** No strict prefix of a dump loads, wherever it is cut and whatever the reader's limit. */
  lemma TruncatedDumpFails(codec: Codec<Record>, rs: seq<Record>, n: nat, max: nat)
    requires Lossless(codec) && Encodable(codec, rs + [End]) && End !in rs && n < |DumpOf(codec, rs)|
    ensures LoadDump(codec, DumpOf(codec, rs)[..n], max) == None
  {
    hide RecordFrames, LoadFrom;
    var frames, cut := RecordFrames(codec, rs + [End]), DumpOf(codec, rs)[..n];
    if n >= PREAMBLE_LEN {
      assert cut[PREAMBLE_LEN..] == frames[..n - PREAMBLE_LEN];
      CutFramesFail(codec, rs, n - PREAMBLE_LEN, max, NOTHING);
    }
  }

  /** The records a load acts on before it comes to the terminator, the end or an error. */
  function RecordsRead(codec: Codec<Record>, s: seq<Byte>, max: nat): seq<Record>
    decreases |s|
  {
    match NextRecord(codec, s, max)
    case Clean => []
    case Bad => []
    case Got(r, rest) => if r.End? then [] else [r] + RecordsRead(codec, rest, max)
  }

  /** Before it fails, the load of a dump that is cut short has acted on the first records of it,
      and on nothing else. */
  lemma {:induction false} CutReadsPrefix(codec: Codec<Record>, rs: seq<Record>, n: nat, max: nat)
    requires Lossless(codec) && Encodable(codec, rs + [End]) && n < |RecordFrames(codec, rs + [End])|
    ensures RecordsRead(codec, RecordFrames(codec, rs + [End])[..n], max) <= rs
    decreases |rs|
  {
    hide Framed, NextRecord;
    var all := rs + [End];
    var first, more := Framed(codec.encode(all[0])), RecordFrames(codec, all[1..]);
    assert all[0] in all;
    assert RecordFrames(codec, all) == first + more;
    if n < |first| {
      assert (first + more)[..n] == first[..n];
      RecordCut(codec, all[0], n, max);
    } else if rs != [] {
      assert (first + more)[..n] == first + more[..n - |first|];
      RecordRead(codec, all[0], more[..n - |first|], max);
      assert all[1..] == rs[1..] + [End];
      CutReadsPrefix(codec, rs[1..], n - |first|, max);
      assert rs == [rs[0]] + rs[1..];
    }
  }

  // ------------------------------------------------------------------
  // The reader, over a source that returns as few bytes as it likes
  // ------------------------------------------------------------------

  datatype Outcome = Full | Eof | Partial

  class Source {
    var unread: seq<Byte>

    /** At least one byte when there are any and there is room. */
    method Read(room: nat) returns (got: seq<Byte>)
      modifies this
      ensures |got| <= room && old(unread) == got + unread
      ensures got == [] ==> room == 0 || old(unread) == []
    {
      var most := if room < |unread| then room else |unread|;
      var n :| 0 <= n <= most && (n == 0 ==> most == 0);
      got, unread := unread[..n], unread[n..];
    }

    /** Fills a buffer of `size` bytes, however the source splits them. */
    method ReadFull(size: nat) returns (outcome: Outcome, filled: seq<Byte>)
      modifies this
      ensures old(unread) == filled + unread
      ensures outcome == if |old(unread)| >= size then Full else if old(unread) == [] then Eof else Partial
      ensures outcome.Full? ==> |filled| == size
      ensures !outcome.Full? ==> unread == []
    {
      filled := [];
      while |filled| < size
        invariant |filled| <= size && old(unread) == filled + unread
        decreases size - |filled|
      {
        var got := Read(size - |filled|);
        if got == [] {
          return if filled == [] then Eof else Partial, filled;
        }
        filled := filled + got;
      }
      outcome := Full;
    }

    method NextFrom(codec: Codec<Record>, max: nat) returns (next: Option<Option<Record>>)
      modifies this
      ensures match NextRecord(codec, old(unread), max)
              case Clean => next == Some(None) && unread == []
              case Bad => next == None
              case Got(r, rest) => next == Some(Some(r)) && unread == rest
      ensures next.Some? && next.value.Some? ==> |unread| < |old(unread)|
    {
      ghost var s := unread;
      var outcome, word := ReadFull(4);
      match outcome
      case Eof => return Some(None);
      case Partial => return None;
      case Full =>
        assert s[..4] == word && s[4..] == unread;
        var len := FromLe(word);
        if len > max { return None; }
        var rest, body := ReadFull(len);
        if !rest.Full? { return None; }
        assert s[4..4 + len] == body && s[4 + len..] == unread;
        match codec.decode(body)
        case None => return None;
        case Some(r) => return Some(Some(r));
    }

    /** `jibs load` reads the whole file, or fails. */
    method Load(codec: Codec<Record>, max: nat) returns (r: Option<Loaded>)
      modifies this
      ensures r == LoadDump(codec, old(unread), max)
    {
      ghost var s := unread;
      var outcome, preamble := ReadFull(PREAMBLE_LEN);
      if !outcome.Full? { return None; }
      assert s[..PREAMBLE_LEN] == preamble && s[PREAMBLE_LEN..] == unread;
      if preamble[..8] != MAGIC || FromLe(preamble[8..]) != FORMAT_VERSION {
        NotPreamble(preamble);
        return None;
      }
      IsPreamble(preamble);
      var l := NOTHING;
      while true
        invariant LoadDump(codec, s, max) == LoadFrom(codec, unread, max, l)
        decreases |unread|
      {
        var next := NextFrom(codec, max);
        if next.None? || next.value.None? { return None; }
        var record := next.value.value;
        if record.End? { return Some(l); }
        var taken := Take(l, record);
        if taken.None? { return None; }
        l := taken.value;
      }
    }
  }

  lemma NotPreamble(s: seq<Byte>)
    requires |s| == PREAMBLE_LEN && (s[..8] != MAGIC || FromLe(s[8..]) != FORMAT_VERSION)
    ensures s != Preamble()
  {
    Pow256Values();
    LeRoundTrip(FORMAT_VERSION, 2);
    assert Preamble()[..8] == MAGIC && Preamble()[8..] == Le(FORMAT_VERSION, 2);
  }

  lemma IsPreamble(s: seq<Byte>)
    requires |s| == PREAMBLE_LEN && s[..8] == MAGIC && FromLe(s[8..]) == FORMAT_VERSION
    ensures s == Preamble()
  {
    var v := s[8..];
    assert FromLe(v) == v[0] + 256 * FromLe(v[1..]);
    assert FromLe(v[1..]) == v[1] + 256 * FromLe(v[1..][1..]);
    assert v == [3, 0] && Le(3, 2) == [3, 0];
    assert s == s[..8] + v;
  }
}
