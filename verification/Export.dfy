/** `jibs import --dump-to` writes what the server streams to a dump, for `jibs load` to replay:
    the load is sent the tables, chunks, rules, statements and keys a live import would be. */
module Export {
  import opened Bytes
  import opened Framing
  import opened Dump
  import opened ForeignKeys
  import KeyStore
  import Streams
  import LocalDb
  import ImportMachine
  import ImportInvariants
  import ImportSafety
  import ImportResult

  /** A streamed message as it arrives: a chunk's payload is packed as negotiated. */
  datatype ServerMessage =
    | Schema(table: string, definition: string)
    | Data(table: string, rows: U16, payload: seq<Byte>)
    | TableDone(table: string, total: nat)

  datatype Plan = Plan(preserves: seq<string>, sets: seq<string>, after: seq<string>)

  // ------------------------------------------------------------------
  // Messages to records
  // ------------------------------------------------------------------

  /** A chunk is stored under zstd whatever was negotiated; one too long for the length field
      is refused. */
  function RecordOf(zstd: Codec<seq<Byte>>, mode: Mode, m: ServerMessage): Option<Record> {
    match m
    case Schema(t, definition) => Some(Table(t, definition))
    case Data(t, rows, payload) =>
      if mode.Zstd? then Some(Rows(t, Zstd, rows, payload))
      else if |payload| < U32_END then Some(Rows(t, Zstd, rows, Packed(zstd, Zstd, payload)))
      else None
    case TableDone(t, total) => Some(TableEnd(t, total))
  }

  function BodyOf(zstd: Codec<seq<Byte>>, mode: Mode, ms: seq<ServerMessage>): Option<seq<Record>> {
    if ms == [] then Some([])
    else
      var before :- BodyOf(zstd, mode, ms[..|ms| - 1]);
      var r :- RecordOf(zstd, mode, ms[|ms| - 1]);
      Some(before + [r])
  }

  function Head(plan: Plan): seq<Record> {
    if plan.preserves == [] then [] else [Manifest(plan.preserves)]
  }

  function Tail(plan: Plan, keys: seq<ForeignKey>): seq<Record> {
    (if plan.sets == [] && plan.after == [] then [] else [PostProcess(plan.sets, plan.after)]) + [ForeignKeyList(keys)]
  }

  class DumpWriter {
    const codec: Codec<Record>
    var inner: seq<Byte>
    ghost var written: seq<Record>

    ghost predicate Valid()
      reads this
    {
      inner == Preamble() + RecordFrames(codec, written)
    }

    constructor (codec: Codec<Record>)
      ensures Valid() && written == [] && this.codec == codec
    {
      this.codec, inner, written := codec, Preamble(), [];
    }

    method Write(r: Record)
      requires Valid()
      modifies this
      ensures Valid() && written == old(written) + [r]
    {
      FramesGrow(codec, written, r);
      inner, written := inner + Framed(codec.encode(r)), written + [r];
    }

    method WriteManifest(plan: Plan)
      requires Valid()
      modifies this
      ensures Valid() && written == old(written) + Head(plan)
    {
      if plan.preserves != [] { Write(Manifest(plan.preserves)); }
    }

    method WriteMessage(zstd: Codec<seq<Byte>>, mode: Mode, m: ServerMessage) returns (ok: bool)
      requires Valid()
      modifies this
      ensures Valid() && ok == RecordOf(zstd, mode, m).Some?
      ensures written == old(written) + if ok then [RecordOf(zstd, mode, m).value] else []
    {
      ok := true;
      match m
      case Schema(t, definition) => Write(Table(t, definition));
      case Data(t, rows, payload) =>
        if mode.Zstd? {
          Write(Rows(t, Zstd, rows, payload));
        } else if |payload| < U32_END {
          Write(Rows(t, Zstd, rows, Packed(zstd, Zstd, payload)));
        } else {
          ok := false;
        }
      case TableDone(t, total) => Write(TableEnd(t, total));
    }

    method WritePostProcess(plan: Plan)
      requires Valid()
      modifies this
      ensures Valid()
      ensures written == old(written)
                         + if plan.sets == [] && plan.after == [] then [] else [PostProcess(plan.sets, plan.after)]
    {
      if plan.sets != [] || plan.after != [] { Write(PostProcess(plan.sets, plan.after)); }
    }

    /** The whole export. The terminator is written only when every message was. */
    method StreamToDump(zstd: Codec<seq<Byte>>, plan: Plan, mode: Mode, ms: seq<ServerMessage>,
                        keys: seq<ForeignKey>) returns (ok: bool)
      requires Valid() && written == []
      modifies this
      ensures ok == BodyOf(zstd, mode, ms).Some?
      ensures ok ==> inner == DumpOf(codec, Head(plan) + BodyOf(zstd, mode, ms).value + Tail(plan, keys))
      ensures !ok ==> Valid() && End !in written
    {
      hide Framed, RecordFrames, Packed;
      WriteManifest(plan);
      for i := 0 to |ms|
        invariant Valid() && BodyOf(zstd, mode, ms[..i]).Some?
        invariant written == Head(plan) + BodyOf(zstd, mode, ms[..i]).value && End !in written
      {
        assert ms[..i + 1][..i] == ms[..i];
        ok := WriteMessage(zstd, mode, ms[i]);
        if !ok {
          BodyPrefix(zstd, mode, ms, i + 1);
          return;
        }
      }
      assert ms[..|ms|] == ms;
      WritePostProcess(plan);
      Write(ForeignKeyList(keys));
      assert written == Head(plan) + BodyOf(zstd, mode, ms).value + Tail(plan, keys);
      Write(End);
      ok := true;
    }
  }

  lemma {:induction false} FramesGrow(codec: Codec<Record>, rs: seq<Record>, r: Record)
    ensures RecordFrames(codec, rs + [r]) == RecordFrames(codec, rs) + Framed(codec.encode(r))
  {
    hide Framed;
    if rs == [] {
      assert [r][1..] == [];
    } else {
      FramesGrow(codec, rs[1..], r);
      assert (rs + [r])[1..] == rs[1..] + [r];
    }
  }

  lemma {:induction false} BodyPrefix(zstd: Codec<seq<Byte>>, mode: Mode, ms: seq<ServerMessage>, n: nat)
    requires n <= |ms| && BodyOf(zstd, mode, ms[..n]).None?
    ensures BodyOf(zstd, mode, ms).None?
    decreases |ms| - n
  {
    if n < |ms| {
      assert ms[..n + 1][..n] == ms[..n];
      BodyPrefix(zstd, mode, ms, n + 1);
    } else {
      assert ms[..n] == ms;
    }
  }

  // ------------------------------------------------------------------
  // What each side is sent
  // ------------------------------------------------------------------

  /** How `LOAD DATA` reads a chunk of a table. */
  type Reading = (string, seq<Byte>) -> LocalDb.Rows

  function LiveMessage(zstd: Codec<seq<Byte>>, reading: Reading, mode: Mode,
                       m: ServerMessage): Option<ImportMachine.Msg> {
    match m
    case Schema(t, _) => Some(Streams.Message.Schema(t))
    case Data(t, rows, payload) =>
      var tsv :- MaybeDecompress(zstd, mode, payload);
      Some(Streams.Message.Data(t, rows, reading(t, tsv)))
    case TableDone(t, total) => Some(Streams.Message.TableDone(t, total))
  }

  function LiveStream(zstd: Codec<seq<Byte>>, reading: Reading, mode: Mode,
                      ms: seq<ServerMessage>): Option<seq<ImportMachine.Msg>> {
    if ms == [] then Some([])
    else
      var before :- LiveStream(zstd, reading, mode, ms[..|ms| - 1]);
      var m :- LiveMessage(zstd, reading, mode, ms[|ms| - 1]);
      Some(before + [m])
  }

  function LoadMessage(zstd: Codec<seq<Byte>>, reading: Reading, r: Record): Option<ImportMachine.Msg> {
    match r
    case Table(t, _) => Some(Streams.Message.Schema(t))
    case Rows(t, mode, rows, data) =>
      var tsv :- MaybeDecompress(zstd, mode, data);
      Some(Streams.Message.Data(t, rows, reading(t, tsv)))
    case TableEnd(t, total) => Some(Streams.Message.TableDone(t, total))
    case _ => None
  }

  function LoadStream(zstd: Codec<seq<Byte>>, reading: Reading, body: seq<Record>): Option<seq<ImportMachine.Msg>> {
    if body == [] then Some([])
    else
      var before :- LoadStream(zstd, reading, body[..|body| - 1]);
      var m :- LoadMessage(zstd, reading, body[|body| - 1]);
      Some(before + [m])
  }

  lemma SameMessage(zstd: Codec<seq<Byte>>, reading: Reading, mode: Mode, m: ServerMessage)
    requires Lossless(zstd) && RecordOf(zstd, mode, m).Some?
    ensures LoadMessage(zstd, reading, RecordOf(zstd, mode, m).value) == LiveMessage(zstd, reading, mode, m)
  {
    hide Packed, MaybeDecompress;
    if m.Data? && !mode.Zstd? {
      Unpacked(zstd, Zstd, m.payload);
      NotPacked(zstd, mode, m.payload);
    }
  }

  lemma NotPacked(zstd: Codec<seq<Byte>>, mode: Mode, data: seq<Byte>)
    ensures !mode.Zstd? ==> MaybeDecompress(zstd, mode, data) == Some(data)
  {
  }

  /** The records of a stream replay as the stream itself. */
  lemma {:induction false} SameStream(zstd: Codec<seq<Byte>>, reading: Reading, mode: Mode, ms: seq<ServerMessage>)
    requires Lossless(zstd) && BodyOf(zstd, mode, ms).Some?
    ensures LoadStream(zstd, reading, BodyOf(zstd, mode, ms).value) == LiveStream(zstd, reading, mode, ms)
  {
    hide RecordOf, LoadMessage, LiveMessage;
    if ms != [] {
      var n := |ms| - 1;
      SameStream(zstd, reading, mode, ms[..n]);
      SameMessage(zstd, reading, mode, ms[n]);
      var body := BodyOf(zstd, mode, ms).value;
      assert body[..|body| - 1] == BodyOf(zstd, mode, ms[..n]).value;
    }
  }

  /** The tables as the server defines them, and as a dump does. */
  function DefinitionsSent(ms: seq<ServerMessage>): seq<(string, string)> {
    if ms == [] then []
    else
      var m := ms[|ms| - 1];
      DefinitionsSent(ms[..|ms| - 1]) + if m.Schema? then [(m.table, m.definition)] else []
  }

  function Definitions(body: seq<Record>): seq<(string, string)> {
    if body == [] then []
    else
      var r := body[|body| - 1];
      Definitions(body[..|body| - 1]) + if r.Table? then [(r.name, r.definition)] else []
  }

  lemma {:induction false} DefinitionsCarried(zstd: Codec<seq<Byte>>, mode: Mode, ms: seq<ServerMessage>)
    requires BodyOf(zstd, mode, ms).Some?
    ensures Definitions(BodyOf(zstd, mode, ms).value) == DefinitionsSent(ms)
  {
    hide Packed;
    if ms != [] {
      var n := |ms| - 1;
      DefinitionsCarried(zstd, mode, ms[..n]);
      var body := BodyOf(zstd, mode, ms).value;
      assert body[..|body| - 1] == BodyOf(zstd, mode, ms[..n]).value;
    }
  }

  // ------------------------------------------------------------------
  // What a load reads
  // ------------------------------------------------------------------

  /** Each table with the preserve rules in force when it is announced. */
  function Announced(preserves: seq<string>, body: seq<Record>): seq<(string, seq<string>)> {
    if body == [] then []
    else (if body[0].Table? then [(body[0].name, preserves)] else []) + Announced(preserves, body[1..])
  }

  ghost predicate Replays(zstd: Codec<seq<Byte>>, reading: Reading, body: seq<Record>, stream: seq<ImportMachine.Msg>) {
    |body| == |stream| && forall i :: 0 <= i < |body| ==> LoadMessage(zstd, reading, body[i]) == Some(stream[i])
  }

  lemma {:induction false} StreamReplays(zstd: Codec<seq<Byte>>, reading: Reading, body: seq<Record>)
    requires LoadStream(zstd, reading, body).Some?
    ensures Replays(zstd, reading, body, LoadStream(zstd, reading, body).value)
  {
    hide LoadMessage;
    if body != [] { StreamReplays(zstd, reading, body[..|body| - 1]); }
  }

  ghost predicate Taken(l: Loaded, body: seq<Record>, next: Loaded) {
    next == l.(known := next.known, body := l.body + body, tables := l.tables + Announced(l.preserves, body))
  }

  ghost predicate KnowsOpen(l: Loaded, stream: seq<ImportMachine.Msg>) {
    forall t :: t in l.known <==> Streams.PhaseOf(stream, t).Open?
  }

  /** A load of the records of an orderly stream meets no chunk of an unknown table. */
  lemma {:induction false} TakeFrom(zstd: Codec<seq<Byte>>, reading: Reading, body: seq<Record>,
                                    stream: seq<ImportMachine.Msg>, i: nat, l: Loaded)
    requires Replays(zstd, reading, body, stream) && Streams.Orderly(stream) && i <= |body|
    requires KnowsOpen(l, stream[..i])
    ensures var r := TakeAll(l, body[i..]); r.Some? && Taken(l, body[i..], r.value)
    decreases |body| - i
  {
    hide Taken, Streams.Orderly;
    if i < |body| {
      var next := Take(l, body[i]);
      TakeOne(zstd, reading, body, stream, i, l);
      TakeFrom(zstd, reading, body, stream, i + 1, next.value);
      assert body[i..][1..] == body[i + 1..];
      TakenMore(l, body[i..], next.value, TakeAll(next.value, body[i + 1..]).value);
    } else {
      assert body[i..] == [];
      TakenNone(l);
    }
  }

  lemma TakeOne(zstd: Codec<seq<Byte>>, reading: Reading, body: seq<Record>, stream: seq<ImportMachine.Msg>, i: nat,
                l: Loaded)
    requires Replays(zstd, reading, body, stream) && Streams.Orderly(stream) && i < |body| && KnowsOpen(l, stream[..i])
    ensures var r := Take(l, body[i]); r.Some? && Taken(l, [body[i]], r.value) && KnowsOpen(r.value, stream[..i + 1])
  {
    hide Streams.PhaseOf, MaybeDecompress;
    var m := stream[i];
    assert LoadMessage(zstd, reading, body[i]) == Some(m);
    assert stream[..i + 1] == stream[..i] + [m];
    Streams.PhaseOfAppend(stream[..i], m, m.table);
    ImportInvariants.GoodPrefix(stream, i + 1, m.table);
    AnnouncedOne(l.preserves, body[i]);
    assert l.tables + [] == l.tables;
    var next := Take(l, body[i]).value;
    forall t ensures t in next.known <==> Streams.PhaseOf(stream[..i + 1], t).Open? {
      Streams.PhaseOfAppend(stream[..i], m, t);
    }
  }

  lemma AnnouncedOne(preserves: seq<string>, r: Record)
    ensures Announced(preserves, [r]) == if r.Table? then [(r.name, preserves)] else []
  {
    assert [r][1..] == [];
  }

  lemma TakenNone(l: Loaded)
    ensures Taken(l, [], l)
  {
  }

  lemma TakenMore(l: Loaded, body: seq<Record>, next: Loaded, end: Loaded)
    requires body != [] && Taken(l, [body[0]], next) && Taken(next, body[1..], end)
    ensures Taken(l, body, end)
  {
    AnnouncedOne(l.preserves, body[0]);
    assert l.body + body == l.body + [body[0]] + body[1..];
  }

  lemma {:induction false} TakeAllConcat(l: Loaded, a: seq<Record>, b: seq<Record>)
    requires TakeAll(l, a).Some?
    ensures TakeAll(l, a + b) == TakeAll(TakeAll(l, a).value, b)
    decreases |a|
  {
    hide Take;
    if a == [] {
      assert a + b == b;
    } else {
      TakeAllConcat(Take(l, a[0]).value, a[1..], b);
      assert (a + b)[1..] == a[1..] + b;
    }
  }

  /** What the load of an export comes to: the stream's records, every table under the plan's
      preserve rules, and the plan's statements and the source's keys at the end. */
  lemma ExportReplays(zstd: Codec<seq<Byte>>, reading: Reading, plan: Plan, mode: Mode, ms: seq<ServerMessage>,
                      keys: seq<ForeignKey>)
    requires Lossless(zstd) && BodyOf(zstd, mode, ms).Some? && LiveStream(zstd, reading, mode, ms).Some?
    requires Streams.Orderly(LiveStream(zstd, reading, mode, ms).value)
    ensures var body := BodyOf(zstd, mode, ms).value;
            var r := TakeAll(NOTHING, Head(plan) + body + Tail(plan, keys));
            && r.Some?
            && LoadStream(zstd, reading, r.value.body) == LiveStream(zstd, reading, mode, ms)
            && Definitions(r.value.body) == DefinitionsSent(ms)
            && r.value.tables == Announced(plan.preserves, body) && r.value.preserves == plan.preserves
            && r.value.sets == plan.sets && r.value.after == plan.after && r.value.keys == Some(keys)
  {
    hide BodyOf, LiveStream, LoadStream, Streams.Orderly, Announced, Definitions, DefinitionsSent;
    DefinitionsCarried(zstd, mode, ms);
    var body := BodyOf(zstd, mode, ms).value;
    var stream := LiveStream(zstd, reading, mode, ms).value;
    SameStream(zstd, reading, mode, ms);
    StreamReplays(zstd, reading, body);
    TakeHead(plan);
    var l := NOTHING.(preserves := plan.preserves);
    assert stream[..0] == [] && body[0..] == body;
    TakeFrom(zstd, reading, body, stream, 0, l);
    TakeAllConcat(NOTHING, Head(plan), body);
    var m := TakeAll(l, body).value;
    assert l.body + body == body && l.tables + Announced(plan.preserves, body) == Announced(plan.preserves, body);
    TakeTail(plan, keys, m);
    TakeAllConcat(NOTHING, Head(plan) + body, Tail(plan, keys));
  }

  lemma TakeHead(plan: Plan)
    ensures TakeAll(NOTHING, Head(plan)) == Some(NOTHING.(preserves := plan.preserves))
  {
    assert TakeAll(NOTHING.(preserves := plan.preserves), []) == Some(NOTHING.(preserves := plan.preserves));
  }

  lemma TakeTail(plan: Plan, keys: seq<ForeignKey>, l: Loaded)
    requires l.sets == [] && l.after == []
    ensures TakeAll(l, Tail(plan, keys)) == Some(l.(sets := plan.sets, after := plan.after, keys := Some(keys)))
  {
    var end := l.(sets := plan.sets, after := plan.after, keys := Some(keys));
    assert TakeAll(end, []) == Some(end);
    assert [ForeignKeyList(keys)][1..] == [];
    assert TakeAll(l.(sets := plan.sets, after := plan.after), [ForeignKeyList(keys)]) == Some(end);
    if plan.sets != [] || plan.after != [] {
      assert Tail(plan, keys)[1..] == [ForeignKeyList(keys)];
    }
  }

  // ------------------------------------------------------------------
  // Live import and load
  // ------------------------------------------------------------------

  /** What is written for an export, terminator aside. */
  ghost function Exported(zstd: Codec<seq<Byte>>, plan: Plan, mode: Mode, ms: seq<ServerMessage>,
                          keys: seq<ForeignKey>): seq<Record>
    requires BodyOf(zstd, mode, ms).Some?
  {
    Head(plan) + BodyOf(zstd, mode, ms).value + Tail(plan, keys)
  }

  /** The load was given what the live import of the same messages was: the stream, each table as
      defined and under the plan's preserve rules, the plan's statements and the source's keys. */
  ghost predicate CarriesAll(
      zstd: Codec<seq<Byte>>, reading: Reading, plan: Plan, mode: Mode, ms: seq<ServerMessage>, keys: seq<ForeignKey>,
      l: Loaded)
  {
    && LoadStream(zstd, reading, l.body) == LiveStream(zstd, reading, mode, ms)
    && Definitions(l.body) == DefinitionsSent(ms)
    && l.preserves == plan.preserves && (forall e :: e in l.tables ==> e.1 == plan.preserves)
    && l.sets == plan.sets && l.after == plan.after && l.keys == Some(keys)
  }

  /** The load of an intact dump is given all that the live import is. The load of a dump that is
      cut short fails, after it has acted on the first records (`Dump.CutReadsPrefix`); what it
      leaves in the tables by then is the subject of `ImportSafety.StoppedAnywhere`. */
  lemma DumpCarriesStream(
      codec: Codec<Record>, zstd: Codec<seq<Byte>>, reading: Reading,
      plan: Plan, mode: Mode, ms: seq<ServerMessage>, keys: seq<ForeignKey>, file: seq<Byte>, max: nat)
    requires Lossless(codec) && Lossless(zstd)
    requires BodyOf(zstd, mode, ms).Some? && LiveStream(zstd, reading, mode, ms).Some?
    requires Streams.Orderly(LiveStream(zstd, reading, mode, ms).value)
    requires var rs := Exported(zstd, plan, mode, ms, keys);
             Encodable(codec, rs + [End]) && Fits(codec, rs + [End], max) && file <= DumpOf(codec, rs)
    ensures var r := LoadDump(codec, file, max);
            && (r.Some? <==> file == DumpOf(codec, Exported(zstd, plan, mode, ms, keys)))
            && (r.Some? ==> CarriesAll(zstd, reading, plan, mode, ms, keys, r.value))
  {
    hide LoadDump, LiveStream, LoadStream, Streams.Orderly, TakeAll, DumpOf, Encodable, Fits, Head, Tail, Announced;
    var rs := Exported(zstd, plan, mode, ms, keys);
    NoEnd(zstd, mode, ms);
    NoEndAround(plan, keys);
    ExportReplays(zstd, reading, plan, mode, ms, keys);
    AnnouncedUnder(plan.preserves, BodyOf(zstd, mode, ms).value);
    var dump := DumpOf(codec, rs);
    if file == dump {
      DumpLoads(codec, rs, max);
    } else {
      assert file == dump[..|file|];
      TruncatedDumpFails(codec, rs, |file|, max);
    }
  }

  lemma {:induction false} AnnouncedUnder(preserves: seq<string>, body: seq<Record>)
    ensures forall e :: e in Announced(preserves, body) ==> e.1 == preserves
  {
    if body != [] { AnnouncedUnder(preserves, body[1..]); }
  }

  lemma {:induction false} NoEnd(zstd: Codec<seq<Byte>>, mode: Mode, ms: seq<ServerMessage>)
    requires BodyOf(zstd, mode, ms).Some?
    ensures End !in BodyOf(zstd, mode, ms).value
  {
    hide Packed;
    if ms != [] { NoEnd(zstd, mode, ms[..|ms| - 1]); }
  }

  lemma NoEndAround(plan: Plan, keys: seq<ForeignKey>)
    ensures End !in Head(plan) && End !in Tail(plan, keys)
  {
  }

  /** What preserve rules, and set blocks and after statements, mean: the rows kept, and the
      changes made. */
  datatype Meaning = Meaning(
    rules: seq<string> -> ImportMachine.PreserveRules,
    post: (seq<string>, seq<string>) -> seq<ImportResult.TableData -> ImportResult.TableData>)

  /** Loading a dump and importing live leave the same tables, preserved rows and statements
      included, for any chunks, interruptions, workers and schedules of either: the live import
      takes its rules and statements from the plan, the load takes them from the file. */
  lemma LoadedAsLive(
      codec: Codec<Record>, zstd: Codec<seq<Byte>>, reading: Reading, meaning: Meaning,
      plan: Plan, mode: Mode, ms: seq<ServerMessage>, keys: seq<ForeignKey>, file: seq<Byte>, max: nat,
      live0: ImportMachine.State, live: seq<ImportMachine.Action>, s: ImportMachine.State,
      load0: ImportMachine.State, load: seq<ImportMachine.Action>, u: ImportMachine.State, data: ImportResult.TableData)
    requires Lossless(codec) && Lossless(zstd)
    requires BodyOf(zstd, mode, ms).Some? && LiveStream(zstd, reading, mode, ms).Some?
    requires Streams.Orderly(LiveStream(zstd, reading, mode, ms).value)
    requires var rs := Exported(zstd, plan, mode, ms, keys);
             Encodable(codec, rs + [End]) && Fits(codec, rs + [End], max) && file <= DumpOf(codec, rs)
    requires ImportResult.Delivers(LiveStream(zstd, reading, mode, ms).value, data)
    requires ImportSafety.Came(live0, live, s) && s.c.at.Finished? && !s.edited && !s.setup.load
    requires forall i ::
             0 <= i < |live| && live[i].Start? ==> Some(live[i].setup.stream) == LiveStream(zstd, reading, mode, ms)
    requires s.setup.rules == meaning.rules(plan.preserves) && s.setup.post == meaning.post(plan.sets, plan.after)
    requires ImportSafety.Came(load0, load, u) && u.c.at.Finished? && !u.edited && u.setup.load
    requires LoadDump(codec, file, max).Some?
    requires var l := LoadDump(codec, file, max).value;
             && (forall i ::
                 0 <= i < |load| && load[i].Start? ==> Some(load[i].setup.stream) == LoadStream(zstd, reading, l.body))
             && u.setup.rules == meaning.rules(l.preserves) && u.setup.post == meaning.post(l.sets, l.after)
    requires LocalDb.Contents(s.base) == LocalDb.Contents(u.base)
    ensures LocalDb.Contents(s.tables) == LocalDb.Contents(u.tables)
    ensures forall e :: e in LoadDump(codec, file, max).value.tables ==> meaning.rules(e.1) == s.setup.rules
  {
    hide LoadDump, LiveStream, LoadStream, Streams.Orderly, TakeAll, DumpOf, Encodable, Fits, Exported,
         LocalDb.Contents;
    hide ImportSafety.Came, ImportResult.Delivers;
    DumpCarriesStream(codec, zstd, reading, plan, mode, ms, keys, file, max);
    ImportResult.LiveAndLoadAgree(live0, live, s, load0, load, u, data);
  }

  /** The load of a dump ends on the keys of the source, taken from the file; the live import ends
      on the same exactly when the source has keys, or there was nothing to restore. */
  lemma KeysAsLive(
      codec: Codec<Record>, zstd: Codec<seq<Byte>>, reading: Reading,
      plan: Plan, mode: Mode, ms: seq<ServerMessage>, keys: seq<ForeignKey>, max: nat,
      d: KeyStore.Keys, refused: set<Key>)
    requires Lossless(codec) && Lossless(zstd) && KeyStore.Valid(d)
    requires BodyOf(zstd, mode, ms).Some? && LiveStream(zstd, reading, mode, ms).Some?
    requires Streams.Orderly(LiveStream(zstd, reading, mode, ms).value)
    requires var rs := Exported(zstd, plan, mode, ms, keys);
             Encodable(codec, rs + [End]) && Fits(codec, rs + [End], max)
    ensures var r := LoadDump(codec, DumpOf(codec, Exported(zstd, plan, mode, ms, keys)), max);
            && r.Some?
            && (KeyStore.Finished(KeyStore.Preserved(d), false, Some(keys), refused)
                == KeyStore.Finished(KeyStore.Preserved(d), true, r.value.keys, refused)
                <==> keys != [] ||
                     forall k :: k in KeyStore.Known(d) ==> k in refused && KeyStore.Known(d)[k] in d.printed)
            && KeyStore.HoldsSource(
                 KeyStore.Finished(KeyStore.Preserved(d), true, r.value.keys, refused).schema, keys, refused)
  {
    hide LoadDump, LiveStream, LoadStream, Streams.Orderly, DumpOf, Encodable, Fits, Exported;
    hide KeyStore.Finished, KeyStore.Preserved, KeyStore.Known, KeyStore.Valid;
    DumpCarriesStream(codec, zstd, reading, plan, mode, ms, keys, DumpOf(codec, Exported(zstd, plan, mode, ms, keys)),
                      max);
    KeyStore.ImportAndLoadKeysAgree(d, keys, refused);
    KeyStore.FinishedLeaves(d, true, Some(keys), refused);
  }
}
