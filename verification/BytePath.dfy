/** The byte path from end to end: rows escaped to text, framed as chunks, compressed, buffered and
    written; received, decompressed, split and loaded. What the client makes of the bytes is the
    stream `EndToEnd` speaks of. */
module BytePath {
  import opened Bytes
  import opened RowKeys
  import opened Rows
  import opened Streams
  import opened Emission
  import opened Framing
  import opened Tsv
  import ImportMachine
  import opened Closure
  import LocalDb
  import EndToEnd

  // ------------------------------------------------------------------
  // What a stored cell is loaded as
  // ------------------------------------------------------------------

  /** The column can hold the cell. */
  predicate Fits(kind: Kind, c: Stored) {
    match c
    case SNull => true
    case SBytes(_) => !kind.Number?
    case SOther(_, _) => false
    case _ => kind.Number?
  }

  function LoadedOf(kind: Kind, c: Stored): Loaded {
    match c
    case SSigned(i) => LNumber(i)
    case SUnsigned(u) => LNumber(u)
    case SPadded(u, _) => LNumber(u)
    case SBytes(b) => LText(b)
    case _ => LNull
  }

  lemma PaddedParses(u: U64, width: nat)
    ensures ParseInt(Padded(u, width), I64_MIN, U64_MAX) == Some(u)
  {
    PaddedValue(u, width);
    assert Padded(u, width)[0] >= ZERO;
  }

  /** Over either protocol, padded or not, a cell is loaded as what it is. */
  lemma CellArrives(kind: Kind, c: Stored, p: Protocol, render: Value -> seq<Byte>, pick: nat, count: nat)
    requires Fits(kind, c)
    ensures Loads(kind, ReadCell(Column(kind, Keep), Image(c, p), render, pick, count)) == LoadedOf(kind, c)
  {
    hide ReadCell, Loads, ParseInt, Padded, Decimal;
    match c {
      case SSigned(i) => ParseDecimal(i, I64_MIN, U64_MAX);
      case SUnsigned(u) => ParseDecimal(u, I64_MIN, U64_MAX);
      case SPadded(u, width) => PaddedParses(u, width);
      case _ =>
    }
    ValueArrives(kind, Image(c, p), render, pick, count);
  }

  // ------------------------------------------------------------------
  // The two ends
  // ------------------------------------------------------------------

  /** Messages other than chunks. */
  datatype Control = TableSchema(table: U16) | TableEnd(table: U16, rows: nat)

  /** What the two ends share: the encodings, the table numbers, each table's columns, and what the
      local database makes of a loaded row: its key, and its contents. */
  datatype Setting = Setting(
    codec: Codec<Control>,
    zstd: Codec<seq<Byte>>,
    mode: Mode,
    max: nat,
    id: string -> U16,
    name: U16 -> string,
    kinds: string -> seq<Kind>,
    render: Value -> seq<Byte>,
    key: (string, seq<Loaded>) -> nat,
    columns: (string, seq<Loaded>) -> string)

  function Plainly(kinds: seq<Kind>): (columns: seq<Column>)
    ensures |columns| == |kinds| && forall i :: 0 <= i < |kinds| ==> columns[i] == Column(kinds[i], Keep)
  {
    seq(|kinds|, i requires 0 <= i < |kinds| => Column(kinds[i], Keep))
  }

  /** Which protocol brought each row of a chunk: a looked-up table's chunks mix the two. */
  type Origin = nat -> Protocol

  function RowImages(rows: seq<Row>, via: Origin): (images: seq<seq<Value>>)
    ensures |images| == |rows| && forall k :: 0 <= k < |rows| ==> images[k] == Images(rows[k], via(k))
  {
    seq(|rows|, k requires 0 <= k < |rows| => Images(rows[k], via(k)))
  }

  /** No column is anonymized, so no choice is made. */
  function NoPick(i: nat): nat { 0 }

  function NoPicks(k: nat): nat -> nat { NoPick }

  function TextOf(se: Setting, t: string, rows: seq<Row>, via: Origin): seq<Byte> {
    ChunkText(Plainly(se.kinds(t)), RowImages(rows, via), se.render, NoPicks, 0)
  }

  /** `as u16`. */
  function AsU16(n: nat): U16 { n % 0x1_0000 }

  function WireOf(se: Setting, m: RowMessage, via: Origin): Wire<Control> {
    match m
    case Schema(t) => Plain(TableSchema(se.id(t)))
    case Data(t, n, rows) => Chunk(se.id(t), AsU16(n), Packed(se.zstd, se.mode, TextOf(se, t, rows, via)))
    case TableDone(t, n) => Plain(TableEnd(se.id(t), n))
  }

  function Wires(se: Setting, ms: seq<RowMessage>, vias: seq<Origin>): (ws: seq<Wire<Control>>)
    requires |vias| == |ms|
    ensures |ws| == |ms| && forall i :: 0 <= i < |ms| ==> ws[i] == WireOf(se, ms[i], vias[i])
  {
    seq(|ms|, i requires 0 <= i < |ms| => WireOf(se, ms[i], vias[i]))
  }

  function LoadedFields(kinds: seq<Kind>, line: seq<Option<seq<Byte>>>): seq<Loaded> {
    seq(|kinds|, i requires 0 <= i < |kinds| => Loads(kinds[i], if i < |line| then line[i] else None))
  }

  /** `LOAD DATA` of a chunk: the first line with a key stays. */
  function LoadLines(se: Setting, t: string, lines: seq<seq<Option<seq<Byte>>>>): LocalDb.Rows {
    if lines == [] then map[]
    else
      var fields := LoadedFields(se.kinds(t), lines[|lines| - 1]);
      map[se.key(t, fields) := se.columns(t, fields)] + LoadLines(se, t, lines[..|lines| - 1])
  }

  /** What the client makes of a received message. */
  function ReadWire(se: Setting, w: Wire<Control>): Option<ImportMachine.Msg> {
    match w
    case Plain(TableSchema(i)) => Some(Message.Schema(se.name(i)))
    case Plain(TableEnd(i, n)) => Some(Message.TableDone(se.name(i), n))
    case Chunk(i, n, tsv) =>
      var text :- MaybeDecompress(se.zstd, se.mode, tsv);
      Some(Message.Data(se.name(i), n, LoadLines(se, se.name(i), ReadLines(text))))
  }

  function ReadWires(se: Setting, ws: seq<Wire<Control>>): Option<seq<ImportMachine.Msg>> {
    if ws == [] then Some([])
    else
      var before :- ReadWires(se, ws[..|ws| - 1]);
      var last :- ReadWire(se, ws[|ws| - 1]);
      Some(before + [last])
  }

  /** The client's reading of `n` messages from the bytes of a connection, and what is left. */
  function ReadStream(se: Setting, s: seq<Byte>, n: nat): Option<(seq<ImportMachine.Msg>, seq<Byte>)> {
    var received :- RecvMany(se.codec, s, se.max, n);
    var ms :- ReadWires(se, received.0);
    Some((ms, received.1))
  }

  // ------------------------------------------------------------------
  // What it should be
  // ------------------------------------------------------------------

  function LoadedRow(kinds: seq<Kind>, row: Row): seq<Loaded> {
    seq(|kinds|, i requires 0 <= i < |kinds| => if i < |row| then LoadedOf(kinds[i], row[i]) else LNull)
  }

  /** How rows are stored, as a function of the source's rows. */
  function StorageOf(se: Setting): EndToEnd.Storage {
    EndToEnd.Storage(
      (t, row) => se.key(t, LoadedRow(se.kinds(t), row)),
      (t, row) => se.columns(t, LoadedRow(se.kinds(t), row)))
  }

  predicate RowFits(kinds: seq<Kind>, row: Row) {
    |row| == |kinds| && forall i :: 0 <= i < |kinds| ==> Fits(kinds[i], row[i])
  }

  /** Tables are numbered apart; rows fit their columns; lengths and counts fit their fields. */
  ghost predicate Sendable(se: Setting, m: RowMessage, via: Origin) {
    && se.name(se.id(m.table)) == m.table
    && PayloadSize(se.codec, WireOf(se, m, via)) < RAW_CHUNK_FLAG
    && PayloadSize(se.codec, WireOf(se, m, via)) <= se.max
    && (m.Data? ==>
          && m.rows < 0x1_0000 && se.kinds(m.table) != [] && |TextOf(se, m.table, m.data, via)| < U32_END
          && forall r :: r in m.data ==> RowFits(se.kinds(m.table), r))
  }

  ghost predicate AllSendable(se: Setting, ms: seq<RowMessage>, vias: seq<Origin>) {
    |vias| == |ms| && forall i :: 0 <= i < |ms| ==> Sendable(se, ms[i], vias[i])
  }

  ghost predicate GoodSetting(se: Setting) { Lossless(se.codec) && Lossless(se.zstd) && PlainRender(se.render) }

  // ------------------------------------------------------------------
  // It is
  // ------------------------------------------------------------------

  /** One row's line is loaded as the row. */
  lemma LineArrives(se: Setting, t: string, row: Row, p: Protocol, line: seq<Option<seq<Byte>>>, count: nat)
    requires RowFits(se.kinds(t), row)
    requires ReadAs(line, Plainly(se.kinds(t)), Images(row, p), se.render, NoPick, count)
    ensures LoadedFields(se.kinds(t), line) == LoadedRow(se.kinds(t), row)
  {
    hide Loads, ReadCell, LoadedOf, Image;
    var kinds := se.kinds(t);
    forall i | 0 <= i < |kinds| ensures Loads(kinds[i], line[i]) == LoadedOf(kinds[i], row[i]) {
      CellArrives(kinds[i], row[i], p, se.render, 0, CountAt(Plainly(kinds), count, i));
    }
  }

  /** Each line is loaded as its row, so the lines are stored as the rows. */
  lemma {:induction false} LinesStored(se: Setting, t: string, lines: seq<seq<Option<seq<Byte>>>>, rows: seq<Row>)
    requires |lines| == |rows|
    requires forall k :: 0 <= k < |rows| ==> LoadedFields(se.kinds(t), lines[k]) == LoadedRow(se.kinds(t), rows[k])
    ensures LoadLines(se, t, lines) == EndToEnd.Stored(StorageOf(se), t, rows)
  {
    hide LoadedFields, LoadedRow;
    if rows != [] { LinesStored(se, t, lines[..|rows| - 1], rows[..|rows| - 1]); }
  }

  /** A chunk's text is loaded as the chunk's rows, whichever protocol brought each. */
  lemma TextArrives(se: Setting, t: string, rows: seq<Row>, via: Origin)
    requires se.kinds(t) != [] && PlainRender(se.render) && forall r :: r in rows ==> RowFits(se.kinds(t), r)
    ensures LoadLines(se, t, ReadLines(TextOf(se, t, rows, via))) == EndToEnd.Stored(StorageOf(se), t, rows)
  {
    hide ReadLines, ChunkText, PlainRender, RowFits, Images, ReadAs, LoadedFields, LoadedRow, LoadLines;
    var columns, images := Plainly(se.kinds(t)), RowImages(rows, via);
    RowsReadBack(columns, images, se.render, NoPicks, 0);
    var lines := ReadLines(TextOf(se, t, rows, via));
    forall k | 0 <= k < |rows| ensures LoadedFields(se.kinds(t), lines[k]) == LoadedRow(se.kinds(t), rows[k]) {
      LineArrives(se, t, rows[k], via(k), lines[k], CountBefore(columns, 0, k));
    }
    LinesStored(se, t, lines, rows);
  }

  lemma MessageArrives(se: Setting, m: RowMessage, via: Origin)
    requires GoodSetting(se) && Sendable(se, m, via)
    ensures ReadWire(se, WireOf(se, m, via)) == Some(EndToEnd.Carry(StorageOf(se), m))
  {
    hide TextOf, ReadLines, Packed, MaybeDecompress, PlainRender, RowFits, LoadLines, EndToEnd.Stored;
    if m.Data? {
      Unpacked(se.zstd, se.mode, TextOf(se, m.table, m.data, via));
      TextArrives(se, m.table, m.data, via);
    }
  }

  lemma {:induction false} MessagesArrive(se: Setting, ms: seq<RowMessage>, vias: seq<Origin>)
    requires GoodSetting(se) && AllSendable(se, ms, vias)
    ensures ReadWires(se, Wires(se, ms, vias)) == Some(EndToEnd.CarryAll(StorageOf(se), ms))
  {
    hide WireOf, ReadWire, Sendable, GoodSetting, EndToEnd.Carry;
    if ms != [] {
      var n := |ms| - 1;
      MessagesArrive(se, ms[..n], vias[..n]);
      MessageArrives(se, ms[n], vias[n]);
      assert Wires(se, ms, vias)[..n] == Wires(se, ms[..n], vias[..n]);
    }
  }

  /** What the server writes, the client reads as the stream itself, down to the rows stored, and
      takes nothing of what follows. */
  lemma StreamArrives(se: Setting, ms: seq<RowMessage>, vias: seq<Origin>, rest: seq<Byte>)
    requires GoodSetting(se) && AllSendable(se, ms, vias)
    ensures ReadStream(se, Frames(se.codec, Wires(se, ms, vias)) + rest, |ms|)
            == Some((EndToEnd.CarryAll(StorageOf(se), ms), rest))
  {
    hide WireOf, ReadWires, Frames, RecvMany, PlainRender, Lossless, EndToEnd.CarryAll;
    AllReceived(se.codec, Wires(se, ms, vias), rest, se.max);
    MessagesArrive(se, ms, vias);
  }

  /** The client has read a run of the server from the bytes of its connection. */
  ghost predicate FromBytes(env: Env, se: Setting, stream: seq<ImportMachine.Msg>) {
    exists p, whole, vias ::
      && EndToEnd.ServerRun(env, p, whole) && AllSendable(se, whole, vias)
      && ReadStream(se, Frames(se.codec, Wires(se, whole, vias)), |whole|) == Some((stream, []))
  }

  /** So `EndToEnd.ImportedIsReached` holds of what is read from bytes. */
  lemma BytesAreServed(env: Env, se: Setting, stream: seq<ImportMachine.Msg>)
    requires GoodSetting(se) && FromBytes(env, se, stream)
    ensures EndToEnd.FromServer(env, StorageOf(se), stream)
  {
    hide GoodSetting, Frames, ReadStream, EndToEnd.ServerRun, Sendable, EndToEnd.CarryAll;
    var p, whole, vias :|
      && EndToEnd.ServerRun(env, p, whole) && AllSendable(se, whole, vias)
      && ReadStream(se, Frames(se.codec, Wires(se, whole, vias)), |whole|) == Some((stream, []));
    StreamArrives(se, whole, vias, []);
    var bytes := Frames(se.codec, Wires(se, whole, vias));
    assert bytes + [] == bytes;
  }

  // ------------------------------------------------------------------
  // The server's side
  // ------------------------------------------------------------------

  lemma {:induction false} CountBeforeNext(columns: seq<Column>, count: nat, k: nat)
    ensures CountBefore(columns, count, k + 1) == CountAt(columns, CountBefore(columns, count, k), |columns|)
    decreases k
  {
    hide CountAt;
    if k > 0 { CountBeforeNext(columns, CountAt(columns, count, |columns|), k - 1); }
  }

  lemma {:induction false} TextAppend(columns: seq<Column>, rows: seq<seq<Value>>, row: seq<Value>,
                                      render: Value -> seq<Byte>, picks: nat -> nat -> nat, count: nat)
    ensures ChunkText(columns, rows + [row], render, picks, count)
         == ChunkText(columns, rows, render, picks, count)
            + Line(columns, row, render, picks(|rows|), CountBefore(columns, count, |rows|))
    decreases |rows|
  {
    hide Line;
    if rows == [] {
      assert rows + [row] == [row];
    } else {
      var next := CountAt(columns, count, |columns|);
      var later := (k: nat) => picks(k + 1);
      TextAppend(columns, rows[1..], row, render, later, next);
      assert (rows + [row])[1..] == rows[1..] + [row];
      assert later(|rows| - 1) == picks(|rows|);
    }
  }

  /** Rows are written one by one, and the chunk is framed. */
  method WriteChunk(se: Setting, t: string, n: nat, rows: seq<Row>, via: Origin) returns (frame: seq<Byte>)
    ensures frame == FrameOf(se.codec, WireOf(se, Message.Data(t, n, rows), via))
  {
    hide ChunkText, Line, CountAt, CountBefore, Packed, ChunkFrame, Images;
    var columns, images := Plainly(se.kinds(t)), RowImages(rows, via);
    var w := new TsvWriter(columns, se.render);
    TextNone(columns, se.render);
    for k := 0 to |rows|
      invariant w.Valid() && w.Tsv() == ChunkText(columns, images[..k], se.render, NoPicks, 0)
      invariant w.uniqueCounter == CountBefore(columns, 0, k)
    {
      TextAppend(columns, images[..k], images[k], se.render, NoPicks, 0);
      assert images[..k + 1] == images[..k] + [images[k]];
      CountBeforeNext(columns, 0, k);
      w.WriteRow(images[k], NoPick);
    }
    assert images[..|rows|] == images;
    frame := w.TakeEncodedChunk(se.id(t), AsU16(n), se.mode, se.zstd);
  }

  lemma TextNone(columns: seq<Column>, render: Value -> seq<Byte>)
    ensures ChunkText(columns, [], render, NoPicks, 0) == [] && CountBefore(columns, 0, 0) == 0
  {
  }

  /** The writer loop puts the stream's frames on the connection, and its end flushes them. */
  method Serve(se: Setting, ms: seq<RowMessage>, vias: seq<Origin>, writer: MessageWriter<Control>)
    requires |vias| == |ms| && writer.codec == se.codec && |writer.buf| <= writer.capacity
    modifies writer
    ensures writer.inner == old(writer.Stream()) + Frames(se.codec, Wires(se, ms, vias))
    ensures writer.buf == []
  {
    hide FrameOf, WireOf;
    var wires := Wires(se, ms, vias);
    assert old(writer.Stream()) + Frames(se.codec, wires[..0]) == old(writer.Stream());
    for i := 0 to |ms|
      invariant |writer.buf| <= writer.capacity
      invariant writer.Stream() == old(writer.Stream()) + Frames(se.codec, wires[..i])
    {
      assert wires[..i + 1][..i] == wires[..i];
      Put(se, ms[i], vias[i], writer);
    }
    assert wires[..|ms|] == wires;
    writer.FlushBuf();
  }

  method Put(se: Setting, m: RowMessage, via: Origin, writer: MessageWriter<Control>)
    requires writer.codec == se.codec && |writer.buf| <= writer.capacity
    modifies writer
    ensures |writer.buf| <= writer.capacity
    ensures writer.Stream() == old(writer.Stream()) + FrameOf(se.codec, WireOf(se, m, via))
  {
    hide FrameOf;
    match m
    case Schema(t) => writer.WriteMessageNoflush(TableSchema(se.id(t)));
    case Data(t, n, rows) =>
      var frame := WriteChunk(se, t, n, rows, via);
      writer.WritePreencoded(frame);
    case TableDone(t, n) => writer.WriteMessageNoflush(TableEnd(se.id(t), n));
  }
}
