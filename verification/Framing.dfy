/** The wire format: length-prefixed frames, written through one buffer and read back one at a
    time. A frame is an encoded message, or, with the top bit of its length set, a data chunk. */
module Framing {
  import opened Bytes

  /** An encoding of messages (`bincode`), or of byte strings (`zstd`). */
  datatype Codec<!M> = Codec(encode: M -> seq<Byte>, decode: seq<Byte> -> Option<M>)

  ghost predicate Lossless<M(!new)>(codec: Codec<M>) {
    forall m :: codec.decode(codec.encode(m)) == Some(m)
  }

  const U32_END: nat := 0x1_0000_0000
  const RAW_CHUNK_FLAG: nat := 0x8000_0000
  const RAW_CHUNK_HEADER_LEN: nat := 8

  datatype Wire<+M> = Plain(message: M) | Chunk(table: U16, rows: U16, tsv: seq<Byte>)

  // ------------------------------------------------------------------
  // Frames
  // ------------------------------------------------------------------

  /** `len as u32`. */
  function AsU32(n: nat): U32 { n % U32_END }

  /** `len | RAW_CHUNK_FLAG`. */
  function Flagged(n: U32): U32 { if n < RAW_CHUNK_FLAG then n + RAW_CHUNK_FLAG else n }

  function Framed(payload: seq<Byte>): seq<Byte> { Le(AsU32(|payload|), 4) + payload }

  function ChunkFrame(table: U16, rows: U16, tsv: seq<Byte>): seq<Byte> {
    Le(Flagged(AsU32(4 + |tsv|)), 4) + (Le(table, 2) + Le(rows, 2) + tsv)
  }

  function FrameOf<M>(codec: Codec<M>, w: Wire<M>): seq<Byte> {
    match w
    case Plain(m) => Framed(codec.encode(m))
    case Chunk(table, rows, tsv) => ChunkFrame(table, rows, tsv)
  }

  function Frames<M>(codec: Codec<M>, ws: seq<Wire<M>>): seq<Byte> {
    if ws == [] then [] else Frames(codec, ws[..|ws| - 1]) + FrameOf(codec, ws[|ws| - 1])
  }

  function PayloadSize<M>(codec: Codec<M>, w: Wire<M>): nat {
    match w
    case Plain(m) => |codec.encode(m)|
    case Chunk(_, _, tsv) => 4 + |tsv|
  }

  // ------------------------------------------------------------------
  // Receiving
  // ------------------------------------------------------------------

  lemma {:induction false} FromLeBound(s: seq<Byte>)
    ensures FromLe(s) < Pow256(|s|)
  {
    if s != [] { FromLeBound(s[1..]); }
  }

  function U16At(s: seq<Byte>, i: nat): U16
    requires i + 2 <= |s|
  {
    FromLeBound(s[i..i + 2]);
    Pow256Values();
    FromLe(s[i..i + 2])
  }

  function DecodeBody<M>(codec: Codec<M>, raw: bool, body: seq<Byte>): Option<Wire<M>> {
    if raw then
      if |body| < 4 then None else Some(Chunk(U16At(body, 0), U16At(body, 2), body[4..]))
    else
      var m :- codec.decode(body);
      Some(Plain(m))
  }

  /** One `recv_message` on the unread bytes: the message and what is left, or an error. */
  function RecvMessage<M>(codec: Codec<M>, s: seq<Byte>, max: nat): Option<(Wire<M>, seq<Byte>)> {
    if |s| < 4 then None
    else
      var word := FromLe(s[..4]);
      var raw := word >= RAW_CHUNK_FLAG;
      var len := if raw then word - RAW_CHUNK_FLAG else word;
      if len > max || |s| < 4 + len then None
      else
        var w :- DecodeBody(codec, raw, s[4..4 + len]);
        Some((w, s[4 + len..]))
  }

  function RecvMany<M>(codec: Codec<M>, s: seq<Byte>, max: nat, n: nat): Option<(seq<Wire<M>>, seq<Byte>)> {
    if n == 0 then Some(([], s))
    else
      var before :- RecvMany(codec, s, max, n - 1);
      var last :- RecvMessage(codec, before.1, max);
      Some((before.0 + [last.0], last.1))
  }

  lemma WordOf(word: U32, body: seq<Byte>)
    ensures |Le(word, 4) + body| == 4 + |body|
    ensures FromLe((Le(word, 4) + body)[..4]) == word && (Le(word, 4) + body)[4..] == body
  {
    Pow256Values();
    LePrefix(word, 4, body);
  }

  lemma ChunkBody(table: U16, rows: U16, tsv: seq<Byte>)
    ensures var body := Le(table, 2) + Le(rows, 2) + tsv;
            |body| == 4 + |tsv| && U16At(body, 0) == table && U16At(body, 2) == rows && body[4..] == tsv
  {
    Pow256Values();
    var body := Le(table, 2) + Le(rows, 2) + tsv;
    assert body[0..2] == Le(table, 2) && body[2..4] == Le(rows, 2);
    LeRoundTrip(table, 2);
    LeRoundTrip(rows, 2);
  }

  /** A frame is read back, and nothing after it touched, exactly when its payload is under 2 GiB
      and within the receiver's limit: the length and the chunk flag share one 32-bit word. */
  lemma FrameReceived<M(!new)>(codec: Codec<M>, w: Wire<M>, rest: seq<Byte>, max: nat)
    requires Lossless(codec) && PayloadSize(codec, w) < U32_END
    ensures RecvMessage(codec, FrameOf(codec, w) + rest, max) == Some((w, rest))
            <==> PayloadSize(codec, w) < 0x8000_0000 && PayloadSize(codec, w) <= max
  {
    hide FrameOf, FromLe, Le, Pow256, DecodeBody;
    var body, word := Body(codec, w), Word(codec, w);
    FrameParts(codec, w);
    var s := FrameOf(codec, w) + rest;
    assert s == Le(word, 4) + (body + rest);
    WordOf(word, body + rest);
    if |body| < RAW_CHUNK_FLAG {
      assert s[4..4 + |body|] == (body + rest)[..|body|] == body;
      assert s[4 + |body|..] == (body + rest)[|body|..] == rest;
    } else {
      Misread(codec, w, s, max);
    }
  }

  function Body<M>(codec: Codec<M>, w: Wire<M>): seq<Byte> {
    match w
    case Plain(m) => codec.encode(m)
    case Chunk(table, rows, tsv) => Le(table, 2) + Le(rows, 2) + tsv
  }

  function Word<M>(codec: Codec<M>, w: Wire<M>): U32 {
    if w.Plain? then AsU32(PayloadSize(codec, w)) else Flagged(AsU32(PayloadSize(codec, w)))
  }

  lemma FrameParts<M(!new)>(codec: Codec<M>, w: Wire<M>)
    requires Lossless(codec)
    ensures FrameOf(codec, w) == Le(Word(codec, w), 4) + Body(codec, w) && |Body(codec, w)| == PayloadSize(codec, w)
    ensures DecodeBody(codec, w.Chunk?, Body(codec, w)) == Some(w)
  {
    if w.Chunk? { ChunkBody(w.table, w.rows, w.tsv); }
  }

  /** A longer payload sets the flag bit itself: a message looks like a chunk, and a chunk is
      cut short. */
  lemma Misread<M>(codec: Codec<M>, w: Wire<M>, s: seq<Byte>, max: nat)
    requires RAW_CHUNK_FLAG <= PayloadSize(codec, w) < U32_END
    requires |s| >= 4 && FromLe(s[..4]) == Word(codec, w)
    ensures var r := RecvMessage(codec, s, max); r.Some? ==> r.value.0 != w
  {
    hide FromLe, Pow256, U16At;
  }

  /** Receiving repeatedly gives the messages back, in order. */
  lemma {:induction false} AllReceived<M(!new)>(codec: Codec<M>, ws: seq<Wire<M>>, rest: seq<Byte>, max: nat)
    requires Lossless(codec)
    requires forall i ::
             0 <= i < |ws| ==> PayloadSize(codec, ws[i]) < RAW_CHUNK_FLAG && PayloadSize(codec, ws[i]) <= max
    ensures RecvMany(codec, Frames(codec, ws) + rest, max, |ws|) == Some((ws, rest))
  {
    hide FrameOf, RecvMessage;
    if ws == [] {
      assert Frames(codec, ws) + rest == rest;
    } else {
      var n := |ws| - 1;
      var more := FrameOf(codec, ws[n]) + rest;
      assert Frames(codec, ws) + rest == Frames(codec, ws[..n]) + more;
      AllReceived(codec, ws[..n], more, max);
      FrameReceived(codec, ws[n], rest, max);
      assert ws[..n] + [ws[n]] == ws;
    }
  }

  // ------------------------------------------------------------------
  // Sending
  // ------------------------------------------------------------------

  datatype Op<+M> =
    | Send(message: M)
    | SendNoflush(message: M)
    | SendChunk(table: U16, rows: U16, tsv: seq<Byte>)
    | Flush

  function SentBy<M>(op: Op<M>): seq<Wire<M>> {
    match op
    case Send(m) => [Plain(m)]
    case SendNoflush(m) => [Plain(m)]
    case SendChunk(table, rows, tsv) => [Chunk(table, rows, tsv)]
    case Flush => []
  }

  function Sent<M>(ops: seq<Op<M>>): seq<Wire<M>> {
    if ops == [] then [] else Sent(ops[..|ops| - 1]) + SentBy(ops[|ops| - 1])
  }

  lemma FramesAppend<M>(codec: Codec<M>, ws: seq<Wire<M>>, more: seq<Wire<M>>)
    requires |more| <= 1
    ensures Frames(codec, ws + more) == Frames(codec, ws) + Frames(codec, more)
  {
    hide FrameOf;
    if more == [] {
      assert ws + more == ws;
    } else {
      assert more == [more[0]] && (ws + more)[..|ws|] == ws;
      FramesOne(codec, more[0]);
    }
  }

  lemma FramesOne<M>(codec: Codec<M>, w: Wire<M>)
    ensures Frames(codec, [w]) == FrameOf(codec, w)
  {
    hide FrameOf;
    assert [w][..0] == [];
  }

  class MessageWriter<M> {
    const codec: Codec<M>
    const capacity: nat
    var buf: seq<Byte>
    var inner: seq<Byte>

    /** What has been written, whether it has reached the inner writer or not. */
    function Stream(): seq<Byte>
      reads this
    {
      inner + buf
    }

    constructor (capacity: nat, codec: Codec<M>)
      ensures this.codec == codec && this.capacity == capacity && Stream() == [] && |buf| <= capacity
    {
      this.codec, this.capacity, buf, inner := codec, capacity, [], [];
    }

    /** The length is patched in once the encoder has run. */
    method EncodeIntoBuf(message: M)
      modifies this`buf
      ensures buf == old(buf) + FrameOf(codec, Plain(message))
    {
      var lenPos := |buf|;
      buf := buf + [0, 0, 0, 0];
      buf := buf + codec.encode(message);
      var msgLen := AsU32(|buf| - lenPos - 4);
      buf := buf[..lenPos] + Le(msgLen, 4) + buf[lenPos + 4..];
      assert buf == old(buf) + Le(msgLen, 4) + codec.encode(message);
    }

    method FlushBuf()
      modifies this
      ensures buf == [] && inner == old(Stream())
    {
      if buf != [] { inner, buf := inner + buf, []; }
    }

    method WriteMessageNoflush(message: M)
      modifies this
      ensures Stream() == old(Stream()) + FrameOf(codec, Plain(message)) && |buf| <= capacity
    {
      hide FrameOf;
      EncodeIntoBuf(message);
      if |buf| >= capacity { FlushBuf(); }
    }

    method WriteMessage(message: M)
      modifies this
      ensures Stream() == old(Stream()) + FrameOf(codec, Plain(message)) && buf == []
    {
      hide FrameOf;
      WriteMessageNoflush(message);
      FlushBuf();
    }

    /** Small writes are buffered, large ones written through, in order either way. */
    method WritePreencoded(bytes: seq<Byte>)
      requires |buf| <= capacity
      modifies this
      ensures Stream() == old(Stream()) + bytes && |buf| <= capacity
    {
      if |buf| + |bytes| <= capacity {
        buf := buf + bytes;
      } else {
        FlushBuf();
        if |bytes| <= capacity { buf := buf + bytes; } else { inner := inner + bytes; }
      }
    }

    method Do(op: Op<M>)
      requires |buf| <= capacity
      modifies this
      ensures Stream() == old(Stream()) + Frames(codec, SentBy(op)) && |buf| <= capacity
      ensures op.Flush? || op.Send? ==> buf == []
    {
      hide FrameOf, ChunkFrame, Frames;
      FramesBy(codec, op);
      assert old(Stream()) + [] == old(Stream());
      match op
      case Send(m) => WriteMessage(m);
      case SendNoflush(m) => WriteMessageNoflush(m);
      case SendChunk(table, rows, tsv) => WritePreencoded(ChunkFrame(table, rows, tsv));
      case Flush => FlushBuf();
    }

    /** However writes and flushes are mixed, what was written is the messages' frames in
        order, and the buffer never holds more than its capacity. */
    method Run(ops: seq<Op<M>>)
      requires |buf| <= capacity
      modifies this
      ensures Stream() == old(Stream()) + Frames(codec, Sent(ops)) && |buf| <= capacity
      ensures ops != [] && (ops[|ops| - 1].Flush? || ops[|ops| - 1].Send?)
              ==> inner == old(Stream()) + Frames(codec, Sent(ops))
    {
      hide FrameOf, Frames, Sent, SentBy;
      SentNone(codec);
      assert old(Stream()) + [] == old(Stream());
      for i := 0 to |ops|
        invariant Stream() == old(Stream()) + Frames(codec, Sent(ops[..i])) && |buf| <= capacity
        invariant i > 0 && (ops[i - 1].Flush? || ops[i - 1].Send?) ==> buf == []
      {
        SentStep(codec, old(Stream()), ops, i);
        Do(ops[i]);
      }
      assert ops[..|ops|] == ops;
    }
  }

  lemma FramesBy<M>(codec: Codec<M>, op: Op<M>)
    ensures op.Send? || op.SendNoflush? ==> Frames(codec, SentBy(op)) == FrameOf(codec, Plain(op.message))
    ensures op.SendChunk? ==> Frames(codec, SentBy(op)) == ChunkFrame(op.table, op.rows, op.tsv)
    ensures op.Flush? ==> Frames(codec, SentBy(op)) == []
  {
    var sent := SentBy(op);
    assert |sent| == 1 ==> sent[..0] == [];
  }

  lemma SentNone<M>(codec: Codec<M>)
    ensures Frames(codec, Sent<M>([])) == []
  {
  }

  lemma SentStep<M>(codec: Codec<M>, base: seq<Byte>, ops: seq<Op<M>>, i: nat)
    requires i < |ops|
    ensures base + Frames(codec, Sent(ops[..i + 1]))
            == base + Frames(codec, Sent(ops[..i])) + Frames(codec, SentBy(ops[i]))
  {
    assert ops[..i + 1][..i] == ops[..i];
    FramesAppend(codec, Sent(ops[..i]), SentBy(ops[i]));
  }

  // ------------------------------------------------------------------
  // Compression
  // ------------------------------------------------------------------

  datatype Mode = Uncompressed | Auto | Zstd

  /** A payload as it travels: under zstd, its length and the compressed bytes. */
  function Packed(zstd: Codec<seq<Byte>>, mode: Mode, data: seq<Byte>): seq<Byte> {
    if mode.Zstd? then Le(AsU32(|data|), 4) + zstd.encode(data) else data
  }

  function MaybeDecompress(zstd: Codec<seq<Byte>>, mode: Mode, data: seq<Byte>): Option<seq<Byte>> {
    if !mode.Zstd? then Some(data)
    else if |data| < 4 then None
    else
      var plain :- zstd.decode(data[4..]);
      if |plain| != FromLe(data[..4]) then None else Some(plain)
  }

  /** The payload comes back, unless it was compressed and its length does not fit the field. */
  lemma Unpacked(zstd: Codec<seq<Byte>>, mode: Mode, data: seq<Byte>)
    requires Lossless(zstd)
    ensures MaybeDecompress(zstd, mode, Packed(zstd, mode, data)) == Some(data)
            <==> !mode.Zstd? || |data| < 0x1_0000_0000
  {
    WordOf(AsU32(|data|), zstd.encode(data));
  }
}
