/** Rows as text for `LOAD DATA`: how the server escapes them, and how MySQL reads them back
    (MySQL 8.4 Reference Manual, section 15.2.9). */
module Tsv {
  import opened Bytes
  import opened RowKeys
  import opened Framing

  const TAB: Byte := 9
  const NEWLINE: Byte := 10
  const BACKSLASH: Byte := 92
  const UPPER_N: Byte := 78

  /** `\N` */
  const NULL_FIELD: seq<Byte> := [BACKSLASH, UPPER_N]

  /** A column as `LOAD DATA` fills it: a binary one through `UNHEX`. */
  datatype Kind = Text | Binary | Number

  /** The anonymization of a column; a pool's values hold raw bytes. */
  datatype Action = Keep | Nullify | Fake(pool: seq<seq<Byte>>) | FakeUnique(pool: seq<seq<Byte>>)

  datatype Column = Column(kind: Kind, action: Action)

  // ------------------------------------------------------------------
  // Escaping
  // ------------------------------------------------------------------

  function Replacement(b: Byte): Option<Byte> {
    if b == BACKSLASH then Some(BACKSLASH)
    else if b == TAB then Some(116)
    else if b == NEWLINE then Some(110)
    else if b == 13 then Some(114)
    else if b == 0 then Some(48)
    else None
  }

  function EscapedByte(b: Byte): seq<Byte> {
    match Replacement(b)
    case Some(r) => [BACKSLASH, r]
    case None => [b]
  }

  function Escaped(bytes: seq<Byte>): seq<Byte> {
    if bytes == [] then [] else EscapedByte(bytes[0]) + Escaped(bytes[1..])
  }

  function HexDigit(n: nat): Byte
    requires n < 16
  {
    if n < 10 then 48 + n else 87 + n
  }

  function Hex(bytes: seq<Byte>): seq<Byte> {
    if bytes == [] then [] else [HexDigit(bytes[0] / 16), HexDigit(bytes[0] % 16)] + Hex(bytes[1..])
  }

  /** `str::replace`: every occurrence of `what`, left to right. */
  function Replaced(s: seq<Byte>, what: seq<Byte>, with: seq<Byte>): seq<Byte>
    requires what != []
  {
    if |s| < |what| then s
    else if s[..|what|] == what then with + Replaced(s[|what|..], what, with)
    else [s[0]] + Replaced(s[1..], what, with)
  }

  /** "{unique()}" */
  const SENTINEL: seq<Byte> := [123, 117, 110, 105, 113, 117, 101, 40, 41, 125]

  // ------------------------------------------------------------------
  // Fields and lines
  // ------------------------------------------------------------------

  /** What a cell is to be after loading: NULL, or text. `pick` is the random choice, `count`
      the writer's counter of unique values. */
  function Meant(c: Column, v: Value, render: Value -> seq<Byte>, pick: nat, count: nat): Option<seq<Byte>> {
    match c.action
    case Nullify => None
    case Fake(pool) => if pool == [] then None else Some(pool[pick % |pool|])
    case FakeUnique(pool) => if pool == [] then None else Some(Replaced(pool[count % |pool|], SENTINEL, Decimal(count)))
    case Keep =>
      match v
      case Null => None
      case Bytes(b) => Some(b)
      case Int(i) => Some(Decimal(i))
      case UInt(u) => Some(Decimal(u))
      case _ => Some(render(v))
  }

  /** Text is escaped; bytes of a binary column are in hex. Numbers, dates and times go as they
      are, in any column. */
  function Field(c: Column, v: Value, render: Value -> seq<Byte>, pick: nat, count: nat): seq<Byte> {
    match Meant(c, v, render, pick, count)
    case None => NULL_FIELD
    case Some(text) =>
      if c.action.Keep? && !v.Bytes? then text
      else if c.kind.Binary? then Hex(text)
      else Escaped(text)
  }

  function CellOf(row: seq<Value>, i: nat): Value { if i < |row| then row[i] else Null }

  function NextCount(c: Column, count: nat): nat {
    if c.action.FakeUnique? && c.action.pool != [] then count + 1 else count
  }

  /** The counter before column `i` of a row. */
  function CountAt(columns: seq<Column>, count: nat, i: nat): nat
    requires i <= |columns|
  {
    if i == 0 then count else NextCount(columns[i - 1], CountAt(columns, count, i - 1))
  }

  /** The fields of a row. */
  function Fields(columns: seq<Column>, row: seq<Value>, render: Value -> seq<Byte>, picks: nat -> nat,
                  count: nat): (fs: seq<seq<Byte>>)
    ensures |fs| == |columns|
  {
    seq(|columns|, i requires 0 <= i < |columns| =>
      Field(columns[i], CellOf(row, i), render, picks(i), CountAt(columns, count, i)))
  }

  function JoinTabs(fields: seq<seq<Byte>>): seq<Byte> {
    if fields == [] then []
    else
      var n := |fields| - 1;
      (if n == 0 then [] else JoinTabs(fields[..n]) + [TAB]) + fields[n]
  }

  function Line(columns: seq<Column>, row: seq<Value>, render: Value -> seq<Byte>, picks: nat -> nat,
                count: nat): seq<Byte> {
    JoinTabs(Fields(columns, row, render, picks, count)) + [NEWLINE]
  }

  // ------------------------------------------------------------------
  // The writer
  // ------------------------------------------------------------------

  const NO_HEADER: seq<Byte> := [0, 0, 0, 0, 0, 0, 0, 0]

  class TsvWriter {
    const columns: seq<Column>
    const render: Value -> seq<Byte>
    var buffer: seq<Byte>
    var uniqueCounter: nat

    /** The buffer starts with room for the frame header. */
    predicate Valid()
      reads this
    {
      |buffer| >= RAW_CHUNK_HEADER_LEN
    }

    constructor (columns: seq<Column>, render: Value -> seq<Byte>)
      ensures Valid() && this.columns == columns && this.render == render && uniqueCounter == 0 && Tsv() == []
    {
      this.columns, this.render, buffer, uniqueCounter := columns, render, NO_HEADER, 0;
    }

    function Tsv(): seq<Byte>
      reads this
      requires Valid()
    {
      buffer[RAW_CHUNK_HEADER_LEN..]
    }

    /** Clean stretches are copied whole; the result is the same as escaping byte by byte. */
    method EscapeTsvBytes(bytes: seq<Byte>)
      modifies this`buffer
      ensures buffer == old(buffer) + Escaped(bytes)
    {
      hide Escaped, Replacement;
      var start := 0;
      EscapedNone();
      for i := 0 to |bytes|
        invariant 0 <= start <= i
        invariant buffer + bytes[start..i] == old(buffer) + Escaped(bytes[..i])
      {
        EscapedStep(bytes, i);
        ghost var done := buffer + bytes[start..i];
        match Replacement(bytes[i]) {
          case None =>
            assert buffer + bytes[start..i + 1] == done + [bytes[i]];
          case Some(r) =>
            assert start == i ==> buffer == done;
            if start < i { buffer := buffer + bytes[start..i]; }
            buffer := buffer + [BACKSLASH, r];
            start := i + 1;
            assert buffer + bytes[start..i + 1] == done + [BACKSLASH, r];
        }
        assert buffer + bytes[start..i + 1] == old(buffer) + Escaped(bytes[..i + 1]);
      }
      assert bytes[..|bytes|] == bytes;
      if start < |bytes| { buffer := buffer + bytes[start..]; }
    }

    method WriteField(i: nat, v: Value, pick: nat)
      requires i < |columns|
      modifies this
      ensures buffer == old(buffer) + Field(columns[i], v, render, pick, old(uniqueCounter))
      ensures uniqueCounter == NextCount(columns[i], old(uniqueCounter))
    {
      var binary := columns[i].kind.Binary?;
      match columns[i].action
      case Nullify => buffer := buffer + NULL_FIELD;
      case Fake(pool) =>
        if pool == [] {
          buffer := buffer + NULL_FIELD;
        } else if binary {
          buffer := buffer + Hex(pool[pick % |pool|]);
        } else {
          buffer := buffer + Escaped(pool[pick % |pool|]);
        }
      case FakeUnique(pool) =>
        if pool == [] {
          buffer := buffer + NULL_FIELD;
        } else {
          var base := pool[uniqueCounter % |pool|];
          var value := Replaced(base, SENTINEL, Decimal(uniqueCounter));
          if binary { buffer := buffer + Hex(value); } else { EscapeTsvBytes(value); }
          uniqueCounter := uniqueCounter + 1;
        }
      case Keep =>
        match v {
          case Null => buffer := buffer + NULL_FIELD;
          case Bytes(b) => if binary { buffer := buffer + Hex(b); } else { EscapeTsvBytes(b); }
          case Int(n) => buffer := buffer + Decimal(n);
          case UInt(n) => buffer := buffer + Decimal(n);
          case _ => buffer := buffer + render(v);
        }
    }

    method WriteRow(row: seq<Value>, picks: nat -> nat)
      requires Valid()
      modifies this
      ensures Valid() && Tsv() == old(Tsv()) + Line(columns, row, render, picks, old(uniqueCounter))
      ensures uniqueCounter == CountAt(columns, old(uniqueCounter), |columns|)
    {
      hide Field, NextCount, JoinTabs;
      ghost var fields := Fields(columns, row, render, picks, uniqueCounter);
      JoinNone();
      for i := 0 to |columns|
        invariant buffer == old(buffer) + JoinTabs(fields[..i])
        invariant uniqueCounter == CountAt(columns, old(uniqueCounter), i)
      {
        JoinStep(fields, i);
        if i > 0 { buffer := buffer + [TAB]; }
        WriteField(i, CellOf(row, i), picks(i));
      }
      assert fields[..|columns|] == fields;
      buffer := buffer + [NEWLINE];
    }

    /** The header is patched in; compressed or not, the frame is the chunk's. */
    method TakeEncodedChunk(table: U16, rows: U16, mode: Mode, zstd: Codec<seq<Byte>>) returns (frame: seq<Byte>)
      requires Valid()
      modifies this`buffer
      ensures frame == ChunkFrame(table, rows, Packed(zstd, mode, old(Tsv())))
      ensures Valid() && Tsv() == []
    {
      var tsv := buffer[RAW_CHUNK_HEADER_LEN..];
      if mode.Zstd? {
        var compressed := zstd.encode(tsv);
        var flagged := Flagged(AsU32(4 + (4 + |compressed|)));
        frame := Le(flagged, 4) + Le(table, 2);
        frame := frame + Le(rows, 2);
        frame := frame + Le(AsU32(|tsv|), 4) + compressed;
        assert frame == Le(flagged, 4) + (Le(table, 2) + Le(rows, 2) + (Le(AsU32(|tsv|), 4) + compressed));
      } else {
        var flagged := Flagged(AsU32(4 + |tsv|));
        buffer := Le(flagged, 4) + buffer[4..];
        buffer := buffer[..4] + Le(table, 2) + buffer[6..];
        buffer := buffer[..6] + Le(rows, 2) + buffer[8..];
        frame := buffer;
        assert frame == Le(flagged, 4) + (Le(table, 2) + Le(rows, 2) + tsv);
      }
      buffer := NO_HEADER;
    }
  }

  lemma JoinNone()
    ensures JoinTabs([]) == []
  {
  }

  lemma JoinStep(fields: seq<seq<Byte>>, i: nat)
    requires i < |fields|
    ensures JoinTabs(fields[..i + 1])
            == (if i > 0 then JoinTabs(fields[..i]) + [TAB] else JoinTabs(fields[..i])) + fields[i]
  {
    assert fields[..i + 1][..i] == fields[..i];
    assert i == 0 ==> fields[..i] == [];
  }

  lemma {:induction false} EscapedAppend(a: seq<Byte>, b: seq<Byte>)
    ensures Escaped(a + b) == Escaped(a) + Escaped(b)
  {
    hide EscapedByte;
    if a == [] {
      assert a + b == b;
    } else {
      EscapedAppend(a[1..], b);
      assert (a + b)[1..] == a[1..] + b;
      assert Escaped(a + b) == EscapedByte(a[0]) + (Escaped(a[1..]) + Escaped(b));
    }
  }

  lemma EscapedNone()
    ensures Escaped([]) == []
  {
  }

  lemma EscapedStep(bytes: seq<Byte>, i: nat)
    requires i < |bytes|
    ensures Escaped(bytes[..i + 1]) == Escaped(bytes[..i]) +
            match Replacement(bytes[i])
            case None => [bytes[i]]
            case Some(r) => [BACKSLASH, r]
  {
    assert bytes[..i + 1] == bytes[..i] + [bytes[i]];
    EscapedAppend(bytes[..i], [bytes[i]]);
    assert [bytes[i]][1..] == [];
  }

  // ------------------------------------------------------------------
  // How LOAD DATA reads it
  // ------------------------------------------------------------------

  /** How far the first field goes: to a tab or newline that is not escaped. */
  function FieldLength(s: seq<Byte>): (n: nat)
    ensures n <= |s|
  {
    if s == [] || s[0] == TAB || s[0] == NEWLINE then 0
    else if s[0] == BACKSLASH && |s| > 1 then 2 + FieldLength(s[2..])
    else 1 + FieldLength(s[1..])
  }

  function Unescaped(b: Byte): Byte {
    if b == 48 then 0 else if b == 98 then 8 else if b == 110 then NEWLINE else if b == 114 then 13
    else if b == 116 then TAB else if b == 90 then 26 else b
  }

  function Unescape(s: seq<Byte>): seq<Byte> {
    if s == [] then []
    else if s[0] == BACKSLASH && |s| > 1 then [Unescaped(s[1])] + Unescape(s[2..])
    else [s[0]] + Unescape(s[1..])
  }

  /** A field that is `\N` and nothing else is NULL. */
  function FieldValue(s: seq<Byte>): Option<seq<Byte>> {
    if s == NULL_FIELD then None else Some(Unescape(s))
  }

  function ReadLine(s: seq<Byte>): (r: (seq<Option<seq<Byte>>>, seq<Byte>))
    ensures s != [] ==> |r.1| < |s|
    decreases |s|
  {
    var n := FieldLength(s);
    var v := FieldValue(s[..n]);
    if n < |s| && s[n] == TAB then
      var more := ReadLine(s[n + 1..]);
      ([v] + more.0, more.1)
    else ([v], if n < |s| then s[n + 1..] else [])
  }

  function ReadLines(s: seq<Byte>): seq<seq<Option<seq<Byte>>>>
    decreases |s|
  {
    if s == [] then []
    else
      var line := ReadLine(s);
      [line.0] + ReadLines(line.1)
  }

  function HexValue(b: Byte): Option<nat> {
    if 48 <= b <= 57 then Some(b - 48)
    else if 97 <= b <= 102 then Some(b - 87)
    else if 65 <= b <= 70 then Some(b - 55)
    else None
  }

  /** `UNHEX`, on an even number of digits. */
  function Unhex(s: seq<Byte>): Option<seq<Byte>> {
    if s == [] then Some([])
    else if |s| == 1 then None
    else
      var high :- HexValue(s[0]);
      var low :- HexValue(s[1]);
      var rest :- Unhex(s[2..]);
      Some([high * 16 + low] + rest)
  }

  datatype Loaded = LNull | LText(text: seq<Byte>) | LNumber(n: int) | LError

  /** What a column holds after reading a field. */
  function Loads(kind: Kind, field: Option<seq<Byte>>): Loaded {
    match field
    case None => LNull
    case Some(text) =>
      match kind
      case Text => LText(text)
      case Binary => (match Unhex(text) case Some(b) => LText(b) case None => LNull)
      case Number => (match ParseInt(text, I64_MIN, U64_MAX) case Some(n) => LNumber(n) case None => LError)
  }

  // ------------------------------------------------------------------
  // Round trip
  // ------------------------------------------------------------------

  predicate PlainByte(b: Byte) { b != TAB && b != NEWLINE && b != BACKSLASH }

  predicate PlainText(s: seq<Byte>) { forall i :: 0 <= i < |s| ==> PlainByte(s[i]) }

  /** A field the reader takes whole, up to the separator. */
  ghost predicate Whole(f: seq<Byte>) {
    forall s :: s == [] || s[0] == TAB || s[0] == NEWLINE ==> FieldLength(f + s) == |f|
  }

  lemma {:induction false} PlainWhole(f: seq<Byte>)
    requires PlainText(f)
    ensures Whole(f) && Unescape(f) == f && f != NULL_FIELD
  {
    if f == [] {
      forall s ensures f + s == s { }
    } else {
      PlainWhole(f[1..]);
      forall s | s == [] || s[0] == TAB || s[0] == NEWLINE ensures FieldLength(f + s) == |f| {
        assert (f + s)[1..] == f[1..] + s;
      }
      assert f == [f[0]] + f[1..];
    }
  }

  lemma NullWhole()
    ensures Whole(NULL_FIELD)
  {
    forall s | s == [] || s[0] == TAB || s[0] == NEWLINE ensures FieldLength(NULL_FIELD + s) == 2 {
      assert (NULL_FIELD + s)[2..] == s;
    }
  }

  lemma EscapedHead(b: Byte)
    ensures var e := EscapedByte(b);
            || (e == [b] && PlainByte(b))
            || (|e| == 2 && e[0] == BACKSLASH && e[1] != UPPER_N && Unescaped(e[1]) == b)
  {
  }

  lemma {:induction false} EscapedUnescapes(bytes: seq<Byte>)
    ensures Unescape(Escaped(bytes)) == bytes && Escaped(bytes) != NULL_FIELD
  {
    hide EscapedByte, Unescaped;
    if bytes != [] {
      var head, tail := EscapedByte(bytes[0]), Escaped(bytes[1..]);
      EscapedHead(bytes[0]);
      EscapedUnescapes(bytes[1..]);
      assert (head + tail)[|head|..] == tail;
      assert [bytes[0]] + bytes[1..] == bytes;
    }
  }

  lemma HeadTaken(head: seq<Byte>, rest: seq<Byte>)
    requires (|head| == 1 && PlainByte(head[0])) || (|head| == 2 && head[0] == BACKSLASH)
    ensures FieldLength(head + rest) == |head| + FieldLength(rest)
  {
    assert (head + rest)[|head|..] == rest;
  }

  lemma {:induction false} EscapedTaken(bytes: seq<Byte>, s: seq<Byte>)
    requires s == [] || s[0] == TAB || s[0] == NEWLINE
    ensures FieldLength(Escaped(bytes) + s) == |Escaped(bytes)|
  {
    hide EscapedByte, Unescaped;
    if bytes == [] {
      assert Escaped(bytes) + s == s;
    } else {
      hide FieldLength;
      var head, tail := EscapedByte(bytes[0]), Escaped(bytes[1..]);
      EscapedHead(bytes[0]);
      EscapedTaken(bytes[1..], s);
      HeadTaken(head, tail + s);
      assert head + tail + s == head + (tail + s);
    }
  }

  /** Escaped bytes are taken whole, come back as they were, and are never NULL. */
  lemma EscapedWhole(bytes: seq<Byte>)
    ensures Whole(Escaped(bytes)) && Unescape(Escaped(bytes)) == bytes && Escaped(bytes) != NULL_FIELD
  {
    EscapedUnescapes(bytes);
    forall s | s == [] || s[0] == TAB || s[0] == NEWLINE ensures FieldLength(Escaped(bytes) + s) == |Escaped(bytes)| {
      EscapedTaken(bytes, s);
    }
  }

  lemma DigitReads(n: nat)
    requires n < 16
    ensures HexValue(HexDigit(n)) == Some(n) && PlainByte(HexDigit(n))
  {
  }

  lemma {:induction false} HexPlain(bytes: seq<Byte>)
    ensures PlainText(Hex(bytes)) && Unhex(Hex(bytes)) == Some(bytes)
  {
    if bytes != [] {
      hide HexValue, HexDigit;
      HexPlain(bytes[1..]);
      var b := bytes[0];
      DigitReads(b / 16);
      DigitReads(b % 16);
      assert Hex(bytes)[2..] == Hex(bytes[1..]);
      assert [b] + bytes[1..] == bytes;
    }
  }

  lemma DecimalPlain(n: int)
    ensures PlainText(Decimal(n))
  {
  }

  /** Dates, times and floating-point numbers are written without any byte that needs escaping. */
  ghost predicate PlainRender(render: Value -> seq<Byte>) {
    forall v :: PlainText(render(v))
  }

  /** The text a field is read as: in a binary column, still in hex. */
  function Carried(c: Column, v: Value, text: seq<Byte>): seq<Byte> {
    if c.kind.Binary? && !(c.action.Keep? && !v.Bytes?) then Hex(text) else text
  }

  /** A field is taken whole and means what the cell was meant to be; NULL and text are never
      confused. */
  lemma FieldReads(c: Column, v: Value, render: Value -> seq<Byte>, pick: nat, count: nat)
    requires PlainRender(render)
    ensures Whole(Field(c, v, render, pick, count))
    ensures FieldValue(Field(c, v, render, pick, count)) ==
            ReadCell(c, v, render, pick, count)
  {
    NullWhole();
    match Meant(c, v, render, pick, count)
    case None =>
    case Some(text) =>
      if c.action.Keep? && !v.Bytes? {
        match v {
          case Int(i) => DecimalPlain(i);
          case UInt(u) => DecimalPlain(u);
          case _ =>
        }
        PlainWhole(text);
      } else if c.kind.Binary? {
        HexPlain(text);
        PlainWhole(Hex(text));
      } else {
        EscapedWhole(text);
      }
  }

  lemma {:induction false} JoinFront(fields: seq<seq<Byte>>)
    requires |fields| > 1
    ensures JoinTabs(fields) == fields[0] + [TAB] + JoinTabs(fields[1..])
  {
    var n := |fields| - 1;
    if n == 1 {
      assert fields[..1][..0] == [] && fields[1..][..0] == [];
    } else {
      JoinFront(fields[..n]);
      assert fields[..n][1..] == fields[1..][..n - 1];
    }
  }

  lemma JoinOne(field: seq<Byte>)
    ensures JoinTabs([field]) == field
  {
    assert [field][..0] == [];
  }

  /** One field and its separator. */
  lemma FieldThen(f: seq<Byte>, c: Byte, rest: seq<Byte>)
    requires Whole(f) && (c == TAB || c == NEWLINE)
    ensures var s := f + [c] + rest;
            FieldLength(s) == |f| < |s| && s[..|f|] == f && s[|f|] == c && s[|f| + 1..] == rest
  {
    assert f + [c] + rest == f + ([c] + rest);
  }

  /** Whole fields are read one by one, up to the end of their line. */
  lemma {:induction false} LineReads(fields: seq<seq<Byte>>, rest: seq<Byte>)
    requires fields != [] && forall f :: f in fields ==> Whole(f)
    ensures var r := ReadLine(JoinTabs(fields) + [NEWLINE] + rest);
            |r.0| == |fields| && r.1 == rest && forall i :: 0 <= i < |fields| ==> r.0[i] == FieldValue(fields[i])
    decreases |fields|
  {
    hide FieldLength, FieldValue, Whole, JoinTabs;
    var f := fields[0];
    assert f in fields;
    if |fields| == 1 {
      JoinOne(f);
      assert fields == [f];
      FieldThen(f, NEWLINE, rest);
    } else {
      JoinFront(fields);
      var more := JoinTabs(fields[1..]) + [NEWLINE] + rest;
      assert JoinTabs(fields) + [NEWLINE] + rest == f + [TAB] + more;
      FieldThen(f, TAB, more);
      LineReads(fields[1..], rest);
    }
  }

  /** A cell as it is read back. */
  function ReadCell(c: Column, v: Value, render: Value -> seq<Byte>, pick: nat, count: nat): Option<seq<Byte>> {
    match Meant(c, v, render, pick, count)
    case None => None
    case Some(text) => Some(Carried(c, v, text))
  }

  /** The rows of a chunk, each with the counter the one before left. */
  function ChunkText(columns: seq<Column>, rows: seq<seq<Value>>, render: Value -> seq<Byte>, picks: nat -> nat -> nat,
                     count: nat): seq<Byte>
    decreases |rows|
  {
    if rows == [] then []
    else
      Line(columns, rows[0], render, picks(0), count)
      + ChunkText(columns, rows[1..], render, (k: nat) => picks(k + 1), CountAt(columns, count, |columns|))
  }

  function CountBefore(columns: seq<Column>, count: nat, k: nat): nat
    decreases k
  {
    if k == 0 then count else CountBefore(columns, CountAt(columns, count, |columns|), k - 1)
  }

  /** Whatever bytes the rows hold, `LOAD DATA` reads as many lines as there are rows, each with
      as many fields as there are columns, and each field is its cell. */
  lemma {:induction false} RowsReadBack(columns: seq<Column>, rows: seq<seq<Value>>, render: Value -> seq<Byte>,
                                        picks: nat -> nat -> nat, count: nat)
    requires columns != [] && PlainRender(render)
    ensures var read := ReadLines(ChunkText(columns, rows, render, picks, count));
            && |read| == |rows|
            && forall k :: 0 <= k < |rows| ==>
                 ReadAs(read[k], columns, rows[k], render, picks(k), CountBefore(columns, count, k))
    decreases |rows|
  {
    hide ReadLine, ReadAs, Line, PlainRender;
    if rows != [] {
      var next := CountAt(columns, count, |columns|);
      var later := (k: nat) => picks(k + 1);
      var rest := ChunkText(columns, rows[1..], render, later, next);
      OneLineReads(columns, rows[0], render, picks(0), count, rest);
      RowsReadBack(columns, rows[1..], render, later, next);
      var read := ReadLines(ChunkText(columns, rows, render, picks, count));
      assert read == [ReadLine(Line(columns, rows[0], render, picks(0), count) + rest).0] + ReadLines(rest);
      forall k | 0 <= k < |rows|
        ensures ReadAs(read[k], columns, rows[k], render, picks(k), CountBefore(columns, count, k))
      {
        if k > 0 {
          assert read[k] == ReadLines(rest)[k - 1] && rows[k] == rows[1..][k - 1] && later(k - 1) == picks(k);
        }
      }
    }
  }

  /** Every field of the line is its cell. */
  ghost predicate ReadAs(line: seq<Option<seq<Byte>>>, columns: seq<Column>, row: seq<Value>,
                         render: Value -> seq<Byte>, picks: nat -> nat, count: nat) {
    && |line| == |columns|
    && forall i :: 0 <= i < |columns| ==>
         line[i] == ReadCell(columns[i], CellOf(row, i), render, picks(i), CountAt(columns, count, i))
  }

  lemma OneLineReads(columns: seq<Column>, row: seq<Value>, render: Value -> seq<Byte>, picks: nat -> nat, count: nat,
                     rest: seq<Byte>)
    requires columns != [] && PlainRender(render)
    ensures Line(columns, row, render, picks, count) != []
    ensures var r := ReadLine(Line(columns, row, render, picks, count) + rest);
            r.1 == rest && ReadAs(r.0, columns, row, render, picks, count)
  {
    hide ReadLine, Field, Whole, FieldValue, ReadCell, PlainRender, JoinTabs;
    var fields := Fields(columns, row, render, picks, count);
    forall i | 0 <= i < |fields|
      ensures Whole(fields[i])
      ensures FieldValue(fields[i])
              == ReadCell(columns[i], CellOf(row, i), render, picks(i), CountAt(columns, count, i))
    {
      FieldReads(columns[i], CellOf(row, i), render, picks(i), CountAt(columns, count, i));
    }
    LineReads(fields, rest);
  }

  // ------------------------------------------------------------------
  // What the columns hold
  // ------------------------------------------------------------------

  /** A value a column of this kind may be sent: a number also as decimal text, zeros in front or not. */
  predicate Suits(kind: Kind, v: Value) {
    match v
    case Null => true
    case Bytes(b) => kind.Number? ==> ParseInt(b, I64_MIN, U64_MAX).Some?
    case Int(_) => kind.Number?
    case UInt(_) => kind.Number?
    case _ => false
  }

  /** The value itself: NULL, a number, or the very bytes. */
  function Same(kind: Kind, v: Value): Loaded {
    match v
    case Null => LNull
    case Int(i) => LNumber(i)
    case UInt(u) => LNumber(u)
    case Bytes(b) =>
      if kind.Number? then (match ParseInt(b, I64_MIN, U64_MAX) case Some(n) => LNumber(n) case None => LError)
      else LText(b)
    case _ => LError
  }

  /** NULLs, integers and byte strings of text and binary columns arrive as they were. */
  lemma ValueArrives(kind: Kind, v: Value, render: Value -> seq<Byte>, pick: nat, count: nat)
    requires Suits(kind, v)
    ensures Loads(kind, ReadCell(Column(kind, Keep), v, render, pick, count)) == Same(kind, v)
  {
    match v
    case Null =>
    case Bytes(b) => HexPlain(b);
    case Int(i) => ParseDecimal(i, I64_MIN, U64_MAX);
    case UInt(u) => ParseDecimal(u, I64_MIN, U64_MAX);
    case _ =>
  }

  // ------------------------------------------------------------------
  // Unique values
  // ------------------------------------------------------------------

  predicate Occurs(s: seq<Byte>, what: seq<Byte>, i: nat) { i + |what| <= |s| && s[i..i + |what|] == what }

  lemma OccursLater(s: seq<Byte>, what: seq<Byte>, from: nat, i: nat)
    requires from <= |s|
    ensures Occurs(s[from..], what, i) <==> Occurs(s, what, from + i)
  {
    if from + i + |what| <= |s| { assert s[from..][i..i + |what|] == s[from + i..from + i + |what|]; }
  }

  lemma ReplacedStep(s: seq<Byte>, what: seq<Byte>, with: seq<Byte>)
    requires what != []
    ensures Occurs(s, what, 0) ==> Replaced(s, what, with) == with + Replaced(s[|what|..], what, with)
    ensures !Occurs(s, what, 0) && s != [] ==> Replaced(s, what, with) == [s[0]] + Replaced(s[1..], what, with)
    ensures s == [] ==> Replaced(s, what, with) == []
  {
    if |s| < |what| && s != [] { ReplacedShort(s[1..], what, with); }
  }

  lemma ReplacedShort(s: seq<Byte>, what: seq<Byte>, with: seq<Byte>)
    requires |s| < |what|
    ensures Replaced(s, what, with) == s
  {
  }

  /** Where `what` does not occur, nothing is replaced. */
  lemma {:induction false} ReplacedNone(s: seq<Byte>, what: seq<Byte>, with: seq<Byte>)
    requires what != [] && forall i: nat :: !Occurs(s, what, i)
    ensures Replaced(s, what, with) == s
    decreases |s|
  {
    hide Replaced, Occurs;
    ReplacedStep(s, what, with);
    if s != [] {
      forall i: nat ensures !Occurs(s[1..], what, i) { OccursLater(s, what, 1, i); }
      ReplacedNone(s[1..], what, with);
    }
  }

  ghost predicate FirstAt(s: seq<Byte>, what: seq<Byte>, at: nat) {
    Occurs(s, what, at) && forall i: nat :: i < at ==> !Occurs(s, what, i)
  }

  lemma FirstLater(s: seq<Byte>, what: seq<Byte>, at: nat)
    requires at > 0 && FirstAt(s, what, at)
    ensures s != [] && at + |what| <= |s| && FirstAt(s[1..], what, at - 1) && !Occurs(s, what, 0)
  {
    assert s != [] && at + |what| <= |s|;
    hide Occurs;
    OccursLater(s, what, 1, at - 1);
    forall i: nat | i < at - 1 ensures !Occurs(s[1..], what, i) { OccursLater(s, what, 1, i); }
  }

  /** Where it first occurs, it is replaced, and what comes after is treated the same. */
  lemma {:induction false} ReplacedFirst(s: seq<Byte>, what: seq<Byte>, with: seq<Byte>, at: nat)
    requires what != [] && FirstAt(s, what, at)
    ensures at + |what| <= |s| && Replaced(s, what, with) == s[..at] + with + Replaced(s[at + |what|..], what, with)
    decreases at
  {
    hide Replaced, Occurs;
    ReplacedStep(s, what, with);
    if at > 0 {
      FirstLater(s, what, at);
      hide FirstAt;
      var t := s[1..];
      ReplacedFirst(t, what, with, at - 1);
      TailSlices(s, at, |what|);
      FrontJoins(s[0], t[..at - 1], with, Replaced(s[at + |what|..], what, with));
    } else {
      FirstNow(s, what);
      assert s[..0] + with == with;
    }
  }

  lemma FirstNow(s: seq<Byte>, what: seq<Byte>)
    requires FirstAt(s, what, 0)
    ensures |what| <= |s| && Occurs(s, what, 0)
  {
  }

  lemma TailSlices(s: seq<Byte>, at: nat, n: nat)
    requires 0 < at && at + n <= |s|
    ensures s[1..][at - 1 + n..] == s[at + n..] && [s[0]] + s[1..][..at - 1] == s[..at]
  {
  }

  lemma FrontJoins(b: Byte, front: seq<Byte>, middle: seq<Byte>, back: seq<Byte>)
    ensures [b] + (front + middle + back) == [b] + front + middle + back
  {
  }

  function Ascii(s: string): seq<Byte>
    requires forall i :: 0 <= i < |s| ==> s[i] < 128 as char
  {
    seq(|s|, i requires 0 <= i < |s| => s[i] as int)
  }

  /** The pool value holds the sentinel once, between `a` and `b`. */
  ghost predicate HoldsSentinel(value: seq<Byte>, a: seq<Byte>, b: seq<Byte>) {
    && value == a + Ascii("{unique()}") + b
    && forall i: nat :: Occurs(value, Ascii("{unique()}"), i) ==> i == |a|
  }

  /** Such a value is written with the counter in the sentinel's place. */
  lemma UniqueText(c: Column, v: Value, render: Value -> seq<Byte>, pick: nat, count: nat, a: seq<Byte>, b: seq<Byte>)
    requires c.action.FakeUnique? && c.action.pool != []
    requires HoldsSentinel(c.action.pool[count % |c.action.pool|], a, b)
    ensures Meant(c, v, render, pick, count) == Some(a + Decimal(count) + b)
  {
    hide Decimal, Occurs;
    var value := c.action.pool[count % |c.action.pool|];
    SentinelOccurs(value, a, b);
    ReplacedFirst(value, SENTINEL, Decimal(count), |a|);
    assert value[..|a|] == a && value[|a| + |SENTINEL|..] == b;
    forall i: nat ensures !Occurs(b, SENTINEL, i) {
      OccursLater(value, SENTINEL, |a| + |SENTINEL|, i);
    }
    ReplacedNone(b, SENTINEL, Decimal(count));
  }

  lemma SentinelOccurs(value: seq<Byte>, a: seq<Byte>, b: seq<Byte>)
    requires HoldsSentinel(value, a, b)
    ensures SENTINEL == Ascii("{unique()}") && Occurs(value, SENTINEL, |a|)
  {
    assert SENTINEL == Ascii("{unique()}");
    assert value[|a|..|a| + |SENTINEL|] == SENTINEL;
  }

  lemma {:induction false} CountMonotone(columns: seq<Column>, count: nat, i: nat, j: nat)
    requires i <= j <= |columns|
    ensures CountAt(columns, count, i) <= CountAt(columns, count, j)
    ensures i < j && columns[i].action.FakeUnique? && columns[i].action.pool != []
            ==> CountAt(columns, count, i) < CountAt(columns, count, j)
    decreases j - i
  {
    if i < j { CountMonotone(columns, count, i, j - 1); }
  }

  /** The counter a row starts with only grows from one row to the next. */
  lemma {:induction false} CountBeforeMonotone(columns: seq<Column>, count: nat, j: nat, k: nat)
    requires j <= k
    ensures CountBefore(columns, count, j) <= CountBefore(columns, count, k)
    ensures j < k ==> CountAt(columns, CountBefore(columns, count, j), |columns|) <= CountBefore(columns, count, k)
    decreases k
  {
    hide CountAt;
    if j > 0 {
      CountBeforeMonotone(columns, CountAt(columns, count, |columns|), j - 1, k - 1);
    } else if k > 0 {
      CountMonotone(columns, count, 0, |columns|);
      CountStarts(columns, count);
      CountBeforeMonotone(columns, CountAt(columns, count, |columns|), 0, k - 1);
    }
  }

  lemma CountStarts(columns: seq<Column>, count: nat)
    ensures CountAt(columns, count, 0) == count
  {
  }

  /** Different numbers give different texts when as much text stands before and after them. */
  lemma AroundNumbersDiffer(a: seq<Byte>, m: nat, b: seq<Byte>, a': seq<Byte>, n: nat, b': seq<Byte>)
    requires m != n && m <= U64_MAX && n <= U64_MAX && |a| == |a'| && |b| == |b'|
    ensures a + Decimal(m) + b != a' + Decimal(n) + b'
  {
    hide Decimal;
    var x, y := a + Decimal(m) + b, a' + Decimal(n) + b';
    if x == y {
      assert x[|a|..|x| - |b|] == Decimal(m);
      assert y[|a|..|y| - |b|] == Decimal(n);
      DecimalInjective(m, n);
    }
  }

  /** In what is read of a chunk, a column of unique values whose pool values hold the sentinel in
      the same place has a different text in each row, and so do two such columns of a row. */
  lemma UniqueFieldsDiffer(columns: seq<Column>, rows: seq<seq<Value>>, render: Value -> seq<Byte>,
                           picks: nat -> nat -> nat, count: nat, j: nat, i: nat, k: nat, l: nat,
                           a: seq<Byte>, b: seq<Byte>, a': seq<Byte>, b': seq<Byte>)
    requires PlainRender(render) && j < |rows| && k < |rows| && i < |columns| && l < |columns| && (j, i) != (k, l)
    requires columns[i].kind == columns[l].kind
    requires CountBefore(columns, count, |rows|) <= U64_MAX
    requires UniqueHolds(columns[i], CountAt(columns, CountBefore(columns, count, j), i), a, b)
    requires UniqueHolds(columns[l], CountAt(columns, CountBefore(columns, count, k), l), a', b')
    requires |a| == |a'| && |b| == |b'|
    ensures var read := ReadLines(ChunkText(columns, rows, render, picks, count));
            && |read| == |rows| && |read[j]| == |columns| && |read[k]| == |columns|
            && Loads(columns[i].kind, read[j][i]) != Loads(columns[l].kind, read[k][l])
  {
    hide PlainRender, HoldsSentinel, ReadCell, Loads, CountBefore, CountAt, ReadLines, ChunkText, Decimal;
    var m := CountAt(columns, CountBefore(columns, count, j), i);
    var n := CountAt(columns, CountBefore(columns, count, k), l);
    RowsReadBack(columns, rows, render, picks, count);
    CountsDiffer(columns, count, |rows|, j, i, k, l);
    UniqueLoads(columns[i], CellOf(rows[j], i), render, picks(j)(i), m, a, b);
    UniqueLoads(columns[l], CellOf(rows[k], l), render, picks(k)(l), n, a', b');
    AroundNumbersDiffer(a, m, b, a', n, b');
  }

  /** Nor does such a text come again in a later chunk of the same writer, whose counter goes on. */
  lemma LaterFieldsDiffer(columns: seq<Column>, rows: seq<seq<Value>>, later: seq<seq<Value>>,
                          render: Value -> seq<Byte>, picks: nat -> nat -> nat, picks': nat -> nat -> nat,
                          count: nat, count': nat, j: nat, i: nat, k: nat, l: nat,
                          a: seq<Byte>, b: seq<Byte>, a': seq<Byte>, b': seq<Byte>)
    requires PlainRender(render) && j < |rows| && k < |later| && i < |columns| && l < |columns|
    requires columns[i].kind == columns[l].kind
    requires CountBefore(columns, count, |rows|) <= count' && CountBefore(columns, count', |later|) <= U64_MAX
    requires UniqueHolds(columns[i], CountAt(columns, CountBefore(columns, count, j), i), a, b)
    requires UniqueHolds(columns[l], CountAt(columns, CountBefore(columns, count', k), l), a', b')
    requires |a| == |a'| && |b| == |b'|
    ensures var read := ReadLines(ChunkText(columns, rows, render, picks, count));
            var read' := ReadLines(ChunkText(columns, later, render, picks', count'));
            && |read| == |rows| && |read[j]| == |columns| && |read'| == |later| && |read'[k]| == |columns|
            && Loads(columns[i].kind, read[j][i]) != Loads(columns[l].kind, read'[k][l])
  {
    hide PlainRender, HoldsSentinel, ReadCell, Loads, CountBefore, CountAt, ReadLines, ChunkText, Decimal;
    var m := CountAt(columns, CountBefore(columns, count, j), i);
    var n := CountAt(columns, CountBefore(columns, count', k), l);
    RowsReadBack(columns, rows, render, picks, count);
    RowsReadBack(columns, later, render, picks', count');
    CountsBound(columns, count, |rows|, j, i);
    CountsBound(columns, count', |later|, k, l);
    UniqueLoads(columns[i], CellOf(rows[j], i), render, picks(j)(i), m, a, b);
    UniqueLoads(columns[l], CellOf(later[k], l), render, picks'(k)(l), n, a', b');
    AroundNumbersDiffer(a, m, b, a', n, b');
  }

  /** Row `k` of a writer, as it is loaded in the column. */
  function LoadedUnique(columns: seq<Column>, i: nat, row: seq<Value>, render: Value -> seq<Byte>, k: nat): Loaded
    requires i < |columns|
  {
    Loads(columns[i].kind,
          ReadCell(columns[i], CellOf(row, i), render, 0, CountAt(columns, CountBefore(columns, 0, k), i)))
  }

  /** Every value of the pool holds the sentinel, with as much text before it and after it. */
  ghost predicate SamePlace(c: Column, before: nat, after: nat) {
    && Counts(c) && !c.kind.Number?
    && forall n :: 0 <= n < |c.action.pool| ==>
         exists a, b :: |a| == before && |b| == after && HoldsSentinel(c.action.pool[n], a, b)
  }

  /** Two rows of the writers of a table are loaded with the same value in the column. */
  ghost predicate Repeats(columns: seq<Column>, i: nat, written: seq<seq<seq<Value>>>, render: Value -> seq<Byte>,
                          v: nat, j: nat, w: nat, k: nat)
    requires i < |columns|
  {
    && v < |written| && j < |written[v]| && w < |written| && k < |written[w]| && (v, j) != (w, k)
    && LoadedUnique(columns, i, written[v][j], render, j) == LoadedUnique(columns, i, written[w][k], render, k)
  }

  /** Each writer counts from zero. So the values of a column of unique values differ over a whole
      table exactly when one writer wrote all of its rows. */
  lemma UniqueOverTable(columns: seq<Column>, i: nat, written: seq<seq<seq<Value>>>, render: Value -> seq<Byte>,
                        before: nat, after: nat)
    requires i < |columns| && SamePlace(columns[i], before, after)
    requires forall w :: 0 <= w < |written| ==> CountBefore(columns, 0, |written[w]|) <= U64_MAX
    ensures (forall v, j, w, k :: !Repeats(columns, i, written, render, v, j, w, k))
            <==> forall v, w :: 0 <= v < w < |written| ==> written[v] == [] || written[w] == []
  {
    hide LoadedUnique, CountBefore, SamePlace;
    forall v: nat, j: nat, w: nat, k: nat | v < |written| && j < |written[v]| && w < |written| && k < |written[w]|
      ensures LoadedUnique(columns, i, written[v][j], render, j) == LoadedUnique(columns, i, written[w][k], render, k)
              <==> j == k
    {
      SameLoaded(columns, i, written[v][j], j, |written[v]|, written[w][k], k, |written[w]|, render, before, after);
    }
    if v, w :| 0 <= v < w < |written| && written[v] != [] && written[w] != [] {
      assert Repeats(columns, i, written, render, v, 0, w, 0);
    }
  }

  lemma SameLoaded(columns: seq<Column>, i: nat, row: seq<Value>, j: nat, rows: nat, other: seq<Value>, k: nat,
                   others: nat, render: Value -> seq<Byte>, before: nat, after: nat)
    requires i < |columns| && SamePlace(columns[i], before, after) && j < rows && k < others
    requires CountBefore(columns, 0, rows) <= U64_MAX && CountBefore(columns, 0, others) <= U64_MAX
    ensures LoadedUnique(columns, i, row, render, j) == LoadedUnique(columns, i, other, render, k) <==> j == k
  {
    var m, n := CountAt(columns, CountBefore(columns, 0, j), i), CountAt(columns, CountBefore(columns, 0, k), i);
    hide CountBefore, CountAt, HoldsSentinel, Loads, ReadCell, Decimal;
    var pool := columns[i].action.pool;
    var a, b :| |a| == before && |b| == after && HoldsSentinel(pool[m % |pool|], a, b);
    var a', b' :| |a'| == before && |b'| == after && HoldsSentinel(pool[n % |pool|], a', b');
    CountsBound(columns, 0, rows, j, i);
    CountsBound(columns, 0, others, k, i);
    UniqueLoads(columns[i], CellOf(row, i), render, 0, m, a, b);
    UniqueLoads(columns[i], CellOf(other, i), render, 0, n, a', b');
    if j < k { CountEarlier(columns, 0, j, i, k, i); }
    if k < j { CountEarlier(columns, 0, k, i, j, i); }
    if j == k {
      UniqueLoads(columns[i], CellOf(other, i), render, 0, n, a, b);
    } else {
      AroundNumbersDiffer(a, m, b, a', n, b');
    }
  }

  lemma CountsBound(columns: seq<Column>, count: nat, rows: nat, j: nat, i: nat)
    requires j < rows && i < |columns| && Counts(columns[i])
    ensures count <= CountAt(columns, CountBefore(columns, count, j), i) < CountBefore(columns, count, rows)
  {
    CountEarlier(columns, count, j, i, rows, 0);
    CountBeforeMonotone(columns, count, 0, j);
    CountMonotone(columns, CountBefore(columns, count, j), 0, i);
  }

  lemma CountsDiffer(columns: seq<Column>, count: nat, rows: nat, j: nat, i: nat, k: nat, l: nat)
    requires j < rows && k < rows && i < |columns| && l < |columns| && (j, i) != (k, l)
    requires Counts(columns[i]) && Counts(columns[l])
    ensures var m := CountAt(columns, CountBefore(columns, count, j), i);
            var n := CountAt(columns, CountBefore(columns, count, k), l);
            m != n && m < CountBefore(columns, count, rows) && n < CountBefore(columns, count, rows)
  {
    CountEarlier(columns, count, j, i, rows, 0);
    CountEarlier(columns, count, k, l, rows, 0);
    hide CountBefore, CountAt;
    CountStarts(columns, CountBefore(columns, count, rows));
    if j < k || (j == k && i < l) {
      CountEarlier(columns, count, j, i, k, l);
    } else {
      CountEarlier(columns, count, k, l, j, i);
    }
  }

  predicate Counts(c: Column) { c.action.FakeUnique? && c.action.pool != [] }

  lemma CountEarlier(columns: seq<Column>, count: nat, j: nat, i: nat, k: nat, l: nat)
    requires i < |columns| && l <= |columns| && Counts(columns[i]) && (j < k || (j == k && i < l))
    ensures CountAt(columns, CountBefore(columns, count, j), i) < CountAt(columns, CountBefore(columns, count, k), l)
  {
    hide CountBefore, CountAt;
    var from, to := CountBefore(columns, count, j), CountBefore(columns, count, k);
    if j < k {
      CountMonotone(columns, from, i, |columns|);
      CountBeforeMonotone(columns, count, j, k);
      CountStarts(columns, to);
      CountMonotone(columns, to, 0, l);
    } else {
      CountMonotone(columns, from, i, l);
    }
  }

  lemma UniqueLoads(c: Column, v: Value, render: Value -> seq<Byte>, pick: nat, count: nat, a: seq<Byte>, b: seq<Byte>)
    requires UniqueHolds(c, count, a, b)
    ensures Loads(c.kind, ReadCell(c, v, render, pick, count)) == LText(a + Decimal(count) + b)
  {
    hide HoldsSentinel, Meant, Decimal;
    UniqueText(c, v, render, pick, count, a, b);
    HexPlain(a + Decimal(count) + b);
  }

  ghost predicate UniqueHolds(c: Column, count: nat, a: seq<Byte>, b: seq<Byte>) {
    && c.action.FakeUnique? && c.action.pool != [] && !c.kind.Number?
    && HoldsSentinel(c.action.pool[count % |c.action.pool|], a, b)
  }

  /** An anonymized column never shows the value. */
  lemma AnonymizedHides(c: Column, v: Value, w: Value, render: Value -> seq<Byte>, pick: nat, count: nat)
    requires !c.action.Keep?
    ensures Field(c, v, render, pick, count) == Field(c, w, render, pick, count)
    ensures c.action.Fake? && c.action.pool != [] ==>
              exists b :: b in c.action.pool && ReadCell(c.(kind := Kind.Text), v, render, pick, count) == Some(b)
  {
    if c.action.Fake? && c.action.pool != [] {
      assert c.action.pool[pick % |c.action.pool|] in c.action.pool;
    }
  }

  /** The rows agree in every column that is not anonymized. */
  ghost predicate SameShown(columns: seq<Column>, a: seq<Value>, b: seq<Value>) {
    forall i :: 0 <= i < |columns| && columns[i].action.Keep? ==> CellOf(a, i) == CellOf(b, i)
  }

  /** Nothing sent depends on the values of anonymized columns: rows that differ only there, with
      the same random choices, are written as the same text. */
  lemma {:induction false} TextHides(columns: seq<Column>, a: seq<seq<Value>>, b: seq<seq<Value>>,
                                     render: Value -> seq<Byte>, picks: nat -> nat -> nat, count: nat)
    requires |a| == |b| && forall k :: 0 <= k < |a| ==> SameShown(columns, a[k], b[k])
    ensures ChunkText(columns, a, render, picks, count) == ChunkText(columns, b, render, picks, count)
    decreases |a|
  {
    hide Field, JoinTabs;
    if a != [] {
      forall i | 0 <= i < |columns|
        ensures Field(columns[i], CellOf(a[0], i), render, picks(0)(i), CountAt(columns, count, i))
             == Field(columns[i], CellOf(b[0], i), render, picks(0)(i), CountAt(columns, count, i))
      {
        if !columns[i].action.Keep? {
          AnonymizedHides(columns[i], CellOf(a[0], i), CellOf(b[0], i), render, picks(0)(i),
                          CountAt(columns, count, i));
        }
      }
      assert Fields(columns, a[0], render, picks(0), count) == Fields(columns, b[0], render, picks(0), count);
      TextHides(columns, a[1..], b[1..], render, (k: nat) => picks(k + 1), CountAt(columns, count, |columns|));
    }
  }
}
