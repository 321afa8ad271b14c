/** Stored rows, the two images of a row the MySQL protocols deliver, and the key
    under which the traversal deduplicates it. Root rows come over the text protocol
    (`query_iter`), rows fetched by foreign key over the binary one (`exec_iter`). */
module Rows {
  import opened Bytes
  import opened RowKeys

  /** A stored cell. `SPadded` is an integer the text protocol fills with zeros up to a width: that
      of a ZEROFILL column, or four for a year, which matters for the year 0000. `SOther` is a
      float, date or time, which the text protocol renders as text and the binary protocol delivers
      typed. */
  datatype Stored =
    | SNull
    | SSigned(i: I64)
    | SUnsigned(u: U64)
    | SPadded(u: U64, width: nat)
    | SBytes(b: seq<Byte>)
    | SOther(text: seq<Byte>, binary: Special)

  type Special = v: Value | !Plain(v) witness Float(0)

  datatype Protocol = Text | Binary

  function Image(c: Stored, p: Protocol): Value {
    match (c, p)
    case (SNull, _) => Null
    case (SSigned(i), Text) => Bytes(Decimal(i))
    case (SSigned(i), Binary) => Int(i)
    case (SUnsigned(u), Text) => Bytes(Decimal(u))
    case (SUnsigned(u), Binary) => UInt(u)
    case (SPadded(u, width), Text) => Bytes(Padded(u, width))
    case (SPadded(u, _), Binary) => UInt(u)
    case (SBytes(b), _) => Bytes(b)
    case (SOther(text, _), Text) => Bytes(text)
    case (SOther(_, binary), Binary) => binary
  }

  function Zeros(n: nat): seq<Byte> { seq(n, _ => ZERO) }

  function Padded(u: U64, width: nat): seq<Byte> {
    Zeros(if width > |Decimal(u)| then width - |Decimal(u)| else 0) + Decimal(u)
  }

  type Row = seq<Stored>

  datatype Schema = Schema(columns: seq<string>, pk: seq<string>)

  function IndexOf(names: seq<string>, name: string): (r: Option<nat>)
    ensures r.Some? ==> r.value < |names| && names[r.value] == name
    ensures r.None? ==> name !in names
  {
    if names == [] then None
    else if names[0] == name then Some(0)
    else
      match IndexOf(names[1..], name)
      case Some(i) => Some(i + 1)
      case None => None
  }

  /** `row.get_opt(column)`: absent when the relation or key names no such column. */
  function Cell(schema: Schema, row: Row, column: string): Option<Stored> {
    match IndexOf(schema.columns, column)
    case Some(i) => if i < |row| then Some(row[i]) else None
    case None => None
  }

  function CellOrNull(schema: Schema, row: Row, column: string): Stored {
    match Cell(schema, row, column)
    case Some(c) => c
    case None => SNull
  }

  /** The cells a row's key is built from: its primary key, or the whole row when the
      table has none. */
  function KeyCells(schema: Schema, row: Row): (cells: seq<Stored>)
    ensures schema.pk != [] ==> |cells| == |schema.pk|
  {
    if schema.pk == [] then row
    else seq(|schema.pk|, i requires 0 <= i < |schema.pk| => CellOrNull(schema, row, schema.pk[i]))
  }

  function Images(cells: seq<Stored>, p: Protocol): (vs: seq<Value>)
    ensures |vs| == |cells| && forall i :: 0 <= i < |cells| ==> vs[i] == Image(cells[i], p)
  {
    seq(|cells|, i requires 0 <= i < |cells| => Image(cells[i], p))
  }

  function RowKey(schema: Schema, row: Row, p: Protocol): CompactKey {
    var cells := KeyCells(schema, row);
    if |schema.pk| == 1 then KeyOf(Image(cells[0], p)) else KBytes(Serialize(Images(cells, p)))
  }

  /** Lengths fit 32 bits, and a float, date or time is rendered as printable text. */
  predicate ValidCell(c: Stored) {
    match c
    case SBytes(b) => |b| < 0x1_0000_0000
    case SPadded(_, width) => width <= 255
    case SOther(text, _) => 0 < |text| < 0x1_0000_0000 && text[0] > 7
    case _ => true
  }

  predicate Typed(c: Stored) { !c.SOther? }

  /** Both protocols deliver the same value: not a float, date or time, and not a number whose text
      has zeros in front. */
  predicate Steady(c: Stored) { Typed(c) && (c.SPadded? ==> Padded(c.u, c.width) == Decimal(c.u)) }

  lemma ImageOfTyped(c: Stored)
    requires Typed(c) && ValidCell(c)
    ensures forall p :: Plain(Image(c, p)) && ShortBytes(Image(c, p))
    ensures SameValue(Image(c, Text), Image(c, Binary)) <==> Steady(c)
  {
    hide Decimal;
    if c.SSigned? { DecimalLength(c.i); }
    if c.SUnsigned? || c.SPadded? { DecimalLength(c.u); }
  }

  lemma {:induction false} ZerosAddNothing(n: nat, digits: seq<Byte>)
    requires AllDigits(digits)
    ensures AllDigits(Zeros(n) + digits) && DigitsValue(Zeros(n) + digits) == DigitsValue(digits)
    decreases |digits|, n
  {
    var s := Zeros(n) + digits;
    if digits != [] {
      var k := |digits| - 1;
      ZerosAddNothing(n, digits[..k]);
      assert s[..|s| - 1] == Zeros(n) + digits[..k];
    } else if n > 0 {
      ZerosAddNothing(n - 1, digits);
      assert s[..|s| - 1] == Zeros(n - 1) + digits;
    } else {
      assert s == digits;
    }
  }

  lemma PaddedValue(u: U64, width: nat)
    ensures AllDigits(Padded(u, width)) && DigitsValue(Padded(u, width)) == u
  {
    ZerosAddNothing(|Padded(u, width)| - |Decimal(u)|, Decimal(u));
    DigitsRoundTrip(u);
  }

  /** A padded number is the canonical text of no other number, and pads to a text of its own. */
  lemma PaddedInjective(u: U64, v: U64, width: nat)
    ensures Padded(u, width) == Decimal(v) ==> u == v
    ensures Padded(u, width) == Padded(v, width) ==> u == v
  {
    hide Padded, Decimal;
    PaddedValue(u, width);
    PaddedValue(v, width);
    PaddedValue(v, 0);
    NoPadding(v);
  }

  lemma NoPadding(u: U64)
    ensures Padded(u, 0) == Decimal(u)
  {
    assert Zeros(0) == [];
  }

  lemma {:induction false} DigitsLength(n: nat, k: nat)
    requires n < Pow10(k) && k > 0
    ensures |Digits(n)| <= k
  {
    if n >= 10 { DigitsLength(n / 10, k - 1); }
  }

  function Pow10(k: nat): nat { if k == 0 then 1 else 10 * Pow10(k - 1) }

  lemma DecimalLength(n: int)
    requires I64_MIN <= n <= U64_MAX
    ensures |Decimal(n)| <= 21
  {
    assert Pow10(10) == 10_000_000_000 by { assert Pow10(5) == 100_000; }
    assert Pow10(20) == 100_000_000_000_000_000_000 by { assert Pow10(15) == 1_000_000_000_000_000; }
    DigitsLength(if n < 0 then 0 - n else n, 20);
  }

  lemma ImageOfOther(c: Stored)
    requires c.SOther? && ValidCell(c)
    ensures ShortBytes(Image(c, Text)) && ShortBytes(Image(c, Binary))
    ensures Normalize(Image(c, Text)) != Normalize(Image(c, Binary))
    ensures KeyOf(Image(c, Text)) != KeyOf(Image(c, Binary))
  {
    assert Normalize(c.binary) == c.binary;
    assert Serialize([c.binary]) == Tagged(c.binary) + Serialize([]);
    assert KeyOf(c.binary).b[0] <= 7;
  }

  /** The two protocols agree on a row's key exactly when no key cell is a float, date or time, or
      a number whose text has zeros in front. Otherwise a row met both as a root row and by foreign
      key has two keys. */
  lemma {:induction false} ProtocolsAgreeOnKey(schema: Schema, row: Row)
    requires forall c :: c in KeyCells(schema, row) ==> ValidCell(c)
    ensures RowKey(schema, row, Text) == RowKey(schema, row, Binary)
            <==> forall c :: c in KeyCells(schema, row) ==> Steady(c)
  {
    var cells := KeyCells(schema, row);
    var a, b := Images(cells, Text), Images(cells, Binary);
    forall i | 0 <= i < |cells|
      ensures ShortBytes(a[i]) && ShortBytes(b[i])
      ensures Normalize(a[i]) == Normalize(b[i]) <==> Steady(cells[i])
      ensures KeyOf(a[i]) == KeyOf(b[i]) <==> Steady(cells[i])
    {
      assert ValidCell(cells[i]);
      if Typed(cells[i]) {
        ImageOfTyped(cells[i]);
        NormalFormsEqual(a[i], b[i]);
        CompactKeysEqual(a[i], b[i]);
      } else {
        ImageOfOther(cells[i]);
      }
    }
    if |schema.pk| != 1 {
      CompositeKeysEqual(a, b);
    }
  }

  predicate SameKind(a: Stored, b: Stored) {
    || a.SNull? || b.SNull?
    || (a.SSigned? && b.SSigned?)
    || (a.SUnsigned? && b.SUnsigned?)
    || (a.SPadded? && b.SPadded? && a.width == b.width)
    || (a.SBytes? && b.SBytes?)
  }

  lemma ImagesIdentifyCell(a: Stored, b: Stored, p: Protocol, q: Protocol)
    requires Typed(a) && Typed(b) && SameKind(a, b)
    ensures SameValue(Image(a, p), Image(b, q)) <==> a == b && (p == q || Steady(a))
  {
    hide Decimal, Padded;
    if a.SSigned? && b.SSigned? && Decimal(a.i) == Decimal(b.i) {
      DecimalInjective(a.i, b.i);
    }
    if a.SUnsigned? && b.SUnsigned? && Decimal(a.u) == Decimal(b.u) {
      DecimalInjective(a.u, b.u);
    }
    if a.SPadded? && b.SPadded? {
      PaddedInjective(a.u, b.u, a.width);
      PaddedInjective(b.u, a.u, a.width);
    }
  }

  /** Two rows of a table whose key columns hold NULLs, integers of one kind or byte strings have
      equal keys exactly if their key cells are the same, and so are the protocols or no key cell
      is a number whose text has zeros in front: distinct rows are never mistaken for one another. */
  lemma KeyIdentifiesRow(schema: Schema, r: Row, s: Row, p: Protocol, q: Protocol)
    requires |KeyCells(schema, r)| == |KeyCells(schema, s)|
    requires forall i :: 0 <= i < |KeyCells(schema, r)| ==>
               var a, b := KeyCells(schema, r)[i], KeyCells(schema, s)[i];
               Typed(a) && Typed(b) && ValidCell(a) && ValidCell(b) && SameKind(a, b)
    ensures RowKey(schema, r, p) == RowKey(schema, s, q) <==>
            && KeyCells(schema, r) == KeyCells(schema, s)
            && (p == q || forall c :: c in KeyCells(schema, r) ==> Steady(c))
  {
    hide KeyOf, Serialize, SameValue, Steady, Image;
    var a, b := KeyCells(schema, r), KeyCells(schema, s);
    var x, y := Images(a, p), Images(b, q);
    forall i | 0 <= i < |a|
      ensures Plain(x[i]) && Plain(y[i]) && ShortBytes(x[i]) && ShortBytes(y[i])
      ensures SameValue(x[i], y[i]) <==> a[i] == b[i] && (p == q || Steady(a[i]))
      ensures KeyOf(x[i]) == KeyOf(y[i]) <==> a[i] == b[i] && (p == q || Steady(a[i]))
    {
      ImageOfTyped(a[i]);
      ImageOfTyped(b[i]);
      CompactKeysEqual(x[i], y[i]);
      ImagesIdentifyCell(a[i], b[i], p, q);
    }
    if |schema.pk| != 1 {
      CompositeKeysIdentify(x, y);
    }
  }

  // ------------------------------------------------------------------
  // Row identity, column by column
  // ------------------------------------------------------------------

  ghost predicate DistinctColumns(schema: Schema) {
    forall i, j :: 0 <= i < j < |schema.columns| ==> schema.columns[i] != schema.columns[j]
  }

  /** The column identifies rows: it is in the primary key, or there is none. */
  predicate KeyColumn(schema: Schema, i: nat) {
    i < |schema.columns| && (schema.pk == [] || schema.columns[i] in schema.pk)
  }

  /** A row of the table, with a cell in each column. */
  ghost predicate FullRow(schema: Schema, row: Row) { DistinctColumns(schema) && |row| == |schema.columns| }

  lemma CellAt(schema: Schema, row: Row, i: nat)
    requires FullRow(schema, row) && i < |row|
    ensures Cell(schema, row, schema.columns[i]) == Some(row[i])
  {
  }

  lemma NoCell(schema: Schema, row: Row, column: string)
    requires column !in schema.columns
    ensures CellOrNull(schema, row, column) == SNull
  {
  }

  lemma KeyCellsCount(schema: Schema, row: Row)
    ensures |KeyCells(schema, row)| == if schema.pk == [] then |row| else |schema.pk|
  {
  }

  /** The cells of a key column are cells of the keys, in one place. */
  lemma KeyColumnCell(schema: Schema, r: Row, s: Row, i: nat) returns (j: nat)
    requires FullRow(schema, r) && FullRow(schema, s) && KeyColumn(schema, i)
    ensures j < |KeyCells(schema, r)| == |KeyCells(schema, s)|
    ensures KeyCells(schema, r)[j] == r[i] && KeyCells(schema, s)[j] == s[i]
  {
    hide Cell;
    if schema.pk == [] {
      j := i;
    } else {
      j :| 0 <= j < |schema.pk| && schema.pk[j] == schema.columns[i];
      CellAt(schema, r, i);
      CellAt(schema, s, i);
    }
  }

  /** The cells of the keys are those of a key column, or stand for a column there is none of. */
  lemma KeyCellColumn(schema: Schema, r: Row, s: Row, j: nat) returns (i: Option<nat>)
    requires FullRow(schema, r) && FullRow(schema, s)
    requires j < |KeyCells(schema, r)| == |KeyCells(schema, s)|
    ensures i.Some? ==> KeyColumn(schema, i.value)
    ensures i.Some? ==> KeyCells(schema, r)[j] == r[i.value] && KeyCells(schema, s)[j] == s[i.value]
    ensures i.None? ==> KeyCells(schema, r)[j] == SNull && KeyCells(schema, s)[j] == SNull
  {
    hide Cell;
    if schema.pk == [] {
      i := Some(j);
    } else if schema.pk[j] in schema.columns {
      var n :| 0 <= n < |schema.columns| && schema.columns[n] == schema.pk[j];
      CellAt(schema, r, n);
      CellAt(schema, s, n);
      i := Some(n);
    } else {
      NoCell(schema, r, schema.pk[j]);
      NoCell(schema, s, schema.pk[j]);
      i := None;
    }
  }

  /** The cells of the key columns are NULLs, integers or byte strings, of one kind in each. */
  ghost predicate Comparable(schema: Schema, r: Row, s: Row) {
    && FullRow(schema, r) && FullRow(schema, s)
    && forall i: nat :: KeyColumn(schema, i) ==>
         Typed(r[i]) && Typed(s[i]) && ValidCell(r[i]) && ValidCell(s[i]) && SameKind(r[i], s[i])
  }

  /** Two rows of a table share a key exactly when they agree in every column of the primary key, or
      in every column if there is none; over different protocols, none of those cells may be a number
      whose text has zeros in front. */
  lemma RowsShareKey(schema: Schema, r: Row, s: Row, p: Protocol, q: Protocol)
    requires Comparable(schema, r, s)
    ensures RowKey(schema, r, p) == RowKey(schema, s, q)
            <==> forall i: nat :: KeyColumn(schema, i) ==> r[i] == s[i] && (p == q || Steady(r[i]))
  {
    var a, b := KeyCells(schema, r), KeyCells(schema, s);
    KeyCellsCount(schema, r);
    KeyCellsCount(schema, s);
    hide KeyCells, RowKey, Steady, ValidCell;
    forall j | 0 <= j < |a|
      ensures Typed(a[j]) && Typed(b[j]) && ValidCell(a[j]) && ValidCell(b[j]) && SameKind(a[j], b[j])
    {
      var i := KeyCellColumn(schema, r, s, j);
      NullIsPlain();
    }
    KeyIdentifiesRow(schema, r, s, p, q);
    if forall i: nat :: KeyColumn(schema, i) ==> r[i] == s[i] && (p == q || Steady(r[i])) {
      forall j | 0 <= j < |a| ensures a[j] == b[j] && (p == q || Steady(a[j])) {
        var i := KeyCellColumn(schema, r, s, j);
        NullIsPlain();
      }
    }
    if a == b && (p == q || forall c :: c in a ==> Steady(c)) {
      forall i: nat | KeyColumn(schema, i) ensures r[i] == s[i] && (p == q || Steady(r[i])) {
        var j := KeyColumnCell(schema, r, s, i);
      }
    }
  }

  lemma NullIsPlain()
    ensures Typed(SNull) && ValidCell(SNull) && Steady(SNull)
  {
  }

  /** A row has one key over both protocols exactly when no key column holds a float, date or time,
      or a number whose text has zeros in front. */
  lemma RowHasOneKey(schema: Schema, row: Row)
    requires FullRow(schema, row) && forall i: nat :: KeyColumn(schema, i) ==> ValidCell(row[i])
    ensures RowKey(schema, row, Text) == RowKey(schema, row, Binary)
            <==> forall i: nat :: KeyColumn(schema, i) ==> Steady(row[i])
  {
    hide RowKey, Steady, ValidCell, KeyCells;
    var cells := KeyCells(schema, row);
    forall j | 0 <= j < |cells|
      ensures ValidCell(cells[j])
      ensures (forall i: nat :: KeyColumn(schema, i) ==> Steady(row[i])) ==> Steady(cells[j])
    {
      var i := KeyCellColumn(schema, row, row, j);
      NullIsPlain();
    }
    ProtocolsAgreeOnKey(schema, row);
    if forall c :: c in cells ==> Steady(c) {
      forall i: nat | KeyColumn(schema, i) ensures Steady(row[i]) {
        var j := KeyColumnCell(schema, row, row, i);
      }
    }
  }
}
