/** Row identity on the server: compact deduplication keys, the byte serialization
    of composite keys, and how a stored row looks to the two MySQL protocols. */
module RowKeys {
  import opened Bytes

  /** A value as the MySQL driver hands it over. Floating-point numbers are bit
      patterns. */
  datatype Value =
    | Null
    | Int(i: I64)
    | UInt(u: U64)
    | Bytes(b: seq<Byte>)
    | Float(bits32: U32)
    | Double(bits64: U64)
    | Date(year: U16, month: Byte, day: Byte, hour: Byte, minute: Byte, second: Byte, micros: U32)
    | Time(negative: bool, days: U32, hours: Byte, minutes: Byte, seconds: Byte, microseconds: U32)

  datatype CompactKey = KInt(i: I64) | KUInt(u: U64) | KBytes(b: seq<Byte>) | KNull

  const I64_MAX: int := 0x7fff_ffff_ffff_ffff
  const U64_MAX: int := 0xffff_ffff_ffff_ffff
  const I64_MIN: int := -0x8000_0000_0000_0000

  // ------------------------------------------------------------------
  // Canonical numbers
  // ------------------------------------------------------------------

  function ParseI64Canonical(s: seq<Byte>): Option<I64> {
    match ParseInt(s, I64_MIN, I64_MAX)
    case Some(i) => if Decimal(i) == s then Some(i) else None
    case None => None
  }

  function ParseU64Canonical(s: seq<Byte>): Option<U64> {
    match ParseInt(s, 0, U64_MAX)
    case Some(u) => if Decimal(u) == s then Some(u) else None
    case None => None
  }

  /** The canonical parsers succeed exactly on canonical renderings: no leading
      zero, no plus sign, no negative zero, nothing out of range. */
  lemma CanonicalParse(s: seq<Byte>, n: int)
    ensures ParseI64Canonical(s) == Some(n) <==> I64_MIN <= n <= I64_MAX && s == Decimal(n)
    ensures ParseU64Canonical(s) == Some(n) <==> 0 <= n <= U64_MAX && s == Decimal(n)
  {
    if I64_MIN <= n <= I64_MAX {
      ParseDecimal(n, I64_MIN, I64_MAX);
    }
    if 0 <= n <= U64_MAX {
      ParseDecimal(n, 0, U64_MAX);
    }
  }

  // ------------------------------------------------------------------
  // Normalization, serialization, compact keys
  // ------------------------------------------------------------------

  function Normalize(v: Value): Value {
    match v
    case Bytes(b) =>
      (match ParseI64Canonical(b)
       case Some(i) => Int(i)
       case None =>
         match ParseU64Canonical(b)
         case Some(u) => UInt(u)
         case None => v)
    case UInt(u) => if u <= I64_MAX then Int(u) else v
    case _ => v
  }

  /** One value, tagged and length-prefixed. The length of a byte string is cast to
      32 bits, so it wraps for a string of 4 GiB or more. */
  function Tagged(v: Value): seq<Byte> {
    match v
    case Null => [0]
    case Int(i) => [1] + Le(ToU64(i), 8)
    case UInt(u) => [2] + Le(u, 8)
    case Bytes(b) => [3] + Le(|b| % 0x1_0000_0000, 4) + b
    case Float(f) => [4] + Le(f, 4)
    case Double(d) => [5] + Le(d, 8)
    case Date(y, m, d, h, mi, s, us) => [6] + Le(y, 2) + [m, d, h, mi, s] + Le(us, 4)
    case Time(neg, d, h, m, s, us) => [7, if neg then 1 else 0] + Le(d, 4) + [h, m, s] + Le(us, 4)
  }

  function Serialize(vs: seq<Value>): seq<Byte> {
    if vs == [] then [] else Tagged(Normalize(vs[0])) + Serialize(vs[1..])
  }

  lemma {:induction false} SerializeAppend(vs: seq<Value>, v: Value)
    ensures Serialize(vs + [v]) == Serialize(vs) + Tagged(Normalize(v))
  {
    hide Tagged, Normalize;
    if vs == [] {
      assert (vs + [v])[1..] == [];
    } else {
      SerializeAppend(vs[1..], v);
      assert (vs + [v])[1..] == vs[1..] + [v];
    }
  }

  method SerializePk(pk: seq<Value>) returns (bytes: seq<Byte>)
    ensures bytes == Serialize(pk)
  {
    hide Tagged, Normalize;
    bytes := [];
    for i := 0 to |pk|
      invariant bytes == Serialize(pk[..i])
    {
      SerializeAppend(pk[..i], pk[i]);
      assert pk[..i + 1] == pk[..i] + [pk[i]];
      bytes := bytes + Tagged(Normalize(pk[i]));
    }
    assert pk[..|pk|] == pk;
  }

  function KeyOf(v: Value): CompactKey {
    match v
    case Int(i) => KInt(i)
    case UInt(u) => if u <= I64_MAX then KInt(u) else KUInt(u)
    case Bytes(b) =>
      (match ParseI64Canonical(b)
       case Some(i) => KInt(i)
       case None =>
         match ParseU64Canonical(b)
         case Some(u) => KUInt(u)
         case None => KBytes(b))
    case Null => KNull
    case _ => KBytes(Serialize([v]))
  }

  // ------------------------------------------------------------------
  // When two compact keys are equal
  // ------------------------------------------------------------------

  predicate Plain(v: Value) { v.Null? || v.Int? || v.UInt? || v.Bytes? }

  predicate Numeric(v: Value) { v.Int? || v.UInt? }

  function Number(v: Value): int
    requires Numeric(v)
  {
    if v.Int? then v.i else v.u
  }

  /** Identical, numerically equal, or a number and its canonical decimal text. */
  predicate SameValue(a: Value, b: Value) {
    || a == b
    || (Numeric(a) && Numeric(b) && Number(a) == Number(b))
    || (Numeric(a) && b == Bytes(Decimal(Number(a))))
    || (Numeric(b) && a == Bytes(Decimal(Number(b))))
  }

  function KeyOfNumber(n: int): CompactKey
    requires I64_MIN <= n <= U64_MAX
  {
    if n <= I64_MAX then KInt(n) else KUInt(n)
  }

  predicate IsDecimalOf(b: seq<Byte>, n: int) {
    I64_MIN <= n <= U64_MAX && b == Decimal(n)
  }

  /** A byte string is keyed as a number when it is that number's canonical text. */
  lemma KeyOfText(b: seq<Byte>, n: int)
    ensures IsDecimalOf(b, n) ==> KeyOf(Bytes(b)) == KeyOfNumber(n)
    ensures I64_MIN <= n <= U64_MAX && KeyOf(Bytes(b)) == KeyOfNumber(n) ==> IsDecimalOf(b, n)
    ensures KeyOf(Bytes(b)).KBytes? ==> KeyOf(Bytes(b)).b == b
    ensures KeyOf(Bytes(b)) != KNull
  {
    CanonicalParse(b, n);
    var i := ParseI64Canonical(b);
    if i.Some? {
      CanonicalParse(b, i.value);
      if IsDecimalOf(b, n) { DecimalInjective(n, i.value); }
    }
    var u := ParseU64Canonical(b);
    if u.Some? {
      CanonicalParse(b, u.value);
    }
  }

  /** Bytes that spell the serialization of a float, date or time. */
  predicate Spells(b: Value, a: Value) { !Plain(a) && b == Bytes(Serialize([a])) }

  /** Two values have one key exactly when they are the same, or one is a float, date or time and the
      other, of another type, spells its serialization byte by byte. */
  lemma CompactKeysEqual(a: Value, b: Value)
    ensures KeyOf(a) == KeyOf(b) <==> SameValue(a, b) || Spells(a, b) || Spells(b, a)
  {
    hide ParseI64Canonical, ParseU64Canonical, Serialize, Decimal;
    if a.Bytes? && Numeric(b) {
      KeyOfText(a.b, Number(b));
    } else if Numeric(a) && b.Bytes? {
      KeyOfText(b.b, Number(a));
    } else if a.Bytes? && b.Bytes? {
      TextKeysEqual(a.b, b.b);
    } else if !Plain(a) && !Plain(b) {
      SpecialKeys(a, b);
    } else if a.Bytes? {
      KeyOfText(a.b, 0);
      if !Plain(b) { SpelledKey(b); }
    } else if b.Bytes? {
      KeyOfText(b.b, 0);
      if !Plain(a) { SpelledKey(a); }
    }
  }

  lemma SpecialKeys(a: Value, b: Value)
    requires !Plain(a) && !Plain(b)
    ensures Serialize([a]) == Serialize([b]) <==> a == b
  {
    hide Serialize;
    assert [a][0] == a && [b][0] == b;
    if Serialize([a]) == Serialize([b]) { SerializeInjective([a], [b]); }
  }

  lemma SpelledKey(a: Value)
    requires !Plain(a)
    ensures KeyOf(Bytes(Serialize([a]))) == KBytes(Serialize([a]))
  {
    var b := Serialize([a]);
    assert Normalize(a) == a && [a][1..] == [];
    assert b == Tagged(a) + Serialize([]);
    assert b[0] <= 7;
    hide Serialize, Tagged;
    var i, u := ParseI64Canonical(b), ParseU64Canonical(b);
    if i.Some? { CanonicalParse(b, i.value); }
    if u.Some? { CanonicalParse(b, u.value); }
  }

  lemma TextKeysEqual(a: seq<Byte>, b: seq<Byte>)
    ensures KeyOf(Bytes(a)) == KeyOf(Bytes(b)) ==> a == b
  {
    hide ParseI64Canonical, ParseU64Canonical;
    KeyOfText(a, 0);
    KeyOfText(b, 0);
    match KeyOf(Bytes(a))
    case KInt(n) =>
      KeyOfText(a, n);
      KeyOfText(b, n);
    case KUInt(n) =>
      KUIntIsLarge(a);
      KeyOfText(a, n);
      KeyOfText(b, n);
    case _ =>
  }

  lemma KUIntIsLarge(b: seq<Byte>)
    requires KeyOf(Bytes(b)).KUInt?
    ensures KeyOf(Bytes(b)).u > I64_MAX
  {
    var u := ParseU64Canonical(b).value;
    CanonicalParse(b, u);
  }

  lemma NormalFormsEqual(a: Value, b: Value)
    ensures Normalize(a) == Normalize(b) <==> SameValue(a, b)
  {
    hide KeyOf, Normalize, SameValue;
    if Plain(a) && Plain(b) {
      CompactKeysEqual(a, b);
      NormalFormOfKey(a);
      NormalFormOfKey(b);
    } else {
      SpecialForms(a, b);
    }
  }

  lemma SpecialForms(a: Value, b: Value)
    requires !Plain(a) || !Plain(b)
    ensures Normalize(a) == Normalize(b) <==> SameValue(a, b)
  {
    hide ParseI64Canonical, ParseU64Canonical;
  }

  function FromKey(k: CompactKey): Value {
    match k
    case KInt(i) => Int(i)
    case KUInt(u) => UInt(u)
    case KBytes(b) => Bytes(b)
    case KNull => Null
  }

  lemma NormalFormOfKey(v: Value)
    requires Plain(v)
    ensures Normalize(v) == FromKey(KeyOf(v))
    ensures KeyOf(FromKey(KeyOf(v))) == KeyOf(v)
  {
    if v.Bytes? {
      KeyOfText(v.b, 0);
      if KeyOf(v).KUInt? { KUIntIsLarge(v.b); }
    }
  }

  // ------------------------------------------------------------------
  // Unique decodability of composite keys
  // ------------------------------------------------------------------

  predicate ShortBytes(v: Value) { v.Bytes? ==> |v.b| < 0x1_0000_0000 }

  predicate ShortList(vs: seq<Value>) { forall v :: v in vs ==> ShortBytes(v) }

  /** Reads one tagged value off the front of a serialized key. */
  function Untag(s: seq<Byte>): Option<(Value, seq<Byte>)> {
    if s == [] then None
    else
      var r := s[1..];
      match s[0]
      case 0 => Some((Null, r))
      case 1 => if |r| < 8 then None else Num8(r, (n: U64) => Int(FromU64(n)))
      case 2 => if |r| < 8 then None else Num8(r, (n: U64) => UInt(n))
      case 3 =>
        if |r| < 4 then None
        else
          var len := FromLe(r[..4]);
          if |r| - 4 < len then None else Some((Bytes(r[4..4 + len]), r[4 + len..]))
      case 4 => if |r| < 4 || FromLe(r[..4]) >= 0x1_0000_0000 then None else Some((Float(FromLe(r[..4])), r[4..]))
      case 5 => if |r| < 8 then None else Num8(r, (n: U64) => Double(n))
      case 6 =>
        if |r| < 11 || FromLe(r[..2]) >= 0x1_0000 || FromLe(r[7..11]) >= 0x1_0000_0000 then None
        else Some((Date(FromLe(r[..2]), r[2], r[3], r[4], r[5], r[6], FromLe(r[7..11])), r[11..]))
      case 7 =>
        if |r| < 12 || FromLe(r[1..5]) >= 0x1_0000_0000 || FromLe(r[8..12]) >= 0x1_0000_0000 then None
        else Some((Time(r[0] != 0, FromLe(r[1..5]), r[5], r[6], r[7], FromLe(r[8..12])), r[12..]))
      case _ => None
  }

  function Num8(r: seq<Byte>, make: U64 -> Value): Option<(Value, seq<Byte>)>
    requires |r| >= 8
  {
    if FromLe(r[..8]) > U64_MAX then None else Some((make(FromLe(r[..8])), r[8..]))
  }

  lemma UntagTagged(v: Value, rest: seq<Byte>)
    requires ShortBytes(v)
    ensures Untag(Tagged(v) + rest) == Some((v, rest))
  {
    match v
    case Null =>
    case Int(i) => UntagEight(1, ToU64(i), rest);
    case UInt(u) => UntagEight(2, u, rest);
    case Bytes(b) => UntagBytes(b, rest);
    case Float(f) => UntagFloat(f, rest);
    case Double(d) => UntagEight(5, d, rest);
    case Date(_, _, _, _, _, _, _) => UntagDate(v, rest);
    case Time(_, _, _, _, _, _) => UntagTime(v, rest);
  }

  lemma UntagEight(tag: Byte, n: U64, rest: seq<Byte>)
    requires tag in {1, 2, 5}
    ensures Untag([tag] + Le(n, 8) + rest)
            == Some((if tag == 1 then Int(FromU64(n)) else if tag == 2 then UInt(n) else Double(n), rest))
  {
    hide Le, FromLe;
    Pow256Values();
    var s := [tag] + Le(n, 8) + rest;
    assert s[1..] == Le(n, 8) + rest;
    LePrefix(n, 8, rest);
  }

  lemma UntagFloat(f: U32, rest: seq<Byte>)
    ensures Untag(Tagged(Float(f)) + rest) == Some((Float(f), rest))
  {
    hide Le, FromLe;
    Pow256Values();
    assert (Tagged(Float(f)) + rest)[1..] == Le(f, 4) + rest;
    LePrefix(f, 4, rest);
  }

  lemma UntagBytes(b: seq<Byte>, rest: seq<Byte>)
    requires |b| < 0x1_0000_0000
    ensures Untag(Tagged(Bytes(b)) + rest) == Some((Bytes(b), rest))
  {
    hide Le, FromLe;
    Pow256Values();
    var r := (Tagged(Bytes(b)) + rest)[1..];
    assert r == Le(|b|, 4) + (b + rest);
    LePrefix(|b|, 4, b + rest);
    assert r[4..4 + |b|] == b && r[4 + |b|..] == rest;
  }

  lemma UntagDate(v: Value, rest: seq<Byte>)
    requires v.Date?
    ensures Untag(Tagged(v) + rest) == Some((v, rest))
  {
    hide Le, FromLe;
    Pow256Values();
    var year, micros := Le(v.year, 2), Le(v.micros, 4);
    LeRoundTrip(v.year, 2);
    LeRoundTrip(v.micros, 4);
    var r := (Tagged(v) + rest)[1..];
    assert r == year + [v.month, v.day, v.hour, v.minute, v.second] + micros + rest;
    assert r[..2] == year;
    assert r[7..11] == micros && r[11..] == rest;
  }

  lemma UntagTime(v: Value, rest: seq<Byte>)
    requires v.Time?
    ensures Untag(Tagged(v) + rest) == Some((v, rest))
  {
    hide Le, FromLe;
    Pow256Values();
    var flag: Byte := if v.negative then 1 else 0;
    var days, micros := Le(v.days, 4), Le(v.microseconds, 4);
    LeRoundTrip(v.days, 4);
    LeRoundTrip(v.microseconds, 4);
    var r := (Tagged(v) + rest)[1..];
    assert r == [flag] + days + [v.hours, v.minutes, v.seconds] + micros + rest;
    assert r[0] == flag && r[1..5] == days;
    assert r[8..12] == micros && r[12..] == rest;
  }

  lemma {:induction false} SerializeInjective(a: seq<Value>, b: seq<Value>)
    requires ShortList(a) && ShortList(b)
    requires Serialize(a) == Serialize(b)
    ensures |a| == |b| && forall i :: 0 <= i < |a| ==> Normalize(a[i]) == Normalize(b[i])
  {
    if a != [] {
      UntagTagged(Normalize(a[0]), Serialize(a[1..]));
    }
    if b != [] {
      UntagTagged(Normalize(b[0]), Serialize(b[1..]));
    }
    if a != [] && b != [] {
      SerializeInjective(a[1..], b[1..]);
      assert forall i :: 0 < i < |a| ==> a[i] == a[1..][i - 1] && b[i] == b[1..][i - 1];
    }
  }

  lemma {:induction false} SerializeRespects(a: seq<Value>, b: seq<Value>)
    requires |a| == |b| && forall i :: 0 <= i < |a| ==> Normalize(a[i]) == Normalize(b[i])
    ensures Serialize(a) == Serialize(b)
  {
    if a != [] {
      SerializeRespects(a[1..], b[1..]);
    }
  }

  /** Composite keys collide exactly when the columns agree after normalization. */
  lemma {:induction false} CompositeKeysEqual(a: seq<Value>, b: seq<Value>)
    requires ShortList(a) && ShortList(b)
    ensures Serialize(a) == Serialize(b) <==>
            |a| == |b| && forall i :: 0 <= i < |a| ==> Normalize(a[i]) == Normalize(b[i])
  {
    if Serialize(a) == Serialize(b) {
      SerializeInjective(a, b);
    } else if |a| == |b| && forall i :: 0 <= i < |a| ==> Normalize(a[i]) == Normalize(b[i]) {
      SerializeRespects(a, b);
    }
  }

  /** The same, read on the values themselves. */
  lemma {:induction false} CompositeKeysIdentify(a: seq<Value>, b: seq<Value>)
    requires ShortList(a) && ShortList(b)
    ensures Serialize(a) == Serialize(b) <==>
            |a| == |b| && forall i :: 0 <= i < |a| ==> SameValue(a[i], b[i])
  {
    CompositeKeysEqual(a, b);
    forall i | 0 <= i < |a| && i < |b|
      ensures Normalize(a[i]) == Normalize(b[i]) <==> SameValue(a[i], b[i])
    {
      assert a[i] in a && b[i] in b;
      NormalFormsEqual(a[i], b[i]);
    }
  }
}
