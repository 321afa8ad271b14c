/** Bytes, little-endian integers and decimal text: the encodings the server and
    the client share. */
module Bytes {

  type Byte = b: int | 0 <= b < 256
  type U16 = n: int | 0 <= n < 0x1_0000
  type U32 = n: int | 0 <= n < 0x1_0000_0000
  type U64 = n: int | 0 <= n < 0x1_0000_0000_0000_0000
  type I64 = n: int | -0x8000_0000_0000_0000 <= n < 0x8000_0000_0000_0000

  datatype Option<+T> = None | Some(value: T) {
    predicate IsFailure() { None? }
    function PropagateFailure<U>(): Option<U>
      requires None?
    {
      None
    }
    function Extract(): T
      requires Some?
    {
      value
    }
  }

  // ------------------------------------------------------------------
  // Little-endian integers (`to_le_bytes` / `from_le_bytes`)
  // ------------------------------------------------------------------

  function Pow256(k: nat): nat {
    if k == 0 then 1 else 256 * Pow256(k - 1)
  }

  function Le(n: nat, k: nat): (s: seq<Byte>)
    ensures |s| == k
  {
    if k == 0 then [] else [n % 256] + Le(n / 256, k - 1)
  }

  function FromLe(s: seq<Byte>): nat {
    if s == [] then 0 else s[0] + 256 * FromLe(s[1..])
  }

  lemma {:induction false} LeRoundTrip(n: nat, k: nat)
    requires n < Pow256(k)
    ensures FromLe(Le(n, k)) == n
  {
    if k > 0 {
      LeRoundTrip(n / 256, k - 1);
      assert Le(n, k)[1..] == Le(n / 256, k - 1);
    }
  }

  lemma Pow256Values()
    ensures Pow256(2) == 0x1_0000
    ensures Pow256(4) == 0x1_0000_0000
    ensures Pow256(8) == 0x1_0000_0000_0000_0000
  {
    assert Pow256(1) == 256;
    assert Pow256(3) == 256 * Pow256(2);
    assert Pow256(5) == 256 * Pow256(4);
    assert Pow256(6) == 256 * Pow256(5);
    assert Pow256(7) == 256 * Pow256(6);
  }

  /** Reading back the first `k` bytes of an encoding that has more after it. */
  lemma LePrefix(n: nat, k: nat, rest: seq<Byte>)
    requires n < Pow256(k)
    ensures (Le(n, k) + rest)[..k] == Le(n, k)
    ensures (Le(n, k) + rest)[k..] == rest
    ensures FromLe((Le(n, k) + rest)[..k]) == n
  {
    LeRoundTrip(n, k);
  }

  /** Two's complement of a signed 64-bit integer. */
  function ToU64(i: I64): U64 {
    if i >= 0 then i else i + 0x1_0000_0000_0000_0000
  }

  function FromU64(u: U64): I64 {
    if u < 0x8000_0000_0000_0000 then u else u - 0x1_0000_0000_0000_0000
  }

  // ------------------------------------------------------------------
  // Decimal text
  // ------------------------------------------------------------------

  const MINUS: Byte := 45
  const PLUS: Byte := 43
  const ZERO: Byte := 48

  function Digits(n: nat): (s: seq<Byte>)
    ensures s != [] && forall i :: 0 <= i < |s| ==> ZERO <= s[i] <= ZERO + 9
  {
    if n < 10 then [ZERO + n] else Digits(n / 10) + [ZERO + n % 10]
  }

  /** The canonical rendering of an integer (`itoa::Buffer::format`). */
  function Decimal(n: int): (s: seq<Byte>)
    ensures s != [] && (s[0] == MINUS || ZERO <= s[0] <= ZERO + 9)
    ensures forall i :: 0 <= i < |s| ==> s[i] == MINUS || ZERO <= s[i] <= ZERO + 9
  {
    if n < 0 then [MINUS] + Digits(-n) else Digits(n)
  }

  predicate AllDigits(s: seq<Byte>) {
    forall i :: 0 <= i < |s| ==> ZERO <= s[i] <= ZERO + 9
  }

  function DigitsValue(s: seq<Byte>): nat
    requires AllDigits(s)
  {
    if s == [] then 0 else 10 * DigitsValue(s[..|s| - 1]) + (s[|s| - 1] - ZERO)
  }

  lemma {:induction false} DigitsRoundTrip(n: nat)
    ensures DigitsValue(Digits(n)) == n
  {
    if n >= 10 {
      DigitsRoundTrip(n / 10);
      assert Digits(n)[..|Digits(n)| - 1] == Digits(n / 10);
    } else {
      assert Digits(n)[..0] == [];
    }
  }

  /** `str::parse` for an integer type with bounds `lo` and `hi`: an optional sign
      (`-` only for a signed type), then at least one digit and nothing else. */
  function ParseInt(s: seq<Byte>, lo: int, hi: int): Option<int> {
    var signed := s != [] && (s[0] == PLUS || (s[0] == MINUS && lo < 0));
    var digits := if signed then s[1..] else s;
    if digits == [] || !AllDigits(digits) then None
    else
      var n: int := if signed && s[0] == MINUS then 0 - DigitsValue(digits) else DigitsValue(digits);
      if lo <= n <= hi then Some(n) else None
  }

  lemma ParseDecimal(n: int, lo: int, hi: int)
    requires lo <= n <= hi && (n < 0 ==> lo < 0)
    ensures ParseInt(Decimal(n), lo, hi) == Some(n)
  {
    if n < 0 {
      DigitsRoundTrip(-n);
      assert Decimal(n)[1..] == Digits(-n);
    } else {
      DigitsRoundTrip(n);
    }
  }

  lemma DecimalInjective(a: int, b: int)
    requires Decimal(a) == Decimal(b)
    ensures a == b
  {
    var lo, hi := if a < b then a else b, if a < b then b else a;
    var l := if lo < 0 then lo else -1;
    ParseDecimal(a, l, hi);
    ParseDecimal(b, l, hi);
  }
}
