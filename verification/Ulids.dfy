/** Internal primary keys: a 48-bit millisecond timestamp and 80 random bits in Crockford base 32. */
module Ulids {
  import opened Basics

  const ULID_LEN := 26
  const CROCKFORD := "0123456789ABCDEFGHJKMNPQRSTVWXYZ"
  const MAX_ULID_MILLIS := 0xffff_ffff_ffff
  const TWO_TO_THE_32 := 0x1_0000_0000
  const TWO_TO_THE_128 := 0x1_0000_0000_0000_0000_0000_0000_0000_0000

  datatype UlidError = OutsideTimestampRange | WrongLength | Overflows128Bits | NotCrockford

  type byte = x: int | 0 <= x < 256

  // ---- the alphabet ----

  /** The position of `c` in the alphabet, or -1. The excluded letters are I, L, O and U. */
  function DigitOf(c: char): int {
    if '0' <= c <= '9' then c as int - '0' as int
    else if 'A' <= c <= 'H' then c as int - 'A' as int + 10
    else if 'J' <= c <= 'K' then c as int - 'J' as int + 18
    else if 'M' <= c <= 'N' then c as int - 'M' as int + 20
    else if 'P' <= c <= 'T' then c as int - 'P' as int + 22
    else if 'V' <= c <= 'Z' then c as int - 'V' as int + 27
    else -1
  }

  lemma AlphabetAt(k: nat)
    requires k < 32
    ensures DigitOf(CROCKFORD[k]) == k
  {
  }

  lemma AlphabetHas(c: char)
    ensures 0 <= DigitOf(c) ==> DigitOf(c) < 32 && CROCKFORD[DigitOf(c)] == c
    ensures c in CROCKFORD <==> 0 <= DigitOf(c)
  {
    if c in CROCKFORD {
      var k :| 0 <= k < |CROCKFORD| && CROCKFORD[k] == c;
      AlphabetAt(k);
    }
  }

  /** The alphabet is the digits and the capitals without I, L, O and U. */
  lemma AlphabetIsCrockfords(c: char)
    ensures 0 <= DigitOf(c) <==> '0' <= c <= '9' || ('A' <= c <= 'Z' && c != 'I' && c != 'L' && c != 'O' && c != 'U')
  {
    AlphabetHas(c);
    assert c in CROCKFORD <==> '0' <= c <= '9' || ('A' <= c <= 'Z' && c != 'I' && c != 'L' && c != 'O' && c != 'U');
  }

  /** Every character is one of the 32 digits. */
  predicate AllDigits(s: string) {
    forall i :: 0 <= i < |s| ==> 0 <= DigitOf(s[i]) < 32
  }

  /** The strings that name a 128-bit value: 26 digits, of which the first carries three bits. */
  predicate IsUlid(s: string) {
    |s| == ULID_LEN && AllDigits(s) && DigitOf(s[0]) <= 7
  }

  // ---- positional values ----

  function Pow(base: nat, e: nat): (r: nat)
    ensures base > 0 ==> r > 0
  {
    if e == 0 then 1 else Pow(base, e - 1) * base
  }

  /** The big-endian value of a byte string. */
  function BytesValue(b: seq<byte>): nat {
    if b == [] then 0 else BytesValue(b[..|b| - 1]) * 256 + b[|b| - 1]
  }

  /** The positional base-32 value of a digit string. */
  function TextValue(s: string): nat
    requires AllDigits(s)
  {
    if s == "" then 0 else TextValue(s[..|s| - 1]) * 32 + DigitOf(s[|s| - 1])
  }

  lemma {:induction false} BytesValueBound(b: seq<byte>)
    ensures BytesValue(b) < Pow(256, |b|)
  {
    if b != [] {
      BytesValueBound(b[..|b| - 1]);
    }
  }

  lemma {:induction false} TextValueBound(s: string)
    requires AllDigits(s)
    ensures TextValue(s) < Pow(32, |s|)
  {
    if s != "" {
      TextValueBound(s[..|s| - 1]);
    }
  }

  /** A ULID's value fits in 128 bits, and no other 26-digit string's does. */
  lemma {:induction false} UlidValueBound(s: string)
    requires |s| == ULID_LEN && AllDigits(s)
    ensures TextValue(s) < TWO_TO_THE_128 <==> DigitOf(s[0]) <= 7
  {
    LeadingDigit(s);
    TextValueBound(s[1..]);
    assert Pow(32, 25) == 0x2000_0000_0000_0000_0000_0000_0000_0000 by {
      assert Pow(32, 5) == 0x200_0000;
      assert Pow(32, 10) == 0x4_0000_0000_0000;
      assert Pow(32, 15) == 0x800_0000_0000_0000_0000;
      assert Pow(32, 20) == 0x10_0000_0000_0000_0000_0000_0000;
    }
  }

  /** The value of a digit string, read from its leading digit. */
  lemma {:induction false} LeadingDigit(s: string)
    requires s != "" && AllDigits(s)
    ensures TextValue(s) == DigitOf(s[0]) * Pow(32, |s| - 1) + TextValue(s[1..])
  {
    if |s| == 1 {
      assert s[..0] == "" && s[1..] == "";
    } else {
      var init := s[..|s| - 1];
      LeadingDigit(init);
      assert init[1..] == s[1..][..|s| - 2];
      assert s[1..][|s| - 2] == s[|s| - 1];
      Scale(TextValue(init), DigitOf(s[0]), Pow(32, |s| - 2), TextValue(init[1..]));
    }
  }

  lemma Scale(v: int, d: int, p: int, t: int)
    requires v == d * p + t
    ensures v * 32 == d * (p * 32) + t * 32
  {
  }

  /** The alphabet is in ascending order, so comparing digits is comparing characters. */
  lemma DigitOrder(c: char, d: char)
    requires 0 <= DigitOf(c) && 0 <= DigitOf(d)
    ensures c < d <==> DigitOf(c) < DigitOf(d)
    ensures c == d <==> DigitOf(c) == DigitOf(d)
  {
  }

  /** Order of equal-length digit strings is order of their values, in both directions. */
  lemma {:induction false} ValueOrder(a: string, b: string)
    requires |a| == |b| && AllDigits(a) && AllDigits(b)
    ensures TextLess(a, b) <==> TextValue(a) < TextValue(b)
    ensures a == b <==> TextValue(a) == TextValue(b)
  {
    if a != "" {
      LeadingDigit(a);
      LeadingDigit(b);
      ValueOrder(a[1..], b[1..]);
      TextValueBound(a[1..]);
      TextValueBound(b[1..]);
      DigitOrder(a[0], b[0]);
      assert a == [a[0]] + a[1..] && b == [b[0]] + b[1..];
      LeadingDecides(DigitOf(a[0]), DigitOf(b[0]), Pow(32, |a| - 1), TextValue(a[1..]), TextValue(b[1..]));
    }
  }

  lemma LeadingDecides(d: int, e: int, p: int, s: int, t: int)
    requires 0 <= s < p && 0 <= t < p
    ensures d < e ==> d * p + s < e * p + t
    ensures e < d ==> e * p + t < d * p + s
  {
    if d < e {
      assert (d + 1) * p <= e * p;
    } else if e < d {
      assert (e + 1) * p <= d * p;
    }
  }

  // ---- encodeULID ----

  /** 2 to the power `n`, for the shift counts the encoder uses. */
  function Pow2(n: nat): (r: nat)
    ensures r > 0
  {
    Pow(2, n)
  }

  /** What a five-bit group reads is not affected by the accumulator having wrapped at 32 bits. */
  lemma GroupSurvivesWrap(v: nat, n: nat)
    requires n <= 7
    ensures (v % TWO_TO_THE_32) / Pow2(n) % 32 == v / Pow2(n) % 32
  {
    var q, r := v / TWO_TO_THE_32, v % TWO_TO_THE_32;
    var k := 0x800_0000 / Pow2(n);
    assert TWO_TO_THE_32 == k * 32 * Pow2(n) by {
      SmallPowers();
    }
    assert v == q * TWO_TO_THE_32 + r;
    ChunkDropped(q, r, Pow2(n), k);
  }

  lemma ChunkDropped(q: nat, r: nat, p: nat, k: nat)
    requires p > 0
    ensures (q * (k * 32 * p) + r) / p % 32 == r / p % 32
  {
    var a := q * k * 32;
    assert q * (k * 32 * p) == a * p;
    QuotientOfSum(a, p, r);
    MultipleDropped(q * k, r / p);
  }

  lemma QuotientOfSum(a: int, m: int, r: int)
    requires m > 0
    ensures (a * m + r) / m == a + r / m
  {
    assert (a + r / m) * m == a * m + r / m * m;
    QuotientUnique(a * m + r, m, a + r / m, r % m);
  }

  lemma QuotientUnique(x: int, m: int, k: int, t: int)
    requires m > 0 && 0 <= t < m && x == k * m + t
    ensures x / m == k
  {
    assert x == x / m * m + x % m;
    LeadingDecides(x / m, k, m, x % m, t);
  }

  lemma MultipleDropped(a: int, r: int)
    ensures (a * 32 + r) % 32 == r % 32
  {
  }

  lemma SmallPowers()
    ensures Pow2(0) == 1 && Pow2(1) == 2 && Pow2(2) == 4 && Pow2(3) == 8 && Pow2(4) == 16
    ensures Pow2(5) == 32 && Pow2(6) == 64 && Pow2(7) == 128 && Pow2(8) == 256 && Pow2(9) == 512
    ensures Pow2(10) == 1024 && Pow2(11) == 2048 && Pow2(12) == 4096
  {
    assert Pow(2, 4) == 16;
    assert Pow(2, 8) == 256;
  }

  /** Widening the shift by five drops exactly one base-32 digit. */
  lemma GroupStep(v: nat, n: nat)
    requires n <= 7
    ensures v / Pow2(n + 5) * 32 + v / Pow2(n) % 32 == v / Pow2(n)
  {
    SmallPowers();
  }

  /** Appending a byte and widening the shift by eight changes nothing above the shift. */
  lemma ByteStep(v: nat, octet: byte, n: nat)
    requires n < 5
    ensures (v * 256 + octet) / Pow2(n + 8) == v / Pow2(n)
  {
    SmallPowers();
  }

  /** One pass of the inner loop: the group read from the wrapped accumulator is the next digit. */
  lemma EmitStep(before: string, w: nat, acc: nat, nbits: nat)
    requires nbits <= 7 && acc == w % TWO_TO_THE_32
    requires AllDigits(before) && TextValue(before) == w / Pow2(nbits + 5)
    ensures acc / Pow2(nbits) % 32 == w / Pow2(nbits) % 32
    ensures var after := before + [CROCKFORD[acc / Pow2(nbits) % 32]];
      AllDigits(after) && TextValue(after) == w / Pow2(nbits)
  {
    GroupSurvivesWrap(w, nbits);
    GroupStep(w, nbits);
    var d := acc / Pow2(nbits) % 32;
    AlphabetAt(d);
    var after := before + [CROCKFORD[d]];
    assert after[..|after| - 1] == before;
  }

  /** One pass of the outer loop: the accumulator holds the low 32 bits of the bytes read. */
  lemma AbsorbStep(b: seq<byte>, k: nat, acc: nat, nbits: nat)
    requires k < |b| && nbits < 5 && acc == BytesValue(b[..k]) % TWO_TO_THE_32
    ensures acc * 256 % TWO_TO_THE_32 + b[k] == BytesValue(b[..k + 1]) % TWO_TO_THE_32
    ensures BytesValue(b[..k]) / Pow2(nbits) == BytesValue(b[..k + 1]) / Pow2(nbits + 8)
  {
    var v := BytesValue(b[..k]);
    assert b[..k + 1][..k] == b[..k];
    ShiftIn(v, b[k]);
    ByteStep(v, b[k], nbits);
  }

  /** Shifting a wrapped accumulator left by eight drops the same bits as wrapping afterwards. */
  lemma ShiftIn(v: nat, octet: byte)
    ensures v % TWO_TO_THE_32 * 256 % TWO_TO_THE_32 + octet == (v * 256 + octet) % TWO_TO_THE_32
  {
    var acc := v % TWO_TO_THE_32;
    var high, low := acc / 0x100_0000, acc % 0x100_0000;
    QuotientUnique(acc * 256, TWO_TO_THE_32, high, low * 256);
    assert acc * 256 % TWO_TO_THE_32 == low * 256;
    QuotientUnique(v * 256 + octet, TWO_TO_THE_32, v / TWO_TO_THE_32 * 256 + high, low * 256 + octet);
  }

  /** Renders 128 bits as 26 digits. `acc` is a uint32: the shift left drops whatever passes bit 31,
      and the low eight bits it leaves clear make the `|` with the next byte an addition. */
  method EncodeULID(b: seq<byte>) returns (s: string)
    requires |b| == 16
    ensures IsUlid(s) && TextValue(s) == BytesValue(b)
  {
    hide BytesValue, TextValue, AllDigits, Pow2;
    var out := new char[ULID_LEN](_ => '\0');
    var acc, nbits := 0, 2;
    var i := 0;
    NothingRead(out[..0], b[..0]);
    for k := 0 to |b|
      invariant 8 * k + 2 == 5 * i + nbits && 0 <= nbits < 5 && 0 <= i
      invariant acc == BytesValue(b[..k]) % TWO_TO_THE_32
      invariant AllDigits(out[..i]) && TextValue(out[..i]) == BytesValue(b[..k]) / Pow2(nbits)
    {
      AbsorbStep(b, k, acc, nbits);
      acc := acc * 256 % TWO_TO_THE_32 + b[k];
      nbits := nbits + 8;
      ghost var w := BytesValue(b[..k + 1]);
      while nbits >= 5
        invariant 8 * (k + 1) + 2 == 5 * i + nbits && 0 <= nbits <= 12 && 0 <= i
        invariant AllDigits(out[..i]) && TextValue(out[..i]) == w / Pow2(nbits)
      {
        nbits := nbits - 5;
        ghost var before := out[..i];
        EmitStep(before, w, acc, nbits);
        out[i] := CROCKFORD[acc / Pow2(nbits) % 32];
        assert out[..i + 1] == before + [out[i]];
        i := i + 1;
      }
    }
    SmallPowers();
    assert b[..16] == b && out[..26] == out[..];
    s := out[..];
    AllBytesFit(b);
    UlidValueBound(s);
  }

  lemma NothingRead(s: string, b: seq<byte>)
    requires s == "" && b == []
    ensures AllDigits(s) && TextValue(s) == 0 && BytesValue(b) == 0 && BytesValue(b) / Pow2(2) == 0
  {
  }

  lemma AllBytesFit(b: seq<byte>)
    requires |b| == 16
    ensures BytesValue(b) < TWO_TO_THE_128
  {
    BytesValueBound(b);
    assert Pow(256, 8) == TWO_TO_THE_64;
    assert Pow(256, 16) == TWO_TO_THE_128;
  }

  // ---- ParseULID ----

  /** Is `c` in the alphabet, by scanning it. */
  method IsCrockford(c: char) returns (found: bool)
    ensures found <==> 0 <= DigitOf(c)
  {
    AlphabetHas(c);
    for i := 0 to |CROCKFORD|
      invariant c !in CROCKFORD[..i]
    {
      if CROCKFORD[i] == c {
        return true;
      }
    }
    assert CROCKFORD[..|CROCKFORD|] == CROCKFORD;
    return false;
  }

  /** Accepts a ULID as it is, or says why it is none. */
  method ParseULID(s: string) returns (r: Result<string, UlidError>)
    ensures r.Ok? <==> IsUlid(s)
    ensures r.Ok? ==> r.value == s
    ensures r == Err(WrongLength) <==> |s| != ULID_LEN
    ensures r == Err(Overflows128Bits) <==> |s| == ULID_LEN && s[0] > '7'
  {
    if |s| != ULID_LEN {
      return Err(WrongLength);
    }
    if s[0] > '7' {
      return Err(Overflows128Bits);
    }
    for i := 0 to |s|
      invariant forall k :: 0 <= k < i ==> 0 <= DigitOf(s[k]) < 32
    {
      var ok := IsCrockford(s[i]);
      if !ok {
        return Err(NotCrockford);
      }
      AlphabetHas(s[i]);
    }
    return Ok(s);
  }

  // ---- the encoding is a bijection that keeps order ----

  /** The big-endian bytes of a value: the inverse of `BytesValue` on `n` bytes. */
  function BytesOf(v: nat, n: nat): (b: seq<byte>)
    ensures |b| == n
    ensures v < Pow(256, n) ==> BytesValue(b) == v
  {
    if n == 0 then []
    else
      var b := BytesOf(v / 256, n - 1) + [v % 256];
      assert b[..n - 1] == BytesOf(v / 256, n - 1);
      b
  }

  lemma {:induction false} BytesOfValue(b: seq<byte>)
    ensures BytesOf(BytesValue(b), |b|) == b
  {
    if b != [] {
      BytesOfValue(b[..|b| - 1]);
    }
  }

  /** `s` is what the encoder writes for `b`. By `EncodeULID` there is one for every 16 bytes. */
  ghost predicate Encodes(b: seq<byte>, s: string) {
    |b| == 16 && IsUlid(s) && TextValue(s) == BytesValue(b)
  }

  /** Every string `ParseULID` accepts is the encoding of exactly one 128-bit value, and every
      value has exactly one encoding. */
  lemma EncodingIsBijective(b: seq<byte>, c: seq<byte>, s: string, t: string)
    requires Encodes(b, s) && Encodes(c, t)
    ensures b == c <==> s == t
  {
    ValueOrder(s, t);
    BytesOfValue(b);
    BytesOfValue(c);
  }

  lemma EveryUlidDecodes(s: string)
    requires IsUlid(s)
    ensures Encodes(BytesOf(TextValue(s), 16), s)
  {
    UlidValueBound(s);
    assert Pow(256, 16) == TWO_TO_THE_128 by {
      assert Pow(256, 8) == TWO_TO_THE_64;
    }
  }

  /** The 16 bytes of an id: the low six bytes of the big-endian milliseconds, then the randomness. */
  function UlidBytes(ms: nat, random: seq<byte>): (b: seq<byte>)
    requires |random| == 10
    ensures |b| == 16
  {
    BytesOf(ms, 6) + random
  }

  lemma {:induction false} BytesValueConcat(a: seq<byte>, b: seq<byte>)
    ensures BytesValue(a + b) == BytesValue(a) * Pow(256, |b|) + BytesValue(b)
  {
    if b == [] {
      assert a + b == a;
    } else {
      var init := b[..|b| - 1];
      BytesValueConcat(a, init);
      assert (a + b)[..|a + b| - 1] == a + init;
      ScaleBytes(BytesValue(a + init), BytesValue(a), Pow(256, |init|), BytesValue(init));
    }
  }

  lemma ScaleBytes(v: int, a: int, p: int, t: int)
    requires v == a * p + t
    ensures v * 256 == a * (p * 256) + t * 256
  {
  }

  /** An id minted in an earlier millisecond is the lexicographically smaller one, whatever the
      random bits of either are. */
  lemma EarlierSortsFirst(ms: nat, random: seq<byte>, later: nat, other: seq<byte>, s: string, t: string)
    requires ms < later <= MAX_ULID_MILLIS
    requires |random| == |other| == 10
    requires Encodes(UlidBytes(ms, random), s) && Encodes(UlidBytes(later, other), t)
    ensures TextLess(s, t)
  {
    BytesValueConcat(BytesOf(ms, 6), random);
    BytesValueConcat(BytesOf(later, 6), other);
    BytesValueBound(random);
    BytesValueBound(other);
    assert Pow(256, 6) == MAX_ULID_MILLIS + 1;
    LeadingDecides(ms, later, Pow(256, 10), BytesValue(random), BytesValue(other));
    ValueOrder(s, t);
  }

  /** Mints an id for the millisecond `ms`. `random` is what crypto/rand returned. */
  method NewULID(ms: int, random: seq<byte>) returns (r: Result<string, UlidError>)
    requires |random| == 10
    ensures r.Ok? <==> 0 <= ms <= MAX_ULID_MILLIS
    ensures r.Ok? ==> Encodes(UlidBytes(ms, random), r.value)
    ensures r.Err? ==> r.error == OutsideTimestampRange
  {
    if ms < 0 || ms > MAX_ULID_MILLIS {
      return Err(OutsideTimestampRange);
    }
    var ts := PutUint64(ms);
    var b := new byte[16](_ => 0);
    for k := 0 to 6
      invariant b[..k] == ts[2..2 + k]
    {
      b[k] := ts[2 + k];
    }
    for k := 0 to 10
      invariant b[..6] == ts[2..8]
      invariant b[6..6 + k] == random[..k]
    {
      b[6 + k] := random[k];
    }
    assert b[..] == b[..6] + b[6..16];
    assert random[..10] == random;
    LowBytes(ms);
    var s := EncodeULID(b[..]);
    r := Ok(s);
  }

  /** binary.BigEndian.PutUint64. */
  function PutUint64(v: nat): (ts: seq<byte>)
    ensures |ts| == 8
  {
    BytesOf(v, 8)
  }

  lemma LowBytes(ms: nat)
    requires ms <= MAX_ULID_MILLIS
    ensures PutUint64(ms)[2..8] == BytesOf(ms, 6)
  {
    assert Pow(256, 6) == MAX_ULID_MILLIS + 1;
    BytesOfSuffix(ms, 6);
    BytesOfSuffix(ms, 7);
    var b7 := BytesOf(ms, 7);
    assert PutUint64(ms)[1..] == b7 && b7[1..] == BytesOf(ms, 6);
  }

  lemma {:induction false} BytesOfSuffix(v: nat, n: nat)
    ensures BytesOf(v, n + 1)[1..] == BytesOf(v, n)
  {
    if n != 0 {
      BytesOfSuffix(v / 256, n - 1);
      var hi := BytesOf(v / 256, n);
      assert (hi + [v % 256])[1..] == hi[1..] + [v % 256];
    }
  }
}
