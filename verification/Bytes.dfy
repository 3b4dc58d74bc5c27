/** Fixed-width little-endian integers, as `encoding/binary` reads and writes them, and the
    machine-integer ranges the two wire formats use. */
module Bytes {

  type byte = x: int | 0 <= x < 0x100
  type Bytes = seq<byte>

  const U16_LIMIT: nat := 0x1_0000
  const U32_LIMIT: nat := 0x1_0000_0000
  const U64_LIMIT: nat := 0x1_0000_0000_0000_0000
  const I64_LIMIT: int := 0x8000_0000_0000_0000

  type U32 = x: int | 0 <= x < U32_LIMIT
  type U64 = x: int | 0 <= x < U64_LIMIT
  type I64 = x: int | -I64_LIMIT <= x < I64_LIMIT

  /** The number of values `k` bytes can hold. */
  function Capacity(k: nat): (c: nat)
    ensures c > 0
  {
    if k == 0 then 1 else 0x100 * Capacity(k - 1)
  }

  lemma CapacityOfWidths()
    ensures Capacity(2) == U16_LIMIT
    ensures Capacity(4) == U32_LIMIT
    ensures Capacity(8) == U64_LIMIT
  {
    assert Capacity(4) == 0x100 * 0x100 * Capacity(2);
    assert Capacity(6) == 0x100 * 0x100 * Capacity(4);
  }

  /** The `k`-byte little-endian form of `n`. */
  function LittleEndian(k: nat, n: nat): (s: Bytes)
    requires n < Capacity(k)
    ensures |s| == k
  {
    if k == 0 then [] else [n % 0x100] + LittleEndian(k - 1, n / 0x100)
  }

  function FromLittleEndian(s: Bytes): (n: nat)
    ensures n < Capacity(|s|)
  {
    if s == [] then 0 else s[0] + 0x100 * FromLittleEndian(s[1..])
  }

  /** Writing then reading gives the number back, and reading then writing gives the bytes back. */
  lemma {:induction false} LittleEndianRoundTrip(k: nat, n: nat)
    requires n < Capacity(k)
    ensures FromLittleEndian(LittleEndian(k, n)) == n
  {
    if k == 0 {
    } else {
      LittleEndianRoundTrip(k - 1, n / 0x100);
      assert LittleEndian(k, n)[1..] == LittleEndian(k - 1, n / 0x100);
    }
  }

  lemma LowestDigit(digit: byte, n: nat)
    ensures (digit + 0x100 * n) % 0x100 == digit && (digit + 0x100 * n) / 0x100 == n
  {}

  lemma {:induction false} FromLittleEndianRoundTrip(s: Bytes)
    ensures LittleEndian(|s|, FromLittleEndian(s)) == s
  {
    if s == [] {
    } else {
      FromLittleEndianRoundTrip(s[1..]);
      LowestDigit(s[0], FromLittleEndian(s[1..]));
      assert s == [s[0]] + s[1..];
    }
  }

  function PutU16(n: nat): (s: Bytes)
    requires n < U16_LIMIT
    ensures |s| == 2 && FromLittleEndian(s) == n
  {
    CapacityOfWidths();
    LittleEndianRoundTrip(2, n);
    LittleEndian(2, n)
  }

  function PutU32(n: nat): (s: Bytes)
    requires n < U32_LIMIT
    ensures |s| == 4 && FromLittleEndian(s) == n
  {
    CapacityOfWidths();
    LittleEndianRoundTrip(4, n);
    LittleEndian(4, n)
  }

  function PutU64(n: nat): (s: Bytes)
    requires n < U64_LIMIT
    ensures |s| == 8 && FromLittleEndian(s) == n
  {
    CapacityOfWidths();
    LittleEndianRoundTrip(8, n);
    LittleEndian(8, n)
  }

  function GetU16(s: Bytes): (n: nat)
    requires |s| == 2
    ensures n < U16_LIMIT
  {
    CapacityOfWidths();
    FromLittleEndian(s)
  }

  function GetU32(s: Bytes): (n: nat)
    requires |s| == 4
    ensures n < U32_LIMIT && PutU32(n) == s
  {
    CapacityOfWidths();
    FromLittleEndianRoundTrip(s);
    FromLittleEndian(s)
  }

  function GetU64(s: Bytes): (n: nat)
    requires |s| == 8
    ensures n < U64_LIMIT
  {
    CapacityOfWidths();
    FromLittleEndian(s)
  }

  /** `uint64(x)` of a signed x, and `int64(u)` back: two's complement. */
  function I64ToU64(x: I64): (u: U64)
    ensures U64ToI64(u) == x
  {
    if x < 0 then x + U64_LIMIT else x
  }

  function U64ToI64(u: U64): I64 {
    if u < I64_LIMIT then u else u - U64_LIMIT
  }

  // ---------- written out byte by byte ----------

  /** Two, four and eight bytes, the lowest first; `N4` and `N8` read them. */
  function B2(n: nat): (s: Bytes)
    requires n < 65536
    ensures |s| == 2
  {
    [n % 256, n / 256]
  }

  function B4(n: nat): (s: Bytes)
    requires n < 4294967296
    ensures |s| == 4
  {
    [n % 256, n / 256 % 256, n / 65536 % 256, n / 16777216]
  }

  function B8(n: nat): (s: Bytes)
    requires n < 18446744073709551616
    ensures |s| == 8
  {
    var high := n / 4294967296;
    [n % 256, n / 256 % 256, n / 65536 % 256, n / 16777216 % 256,
     high % 256, high / 256 % 256, high / 65536 % 256, high / 16777216]
  }

  lemma Put2(n: nat)
    requires n < 65536
    ensures PutU16(n) == B2(n)
  {
    assert LittleEndian(1, n / 256) == [n / 256];
  }

  lemma Put4(n: nat)
    requires n < 4294967296
    ensures PutU32(n) == B4(n)
  {
    CapacityOfWidths();
    var a, b, c := n / 256, n / 65536, n / 16777216;
    assert LittleEndian(1, c) == [c];
    assert LittleEndian(2, b) == [b % 256] + [c];
    assert LittleEndian(3, a) == [a % 256] + LittleEndian(2, b);
  }

  lemma Put8(n: nat)
    requires n < 18446744073709551616
    ensures PutU64(n) == B8(n)
  {
    hide LittleEndian;
    CapacityOfWidths();
    Put4(n / 4294967296);
    Digit(5, n / 16777216);
    Digit(6, n / 65536);
    Digit(7, n / 256);
    Digit(8, n);
  }

  lemma Digit(k: nat, n: nat)
    requires k > 0 && n < Capacity(k)
    ensures LittleEndian(k, n) == [n % 256] + LittleEndian(k - 1, n / 256)
  {}

  function N4(s: Bytes): (n: nat)
    requires |s| == 4
  {
    s[0] as int + 256 * (s[1] as int + 256 * (s[2] as int + 256 * s[3] as int))
  }

  function N8(s: Bytes): (n: nat)
    requires |s| == 8
  {
    s[0] as int + 256 * (s[1] as int + 256 * (s[2] as int + 256 * (s[3] as int + 256 * N4(s[4..]))))
  }

  lemma TopDigit(s: Bytes, i: nat)
    requires i < |s|
    ensures FromLittleEndian(s[i..]) == s[i] as int + 256 * FromLittleEndian(s[i + 1..])
  {
    assert s[i..][1..] == s[i + 1..];
  }

  lemma GetU16Is(s: Bytes)
    requires |s| == 2
    ensures GetU16(s) == s[0] as int + 256 * s[1] as int
  {
    TopDigit(s, 0);
    TopDigit(s, 1);
    assert s[0..] == s;
  }

  lemma GetU32Is(s: Bytes)
    requires |s| == 4
    ensures GetU32(s) == N4(s)
  {
    hide FromLittleEndian;
    TopDigit(s, 0);
    TopDigit(s, 1);
    TopDigit(s, 2);
    TopDigit(s, 3);
    assert s[0..] == s && s[4..] == [];
    NoDigits();
  }

  lemma NoDigits()
    ensures FromLittleEndian([]) == 0
  {}

  lemma GetU64Is(s: Bytes)
    requires |s| == 8
    ensures GetU64(s) == N8(s)
  {
    hide FromLittleEndian, N4;
    TopDigit(s, 0);
    TopDigit(s, 1);
    TopDigit(s, 2);
    TopDigit(s, 3);
    assert s[0..] == s;
    GetU32Is(s[4..]);
  }
}
