/** Fixed-width integers of the C code, written out over Dafny's unbounded
    integers, and the byte strings the client handles. */
module Octets {

  /** An unsigned 8-bit value (`uint8_t`). */
  type Octet = x: int | 0 <= x < 256

  /** An unsigned 16-bit value (`uint16_t`). */
  type U16 = x: int | 0 <= x < 0x1_0000

  /** A signed 8-bit value (`int8_t`). */
  type Int8 = x: int | -128 <= x < 128

  /** A C string, as the bytes before its terminating NUL. */
  type Bytes = seq<Octet>

  /** Conversion of an `int` to `uint16_t`: reduction modulo 2^16. */
  function ToU16(x: int): (r: U16)
    ensures (r - x) % 0x1_0000 == 0
    ensures 0 <= x < 0x1_0000 ==> r == x
  {
    x % 0x1_0000
  }

  /** Conversion of an `int` to `int8_t` with two's-complement wrap-around
      (the behaviour of gcc and clang; the C standard leaves it to the
      implementation). */
  function ToInt8(x: int): (r: Int8)
    ensures (r - x) % 256 == 0
    ensures -128 <= x < 128 ==> r == x
  {
    (x + 128) % 256 - 128
  }

  /** The `int8_t` conversion only sees its argument modulo 256. */
  lemma ToInt8Periodic(x: int, k: int)
    ensures ToInt8(x + 256 * k) == ToInt8(x)
  {
    assert (x + 256 * k + 128) % 256 == (x + 128) % 256;
  }

  /** A byte read through a signed `char`, as on the x86 ABIs. */
  function SignedChar(c: Octet): (r: Int8)
    ensures r == c || r == c - 256
    ensures r < 0 <==> c >= 128
  {
    if c >= 128 then c - 256 else c
  }

  /** `htons`: a 16-bit value in network (big-endian) byte order. */
  function BigEndian(x: U16): (r: Bytes)
    ensures |r| == 2
  {
    [x / 256, x % 256]
  }

  /** `ntohs`: the 16-bit value held by two bytes in network order. */
  function FromBigEndian(hi: Octet, lo: Octet): U16
  {
    hi * 256 + lo
  }

  lemma BigEndianRoundTrip(x: U16)
    ensures FromBigEndian(BigEndian(x)[0], BigEndian(x)[1]) == x
  {
  }

  lemma FromBigEndianInjective(hi: Octet, lo: Octet, hi': Octet, lo': Octet)
    requires FromBigEndian(hi, lo) == FromBigEndian(hi', lo')
    ensures hi == hi' && lo == lo'
  {
  }

  /** The bytes of an ASCII string literal. */
  function Ascii(s: string): (r: Bytes)
    ensures |r| == |s|
    ensures forall i :: 0 <= i < |s| && (s[i] as int) < 256 ==> r[i] == s[i] as int
  {
    seq(|s|, i requires 0 <= i < |s| => (s[i] as int) % 256)
  }

  /** Whether every byte of `s` is an ASCII decimal digit. */
  predicate AllDigits(s: Bytes)
  {
    forall i :: 0 <= i < |s| ==> '0' as int <= s[i] <= '9' as int
  }

  /** The decimal value of a string of digits. */
  function DigitsValue(s: Bytes): nat
    requires AllDigits(s)
  {
    if |s| == 0 then 0 else DigitsValue(s[..|s| - 1]) * 10 + (s[|s| - 1] - '0' as int)
  }

  /** `printf("%d", n)` for a non-negative `n`: its decimal digits, without
      leading zeros. */
  function Decimal(n: nat): (r: Bytes)
    ensures |r| >= 1
    ensures AllDigits(r)
    ensures DigitsValue(r) == n
    ensures |r| > 1 ==> r[0] != '0' as int
  {
    if n < 10 then [n + '0' as int]
    else
      var r := Decimal(n / 10) + [n % 10 + '0' as int];
      assert r[..|r| - 1] == Decimal(n / 10);
      r
  }

  /** The first `n` bytes of `s`, or all of `s` when it is shorter: what a
      bounded copy into an `n`-byte field keeps. */
  function Truncate(s: Bytes, n: nat): (r: Bytes)
    ensures |r| <= n && r <= s
    ensures |s| <= n <==> r == s
  {
    if |s| <= n then s else s[..n]
  }
}
