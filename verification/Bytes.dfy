/** 32-bit lengths as little-endian bytes. */
module Bytes {

  type Byte = b: nat | b < 256

  const U32_LIMIT: nat := 0x1_0000_0000

  function FromU32(n: nat): (bytes: seq<Byte>)
    requires n < U32_LIMIT
    ensures |bytes| == 4
  {
    [n % 256, n / 256 % 256, n / 65536 % 256, n / 16777216]
  }

  function ToU32(bytes: seq<Byte>): nat
    requires |bytes| == 4
  {
    (bytes[0] as nat) + 256 * (bytes[1] as nat) + 65536 * (bytes[2] as nat) + 16777216 * (bytes[3] as nat)
  }

  /** The first byte weighs least. */
  lemma BytesWeigh(n: nat)
    requires n < U32_LIMIT
    ensures var bytes := FromU32(n);
            n == (bytes[0] as nat) + 256 * (bytes[1] as nat) + 65536 * (bytes[2] as nat) + 16777216 * (bytes[3] as nat)
  {
    assert n / 65536 == n / 256 / 256 && n / 16777216 == n / 65536 / 256;
  }

  lemma U32RoundTrip(n: nat)
    requires n < U32_LIMIT
    ensures ToU32(FromU32(n)) == n
  {
    BytesWeigh(n);
  }

  lemma BytesRoundTrip(bytes: seq<Byte>)
    requires |bytes| == 4
    ensures ToU32(bytes) < U32_LIMIT && FromU32(ToU32(bytes)) == bytes
  {
    Digits(bytes[0], bytes[1], bytes[2], bytes[3]);
  }

  lemma LowDigit(a: nat, m: nat)
    requires a < 256
    ensures (a + 256 * m) % 256 == a && (a + 256 * m) / 256 == m
  {
  }

  lemma DivTwice(n: nat)
    ensures n / 65536 == n / 256 / 256 && n / 16777216 == n / 256 / 256 / 256
  {
  }

  lemma Digits(a: nat, b: nat, c: nat, d: nat)
    requires a < 256 && b < 256 && c < 256 && d < 256
    ensures var n := a + 256 * b + 65536 * c + 16777216 * d;
            n < U32_LIMIT && n % 256 == a && n / 256 % 256 == b && n / 65536 % 256 == c && n / 16777216 == d
  {
    var k := c + 256 * d;
    var m := b + 256 * k;
    LowDigit(a, m);
    LowDigit(b, k);
    LowDigit(c, d);
    DivTwice(a + 256 * m);
  }
}
