/** The striped lock table: how many stripes there are and which one a vertex uses. */
module StripedLocks {

  const HASH_MULTIPLIER: nat := 0x9E37_79B9_7F4A_7C15
  const WORD: nat := 0x1_0000_0000_0000_0000

  function Pow2(n: nat): (p: nat)
    ensures p > 0
  {
    if n == 0 then 1 else 2 * Pow2(n - 1)
  }

  lemma {:induction false} Pow2Sum(a: nat, b: nat)
    ensures Pow2(a + b) == Pow2(a) * Pow2(b)
  {
    if a > 0 {
      Pow2Sum(a - 1, b);
      assert Pow2(a) * Pow2(b) == 2 * (Pow2(a - 1) * Pow2(b));
    }
  }

  lemma {:induction false} Pow2Grows(a: nat, b: nat)
    requires a < b
    ensures 2 * Pow2(a) <= Pow2(b)
  {
    if a + 1 < b {
      Pow2Grows(a, b - 1);
    }
  }

  lemma Pow2Of64()
    ensures Pow2(64) == WORD && Pow2(6) == 64
  {
    Pow2Sum(2, 4);
    Pow2Sum(2, 2);
    assert Pow2(4) == 16;
    Pow2Sum(4, 4);
    assert Pow2(8) == 256;
    Pow2Sum(8, 8);
    assert Pow2(16) == 65536;
    Pow2Sum(16, 16);
    assert Pow2(32) == 0x1_0000_0000;
    Pow2Sum(32, 32);
  }

  /** Stripes for a machine with `cpus` cores: four per core, rounded up to a power of two, at
      least 64; and the shift that goes with them. */
  method NewTable(cpus: nat) returns (count: nat, shift: nat)
    requires cpus * 4 <= Pow2(63)
    ensures 1 <= shift <= 58 && count == Pow2(64 - shift)
    ensures count >= 64 && count >= 4 * cpus
    ensures count == 64 || count / 2 < 4 * cpus
  {
    Pow2Of64();
    var bits := 0;
    count := 1;
    while count < cpus * 4
      invariant bits <= 63 && count == Pow2(bits)
      invariant bits > 0 ==> Pow2(bits - 1) < cpus * 4
      decreases 64 - bits
    {
      assert bits < 63;
      count := count * 2;
      bits := bits + 1;
    }
    if bits < 6 {
      Pow2Grows(bits, 6);
      count, bits := 64, 6;
    } else if bits > 6 {
      Pow2Grows(6, bits);
    }
    shift := 64 - bits;
  }

  /** The low 64 bits of the product with the multiplier. */
  function Hash(id: nat): (h: nat)
    ensures h < WORD
  {
    id * HASH_MULTIPLIER % WORD
  }

  /** Multiply-shift hashing of a vertex ID. */
  function StripeIndex(id: nat, shift: nat): nat {
    Quotient(Hash(id), Pow2(shift))
  }

  function Quotient(x: nat, b: nat): nat
    requires b > 0
  {
    x / b
  }

  /** Every ID's stripe is in the table, for every table that can be built. */
  lemma StripeInBounds(id: nat, shift: nat)
    requires shift <= 64
    ensures StripeIndex(id, shift) < Pow2(64 - shift)
  {
    Pow2Of64();
    Pow2Sum(64 - shift, shift);
    DivBelow(Hash(id), Pow2(64 - shift), Pow2(shift));
  }

  lemma DivBelow(x: nat, a: nat, b: nat)
    requires b > 0 && x < a * b
    ensures Quotient(x, b) < a
  {
  }

  // ---- How the IDs spread ----

  /** The multiplier is odd, so that it has an inverse for 64-bit products. */
  const HASH_INVERSE: nat := 0xF1DE_83E1_9937_733D

  lemma WrapSum(k: nat, x: nat)
    ensures (k * WORD + x) % WORD == x % WORD
  {
  }

  /** Wrapping a factor first does not change a wrapped product. */
  lemma WrapProduct(a: nat, b: nat)
    ensures a % WORD * b % WORD == a * b % WORD
  {
    var q, r := a / WORD, a % WORD;
    assert a * b == q * b * WORD + r * b;
    WrapSum(q * b, r * b);
  }

  /** Multiplying by the inverse and hashing gives the number back. */
  lemma HashInverts(x: nat)
    requires x < WORD
    ensures Hash(x * HASH_INVERSE % WORD) == x
  {
    WrapProduct(x * HASH_INVERSE, HASH_MULTIPLIER);
    var k := 0x957B_BF35_006E_D677;
    assert HASH_INVERSE * HASH_MULTIPLIER == k * WORD + 1;
    assert x * HASH_INVERSE * HASH_MULTIPLIER == x * (HASH_INVERSE * HASH_MULTIPLIER);
    assert x * (k * WORD + 1) == x * k * WORD + x;
    WrapSum(x * k, x);
  }

  /** Every stripe of every table is some vertex's. */
  lemma EveryStripeUsed(stripe: nat, shift: nat) returns (id: nat)
    requires shift <= 64 && stripe < Pow2(64 - shift)
    ensures id < WORD && StripeIndex(id, shift) == stripe
  {
    Pow2Of64();
    Pow2Sum(64 - shift, shift);
    var width := Pow2(shift);
    var x := stripe * width;
    Below(stripe, Pow2(64 - shift), width);
    id := x * HASH_INVERSE % WORD;
    HashInverts(x);
    hide Hash, Pow2;
    Multiple(stripe, width);
  }

  lemma {:induction false} Below(a: nat, b: nat, c: nat)
    requires a < b && c > 0
    ensures a * c < b * c
    decreases b
  {
    assert b * c == (b - 1) * c + c;
    if a < b - 1 {
      Below(a, b - 1, c);
    }
  }

  lemma Multiple(a: nat, b: nat)
    requires b > 0
    ensures Quotient(a * b, b) == a
  {
    var q := a * b / b;
    assert a * b == q * b + a * b % b;
    if a < q {
      Below(a, q, b);
    } else if q + 1 < a {
      Below(q + 1, a, b);
    }
    assert (q + 1) * b == q * b + b;
  }

  lemma SameQuotient(x: nat, y: nat, b: nat)
    requires b > 0 && Quotient(x, b) == Quotient(y, b)
    ensures x < y + b
  {
    assert x == b * (x / b) + x % b && y == b * (y / b) + y % b;
  }

  /** Vertices with consecutive IDs never share a stripe, for every table that is built. */
  lemma NeighboursApart(id: nat, shift: nat)
    requires shift <= 58
    ensures StripeIndex(id, shift) != StripeIndex(id + 1, shift)
  {
    Pow2Of64();
    Pow2Sum(6, 58);
    if shift < 58 {
      Pow2Grows(shift, 58);
    }
    NextHash(id);
    hide Hash, Pow2;
    if StripeIndex(id, shift) == StripeIndex(id + 1, shift) {
      SameQuotient(Hash(id), Hash(id + 1), Pow2(shift));
      SameQuotient(Hash(id + 1), Hash(id), Pow2(shift));
    }
  }

  lemma NextHash(id: nat)
    ensures Hash(id + 1) == Hash(id) + HASH_MULTIPLIER || Hash(id + 1) == Hash(id) + HASH_MULTIPLIER - WORD
  {
    assert (id + 1) * HASH_MULTIPLIER == id * HASH_MULTIPLIER + HASH_MULTIPLIER;
  }
}
