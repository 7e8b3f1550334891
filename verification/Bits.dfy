/** Facts about bit patterns as numbers. */
module Bits {
  lemma ByteIsKept(x: nat)
    requires x < 256
    ensures (x as bv8) as nat == x
  {
  }

  lemma SameNumber(x: bv8, y: bv8)
    ensures x as int == y as int <==> x == y
  {
  }

  lemma LowSixBits(x: bv8)
    ensures (x as int) % 64 == (x & 0x3F) as int
  {
  }

  lemma WordIsKept(h: bv32)
    ensures (h as int) as bv32 == h
  {
  }

  lemma LowBitOfEven(q: int)
    requires 0 <= q < 0x8000_0000
    ensures ((2 * q) as bv32) & 1 == 0
  {
  }

  lemma LowBitOfOdd(q: int)
    requires 0 <= q < 0x8000_0000
    ensures ((2 * q + 1) as bv32) & 1 == 1
  {
  }

  lemma LowBitOf(n: int, h: bv32)
    requires 0 <= n < 0x1_0000_0000 && n as bv32 == h
    ensures n % 2 == if h & 1 == 0 then 0 else 1
  {
    var q := n / 2;
    if n == 2 * q {
      LowBitOfEven(q);
    } else {
      LowBitOfOdd(q);
    }
  }

  /** The lowest bit of a word tells whether it is odd. */
  lemma LowBitIsParity(h: bv32)
    ensures (h as int) % 2 == if h & 1 == 0 then 0 else 1
  {
    WordIsKept(h);
    LowBitOf(h as int, h);
  }
}
