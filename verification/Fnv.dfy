/** The inline FNV-1a hash used for hash balancing and for the session shards. */
module Fnv {
  import Bits

  const OFFSET32: bv32 := 2166136261
  const PRIME32: bv32 := 16777619

  function Mix(h: bv32, b: bv8): bv32 {
    (h ^ (b as bv32)) * PRIME32
  }

  function From(h: bv32, bytes: seq<bv8>): bv32 {
    if bytes == [] then h else Mix(From(h, bytes[..|bytes| - 1]), bytes[|bytes| - 1])
  }

  function Hash(bytes: seq<bv8>): bv32 {
    From(OFFSET32, bytes)
  }

  /** Hashing piece by piece is hashing the concatenation. */
  lemma {:induction false} FromConcat(h: bv32, a: seq<bv8>, b: seq<bv8>)
    ensures From(From(h, a), b) == From(h, a + b)
  {
    if b == [] {
      assert a + b == a;
    } else {
      FromConcat(h, a, b[..|b| - 1]);
      assert (a + b)[..|a + b| - 1] == a + b[..|b| - 1];
    }
  }

  /** The loop over one piece, continuing from accumulator h. */
  method Continue(h: bv32, bytes: seq<bv8>) returns (r: bv32)
    ensures r == From(h, bytes)
  {
    r := h;
    for i := 0 to |bytes|
      invariant r == From(h, bytes[..i])
    {
      r := Mix(r, bytes[i]);
      assert bytes[..i + 1][..i] == bytes[..i];
    }
    assert bytes[..|bytes|] == bytes;
  }

  // ----- what the hash is -----

  lemma HashNext(s: seq<bv8>, i: nat)
    requires i < |s|
    ensures Hash(s[..i + 1]) == Mix(Hash(s[..i]), s[i])
  {
    assert s[..i + 1][..i] == s[..i];
  }

  /** The published values for the empty string, "a" and "foobar": they fix offset, prime and order. */
  lemma PublishedValues()
    ensures Hash([]) == 0x811C9DC5 && Hash([0x61]) == 0xE40C292C
    ensures Hash([0x66, 0x6F, 0x6F, 0x62, 0x61, 0x72]) == 0xBF9CF968
  {
    var s: seq<bv8> := [0x66, 0x6F, 0x6F, 0x62, 0x61, 0x72];
    assert Hash(s[..0]) == 0x811C9DC5;
    assert Hash(s[..1]) == 0xE30C2799 by { HashNext(s, 0); }
    assert Hash(s[..2]) == 0x6222E842 by { HashNext(s, 1); }
    assert Hash(s[..3]) == 0xA9F37ED7 by { HashNext(s, 2); }
    assert Hash(s[..4]) == 0x3F5076EF by { HashNext(s, 3); }
    assert Hash(s[..5]) == 0x39AAA18A by { HashNext(s, 4); }
    assert Hash(s[..6]) == 0xBF9CF968 by { HashNext(s, 5); }
    assert s[..6] == s;
  }

  /** All bytes of a string, combined bit by bit. */
  function XorOf(bytes: seq<bv8>): bv8 {
    if bytes == [] then 0 else XorOf(bytes[..|bytes| - 1]) ^ bytes[|bytes| - 1]
  }

  /** The lowest bit of the hash is 1 xor the lowest bits of all bytes. */
  lemma {:induction false} LowestBit(bytes: seq<bv8>)
    ensures Hash(bytes) & 1 == 1 ^ ((XorOf(bytes) & 1) as bv32)
  {
    if bytes != [] {
      LowestBit(bytes[..|bytes| - 1]);
    }
  }

  function LowByte(h: bv32): bv8 {
    (h & 0xFF) as bv8
  }

  /** A step on the low byte alone. */
  function LowMix(l: bv8, b: bv8): bv8 {
    (l ^ b) * 0x93
  }

  lemma LowByteOfMix(h: bv32, b: bv8)
    ensures LowByte(Mix(h, b)) == LowMix(LowByte(h), b)
  {
    assert LowByte((h ^ (b as bv32)) * 16777619) == (LowByte(h) ^ b) * 0x93;
  }

  /** It multiplies by an odd number, so nothing is lost. */
  lemma LowMixApart(x: bv8, y: bv8, a: bv8, b: bv8)
    requires (x == y) != (a == b)
    ensures LowMix(x, a) != LowMix(y, b)
  {
    assert x ^ a != y ^ b;
    assert (x ^ a) * 0x93 * 0x9B == x ^ a && (y ^ b) * 0x93 * 0x9B == y ^ b;
  }

  /** Two strings of equal length that differ in element i alone. */
  ghost predicate DifferAt<T>(a: seq<T>, b: seq<T>, i: nat) {
    |a| == |b| && i < |a| && a[i] != b[i] && forall j | 0 <= j < |a| && j != i :: a[j] == b[j]
  }

  ghost function Fold<S, T>(step: (S, T) -> S, s: S, elements: seq<T>): S {
    if elements == [] then s else step(Fold(step, s, elements[..|elements| - 1]), elements[|elements| - 1])
  }

  /** A step that tells apart what differs in one argument only keeps strings that differ in one element apart. */
  lemma {:induction false} FoldApart<S(!new), T(!new)>(step: (S, T) -> S, s: S, a: seq<T>, b: seq<T>, i: nat)
    requires DifferAt(a, b, i)
    requires forall x, y, c, d | (x == y) != (c == d) :: step(x, c) != step(y, d)
    ensures Fold(step, s, a) != Fold(step, s, b)
  {
    var n := |a| - 1;
    if i == n {
      assert a[..n] == b[..n];
    } else {
      FoldApart(step, s, a[..n], b[..n], i);
    }
  }

  /** What each step keeps to, the whole fold keeps to. */
  lemma {:induction false} FoldFollows<S(!new), R(!new), T(!new)>(
      step: (S, T) -> S, view: S -> R, small: (R, T) -> R, s: S, elements: seq<T>)
    requires forall x, c :: view(step(x, c)) == small(view(x), c)
    ensures view(Fold(step, s, elements)) == Fold(small, view(s), elements)
  {
    if elements != [] {
      FoldFollows(step, view, small, s, elements[..|elements| - 1]);
    }
  }

  lemma {:induction false} FromIsFold(h: bv32, bytes: seq<bv8>)
    ensures From(h, bytes) == Fold(Mix, h, bytes)
  {
    if bytes != [] {
      FromIsFold(h, bytes[..|bytes| - 1]);
    }
  }

  lemma LowByteOfHash(bytes: seq<bv8>)
    ensures LowByte(Hash(bytes)) == Fold(LowMix, LowByte(OFFSET32), bytes)
  {
    forall h, b
      ensures LowByte(Mix(h, b)) == LowMix(LowByte(h), b)
    {
      LowByteOfMix(h, b);
    }
    FoldFollows(Mix, LowByte, LowMix, OFFSET32, bytes);
    FromIsFold(OFFSET32, bytes);
  }

  /** Strings that differ in one byte differ in the low byte of their hashes. */
  lemma OneByteShows(a: seq<bv8>, b: seq<bv8>, i: nat)
    requires DifferAt(a, b, i)
    ensures LowByte(Hash(a)) != LowByte(Hash(b))
  {
    LowByteOfHash(a);
    LowByteOfHash(b);
    forall x, y, c, d | (x == y) != (c == d)
      ensures LowMix(x, c) != LowMix(y, d)
    {
      LowMixApart(x, y, c, d);
    }
    FoldApart(LowMix, LowByte(OFFSET32), a, b, i);
  }

  // ----- as a number -----

  /** As a number the hash is odd exactly when the bytes have an even number of lowest bits set. */
  lemma HashParity(bytes: seq<bv8>)
    ensures (Hash(bytes) as int) % 2 == if XorOf(bytes) & 1 == 0 then 1 else 0
  {
    LowestBit(bytes);
    Bits.LowBitIsParity(Hash(bytes));
  }
}
