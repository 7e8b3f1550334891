/** Types and finite sums shared by the models. */
module Basics {
  import Bits

  datatype Option<+T> = None | Some(value: T)

  /** Time is a count of nanoseconds since the Unix epoch. */
  const SECOND: int := 1_000_000_000

  /** Whole seconds since the epoch, rounded towards minus infinity as Go's Time.Unix does. */
  function Unix(t: int): int {
    t / SECOND
  }

  /** A duration in whole seconds, rounded up; the source's own comparisons round down. */
  function CeilSeconds(d: int): int {
    (d + SECOND - 1) / SECOND
  }

  /** The longest a lazily swept table keeps something untouched: it sweeps when the last sweep is a
      rounded-down time-to-live old, and then drops what is older than the time-to-live. */
  function Oldest(ttl: int, now: int): int {
    Unix(now) - CeilSeconds(ttl) - Max(ttl / SECOND, 1) + 1
  }

  /** A client address: its 16-byte form and the family/zone that keeps equal byte forms apart. */
  datatype AddrValue = AddrValue(as16: seq<bv8>, zone: string)
  type Addr = a: AddrValue | |a.as16| == 16 witness AddrValue(seq(16, _ => 0), "")

  type Port = p: int | 0 <= p < 0x1_0000

  const CLIENT_SHARDS: nat := 64

  /** The stripe of a per-client table that holds an address. */
  function ClientShard(a: Addr): nat {
    ((a.as16[14] ^ a.as16[15]) as int) % CLIENT_SHARDS
  }

  /** Two addresses share a stripe if and only if the low six bits of their last two bytes agree, the two
      bytes combined. */
  lemma ShareStripeIff(a: Addr, b: Addr)
    ensures ClientShard(a) == ClientShard(b)
       <==> (a.as16[14] ^ a.as16[15]) & 0x3F == (b.as16[14] ^ b.as16[15]) & 0x3F
  {
    var x, y := a.as16[14] ^ a.as16[15], b.as16[14] ^ b.as16[15];
    Bits.LowSixBits(x);
    Bits.LowSixBits(y);
    Bits.SameNumber(x & 0x3F, y & 0x3F);
  }

  /** A second is a thousand million nanoseconds, before the epoch as after it. */
  lemma UnixIff(t: int, sec: int)
    ensures Unix(t) == sec <==> sec * 1_000_000_000 <= t < (sec + 1) * 1_000_000_000
  {
  }

  function Max(a: int, b: int): int {
    if a < b then b else a
  }

  function MinReal(a: real, b: real): real {
    if a <= b then a else b
  }

  lemma {:induction false} SubsetSize<T>(a: set<T>, b: set<T>)
    requires a <= b
    ensures |a| <= |b|
  {
    if a != {} {
      var x :| x in a;
      SubsetSize(a - {x}, b - {x});
    }
  }

  /** The sum of f over s; every counting invariant of the step models is one of these. */
  ghost function Sum<T>(s: seq<T>, f: T -> int): int {
    if s == [] then 0 else Sum(s[..|s| - 1], f) + f(s[|s| - 1])
  }

  lemma SumAppend<T>(s: seq<T>, x: T, f: T -> int)
    ensures Sum(s + [x], f) == Sum(s, f) + f(x)
  {
  }

  lemma {:induction false} SumUpdate<T>(s: seq<T>, i: nat, x: T, f: T -> int)
    requires i < |s|
    ensures Sum(s[i := x], f) == Sum(s, f) - f(s[i]) + f(x)
  {
    var n := |s| - 1;
    if i == n {
      assert s[i := x][..n] == s[..n];
    } else {
      SumUpdate(s[..n], i, x, f);
      assert s[i := x][..n] == s[..n][i := x];
    }
  }

  lemma {:induction false} SumTail<T>(s: seq<T>, f: T -> int)
    requires s != []
    ensures Sum(s, f) == f(s[0]) + Sum(s[1..], f)
  {
    var n := |s| - 1;
    if n > 0 {
      SumTail(s[..n], f);
      assert s[1..][..n - 1] == s[..n][1..];
    }
  }

  lemma {:induction false} SumBounds<T>(s: seq<T>, f: T -> int, lo: int, hi: int)
    requires forall x | x in s :: lo <= f(x) <= hi
    ensures lo * |s| <= Sum(s, f) <= hi * |s|
  {
    if s != [] {
      SumBounds(s[..|s| - 1], f, lo, hi);
    }
  }

  lemma {:induction false} SumIsZero<T>(s: seq<T>, f: T -> int)
    requires forall i | 0 <= i < |s| :: f(s[i]) == 0
    ensures Sum(s, f) == 0
  {
    if s != [] {
      SumIsZero(s[..|s| - 1], f);
    }
  }

  lemma {:induction false} SumAtLeast<T>(s: seq<T>, f: T -> int, i: nat)
    requires i < |s| && forall x :: f(x) >= 0
    ensures Sum(s, f) >= f(s[i])
  {
    var n := |s| - 1;
    SumIsPositive(s[..n], f);
    if i < n {
      SumAtLeast(s[..n], f, i);
    }
  }

  lemma {:induction false} SumAtLeastTwo<T>(s: seq<T>, f: T -> int, i: nat, j: nat)
    requires i < j < |s| && forall x :: f(x) >= 0
    ensures Sum(s, f) >= f(s[i]) + f(s[j])
  {
    var n := |s| - 1;
    if j < n {
      SumAtLeastTwo(s[..n], f, i, j);
    } else {
      SumAtLeast(s[..n], f, i);
    }
  }

  lemma {:induction false} SumIsPositive<T>(s: seq<T>, f: T -> int)
    requires forall x :: f(x) >= 0
    ensures Sum(s, f) >= 0
  {
    if s != [] {
      SumIsPositive(s[..|s| - 1], f);
    }
  }
}
