/** The striped map under the session table, as one plain map (internal/session/session.go). */
module Sharding {
  import opened Basics
  import Bits
  import Fnv

  type Name = seq<bv8>
  datatype Key = Key(addr: Addr, port: Port, frontend: Name)

  const NUM_SHARDS: nat := 256

  function KeyBytes(k: Key): seq<bv8> {
    k.addr.as16 + [(k.port / 256) as bv8, (k.port % 256) as bv8] + k.frontend
  }

  /** The remainder of a hash by the number of stripes, which is its low byte. */
  function Stripe(h: bv32): (i: nat)
    ensures i < NUM_SHARDS && i == Fnv.LowByte(h) as nat
  {
    (h % 256) as nat
  }

  /** The stripe of a key: FNV-1a over address, port and frontend name. */
  function ShardFor(k: Key): (i: nat)
    ensures i < NUM_SHARDS
  {
    Stripe(Fnv.Hash(KeyBytes(k)))
  }

  /** The three loops of the source hash the pieces one after the other. */
  method ComputeShard(k: Key) returns (i: nat)
    ensures i == ShardFor(k)
  {
    var port: seq<bv8> := [(k.port / 256) as bv8, (k.port % 256) as bv8];
    var h := Fnv.Continue(Fnv.OFFSET32, k.addr.as16);
    h := Fnv.Continue(h, port);
    h := Fnv.Continue(h, k.frontend);
    Fnv.FromConcat(Fnv.OFFSET32, k.addr.as16, port);
    Fnv.FromConcat(Fnv.OFFSET32, k.addr.as16 + port, k.frontend);
    i := Stripe(h);
  }

  /** Two keys that differ in a single byte of address, port or frontend name. */
  ghost predicate OneByteApart(k: Key, l: Key) {
    || (k.port == l.port && k.frontend == l.frontend && exists i: nat :: Fnv.DifferAt(k.addr.as16, l.addr.as16, i))
    || (k.port == l.port && k.addr.as16 == l.addr.as16 && exists i: nat :: Fnv.DifferAt(k.frontend, l.frontend, i))
    || (k.addr.as16 == l.addr.as16 && k.frontend == l.frontend
        && (k.port / 256 != l.port / 256) != (k.port % 256 != l.port % 256))
  }

  lemma PortBytesDiffer(k: Key, l: Key)
    ensures k.port / 256 != l.port / 256 ==> KeyBytes(k)[16] != KeyBytes(l)[16]
    ensures k.port % 256 != l.port % 256 ==> KeyBytes(k)[17] != KeyBytes(l)[17]
  {
    Bits.ByteIsKept(k.port / 256);
    Bits.ByteIsKept(l.port / 256);
    Bits.ByteIsKept(k.port % 256);
    Bits.ByteIsKept(l.port % 256);
  }

  lemma KeyBytesDiffer(k: Key, l: Key) returns (i: nat)
    requires OneByteApart(k, l)
    ensures Fnv.DifferAt(KeyBytes(k), KeyBytes(l), i)
  {
    if j: nat :| Fnv.DifferAt(k.addr.as16, l.addr.as16, j) && k.port == l.port && k.frontend == l.frontend {
      i := j;
    } else if j: nat :| Fnv.DifferAt(k.frontend, l.frontend, j) && k.port == l.port && k.addr.as16 == l.addr.as16 {
      i := 18 + j;
    } else {
      i := if k.port / 256 != l.port / 256 then 16 else 17;
      PortBytesDiffer(k, l);
    }
  }

  /** Such keys live in different stripes: every byte of a key has its say. */
  lemma StripesApart(k: Key, l: Key)
    requires OneByteApart(k, l)
    ensures ShardFor(k) != ShardFor(l)
  {
    var i := KeyBytesDiffer(k, l);
    Fnv.OneByteShows(KeyBytes(k), KeyBytes(l), i);
    Bits.SameNumber(Fnv.LowByte(Fnv.Hash(KeyBytes(k))), Fnv.LowByte(Fnv.Hash(KeyBytes(l))));
  }

  /** Where a key belongs. Everything below holds for any choice of stripes; the source's is ShardFor. */
  type Home = h: Key -> nat | forall k :: h(k) < NUM_SHARDS witness (_ => 0)

  type Shards<V> = s: seq<map<Key, V>> | |s| == NUM_SHARDS witness seq(NUM_SHARDS, _ => map[])

  function Empty<V>(): Shards<V> {
    seq(NUM_SHARDS, _ => map[])
  }

  /** Every key lives in its own stripe only. */
  ghost predicate Homed<V>(home: Home, shards: Shards<V>) {
    forall i, k {:trigger k in shards[i]} | 0 <= i < NUM_SHARDS && k in shards[i] :: home(k) == i
  }

  ghost function Keys<V>(shards: seq<map<Key, V>>): set<Key> {
    set i, k | 0 <= i < |shards| && k in shards[i] :: k
  }

  /** The plain map that the stripes stand for. */
  ghost function Flat<V>(home: Home, shards: Shards<V>): map<Key, V> {
    map k | k in Keys(shards) && k in shards[home(k)] :: shards[home(k)][k]
  }

  lemma Lookup<V>(home: Home, shards: Shards<V>, k: Key)
    ensures k in Flat(home, shards) <==> k in shards[home(k)]
    ensures k in Flat(home, shards) ==> Flat(home, shards)[k] == shards[home(k)][k]
  {
  }

  lemma SamePlainMap<V>(home: Home, shards: Shards<V>, m: map<Key, V>)
    requires forall k :: k in m <==> k in shards[home(k)]
    requires forall k | k in m :: m[k] == shards[home(k)][k]
    ensures Flat(home, shards) == m
  {
  }

  function Put<V>(home: Home, shards: Shards<V>, k: Key, v: V): Shards<V> {
    shards[home(k) := shards[home(k)][k := v]]
  }

  function Drop<V>(home: Home, shards: Shards<V>, k: Key): Shards<V> {
    shards[home(k) := shards[home(k)] - {k}]
  }

  lemma PutIsPut<V>(home: Home, shards: Shards<V>, k: Key, v: V)
    requires Homed(home, shards)
    ensures Homed(home, Put(home, shards, k, v)) && Flat(home, Put(home, shards, k, v)) == Flat(home, shards)[k := v]
  {
    SamePlainMap(home, Put(home, shards, k, v), Flat(home, shards)[k := v]);
  }

  lemma DropIsDrop<V>(home: Home, shards: Shards<V>, k: Key)
    requires Homed(home, shards)
    ensures Homed(home, Drop(home, shards, k)) && Flat(home, Drop(home, shards, k)) == Flat(home, shards) - {k}
  {
    SamePlainMap(home, Drop(home, shards, k), Flat(home, shards) - {k});
  }

  lemma SizeAfterPut<V>(m: map<Key, V>, k: Key, v: V)
    ensures |m[k := v]| == |m| + if k in m then 0 else 1
  {
  }

  lemma SizeAfterDrop<V>(m: map<Key, V>, k: Key)
    ensures |m - {k}| == |m| - if k in m then 1 else 0
  {
  }

  lemma EmptyIsEmpty<V>(home: Home)
    ensures Homed(home, Empty<V>()) && Flat(home, Empty<V>()) == map[]
  {
  }

  /** The sizes of all stripes together. */
  ghost function Size<V>(shards: seq<map<Key, V>>): int {
    Sum(shards, (m: map<Key, V>) => |m|)
  }

  lemma KeysStep<V>(shards: seq<map<Key, V>>, m: map<Key, V>)
    ensures Keys(shards + [m]) == Keys(shards) + m.Keys
  {
    var all := shards + [m];
    assert all[|shards|] == m;
    forall k | k in Keys(shards)
      ensures k in Keys(all)
    {
      var i :| 0 <= i < |shards| && k in shards[i];
      assert all[i] == shards[i];
    }
  }

  lemma SizeStep<V>(shards: seq<map<Key, V>>, m: map<Key, V>)
    requires Size(shards) == |Keys(shards)| && Keys(shards) !! m.Keys
    ensures Size(shards + [m]) == |Keys(shards + [m])|
  {
    KeysStep(shards, m);
    SumAppend(shards, m, (m: map<Key, V>) => |m|);
    assert |Keys(shards) + m.Keys| == |Keys(shards)| + |m.Keys|;
  }

  lemma {:induction false} SizeOfPrefix<V>(home: Home, shards: Shards<V>, i: nat)
    requires Homed(home, shards) && i <= NUM_SHARDS
    ensures Size(shards[..i]) == |Keys(shards[..i])|
  {
    if i == 0 {
      assert Keys(shards[..0]) == {};
    } else {
      SizeOfPrefix(home, shards, i - 1);
      assert shards[..i] == shards[..i - 1] + [shards[i - 1]];
      var earlier := shards[..i - 1];
      forall k | k in Keys(earlier)
        ensures home(k) < i - 1
      {
        var j :| 0 <= j < i - 1 && k in earlier[j];
        assert k in shards[j];
      }
      SizeStep(shards[..i - 1], shards[i - 1]);
    }
  }

  /** The stripes are disjoint: their sizes add up to the size of the plain map. */
  lemma SizeIsCount<V>(home: Home, shards: Shards<V>)
    requires Homed(home, shards)
    ensures Size(shards) == |Flat(home, shards)|
  {
    SizeOfPrefix(home, shards, NUM_SHARDS);
    assert shards[..NUM_SHARDS] == shards;
    assert Flat(home, shards).Keys == Keys(shards);
  }
}
