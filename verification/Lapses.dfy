/** What the per-client limiter remembers: every answer of every run, told from the calls alone
    (internal/shaping/shaping.go). */
module Lapses {
  import opened Basics
  import opened Shaping
  import opened ClientLimiting
  import opened Sweeping
  import F = Forgetting

  ghost function Ticks(calls: seq<ClientCall>): (ticks: seq<Tick>)
    ensures |ticks| == |calls|
    ensures forall i | 0 <= i < |calls| :: ticks[i] == Tick(calls[i].addr, calls[i].now)
  {
    seq(|calls|, i requires 0 <= i < |calls| => Tick(calls[i].addr, calls[i].now))
  }

  /** The calls an address has made, of the first j, since it was last forgotten. */
  ghost function SinceForgotten(c: Config, calls: seq<ClientCall>, j: nat, a: Addr): seq<Call>
    requires j <= |calls|
  {
    F.Mine(calls[Anew(c.ttl, Ticks(calls), j, a)..j], a)
  }

  lemma MineNext(calls: seq<ClientCall>, m: nat, j: nat, a: Addr)
    requires m <= j < |calls|
    ensures F.Mine(calls[m..j + 1], a)
         == F.Mine(calls[m..j], a) + if calls[j].addr == a then [Call(calls[j].n, calls[j].now)] else []
  {
    assert calls[m..j + 1][..j - m] == calls[m..j];
  }

  lemma SinceNext(c: Config, calls: seq<ClientCall>, j: nat, a: Addr)
    requires j < |calls|
    ensures SinceForgotten(c, calls, j + 1, a) ==
      if Forgets(c.ttl, Ticks(calls), j, a) then []
      else if calls[j].addr == a then SinceForgotten(c, calls, j, a) + [Call(calls[j].n, calls[j].now)]
      else SinceForgotten(c, calls, j, a)
  {
    if Forgets(c.ttl, Ticks(calls), j, a) {
      assert calls[j + 1..j + 1] == [];
    } else {
      MineNext(calls, Anew(c.ttl, Ticks(calls), j, a), j, a);
    }
  }

  /** What a stripe holds for an address: the bucket that the calls s leave, seen at the last of them, or
      nothing if there are none. */
  ghost predicate Keeps(l: Limits, sh: Shard, a: Addr, s: seq<Call>, last: Option<int>) {
    if a in sh.entries then
      s != [] && sh.entries[a].bucket == F.BucketOf(l, s, 0) && last == Some(sh.entries[a].lastSeen)
    else s == []
  }

  lemma LimitKeepsCaller(c: Config, sh: Shard, a: Addr, s: seq<Call>, last: Option<int>, x: Call)
    requires c.ttl > 0 && Keeps(c.limits, sh, a, s, last)
    ensures var (after, ok) := LimitedShard(c, sh, a, x.n, x.now);
      Keeps(c.limits, after, a, s + [x], Some(Unix(x.now))) && ok == F.Judges(c.limits, s + [x])
  {
    F.BucketNext(c.limits, s, x);
  }

  lemma LimitKeepsOthers(c: Config, sh: Shard, a: Addr, s: seq<Call>, last: Option<int>, x: ClientCall)
    requires x.addr != a && Keeps(c.limits, sh, a, s, last)
    ensures var swept := Unix(x.now) - sh.lastSweep >= c.ttl / SECOND;
      var forgets := swept && last.Some? && last.value < Unix(x.now - c.ttl);
      Keeps(c.limits, LimitedShard(c, sh, x.addr, x.n, x.now).0, a, if forgets then [] else s, last)
  {
  }

  lemma LimitSweeps(c: Config, sh: Shard, x: ClientCall)
    ensures LimitedShard(c, sh, x.addr, x.n, x.now).0.lastSweep
         == if Unix(x.now) - sh.lastSweep >= c.ttl / SECOND then Unix(x.now) else sh.lastSweep
  {
  }

  /** After j calls the stripe of an address was swept when it should have been, and keeps what the calls
      since the address was last forgotten leave. */
  ghost predicate Current(c: Config, calls: seq<ClientCall>, j: nat, a: Addr, sh: Shard)
    requires j <= |calls|
  {
    && sh.lastSweep == LastSweep(c.ttl, Ticks(calls), j, ClientShard(a))
    && Keeps(c.limits, sh, a, SinceForgotten(c, calls, j, a), LastCall(Ticks(calls), j, a))
  }

  lemma CallerStaysCurrent(c: Config, calls: seq<ClientCall>, j: nat, sh: Shard)
    requires c.ttl > 0 && j < |calls| && Current(c, calls, j, calls[j].addr, sh)
    ensures var x := calls[j];
      var (after, ok) := LimitedShard(c, sh, x.addr, x.n, x.now);
      && Current(c, calls, j + 1, x.addr, after)
      && ok == F.Judges(c.limits, SinceForgotten(c, calls, j, x.addr) + [Call(x.n, x.now)])
  {
    var x := calls[j];
    SinceNext(c, calls, j, x.addr);
    LimitKeepsCaller(c, sh, x.addr, SinceForgotten(c, calls, j, x.addr), LastCall(Ticks(calls), j, x.addr),
                     Call(x.n, x.now));
    LimitSweeps(c, sh, x);
  }

  lemma OthersStayCurrent(c: Config, calls: seq<ClientCall>, j: nat, a: Addr, sh: Shard)
    requires j < |calls| && calls[j].addr != a && Current(c, calls, j, a, sh)
    ensures var x := calls[j];
      var after := LimitedShard(c, sh, x.addr, x.n, x.now).0;
      Current(c, calls, j + 1, a, if ClientShard(x.addr) == ClientShard(a) then after else sh)
  {
    SinceNext(c, calls, j, a);
    LimitKeepsOthers(c, sh, a, SinceForgotten(c, calls, j, a), LastCall(Ticks(calls), j, a), calls[j]);
    LimitSweeps(c, sh, calls[j]);
  }

  lemma ShardAfterNext(c: Config, calls: seq<ClientCall>, j: nat, i: nat)
    requires j < |calls| && i < CLIENT_SHARDS
    ensures var x, sh := calls[j], CacheAfter(c, calls[..j])[i];
      && CacheAfter(c, calls[..j + 1])[i]
           == (if i == ClientShard(x.addr) then LimitedShard(c, sh, x.addr, x.n, x.now).0 else sh)
      && (i == ClientShard(x.addr) ==>
            CacheSays(c, calls[..j + 1]) == LimitedShard(c, sh, x.addr, x.n, x.now).1)
  {
    assert calls[..j + 1][..j] == calls[..j];
  }

  lemma {:induction false} StaysCurrent(c: Config, calls: seq<ClientCall>, j: nat, a: Addr)
    requires c.ttl > 0 && j <= |calls|
    ensures Current(c, calls, j, a, CacheAfter(c, calls[..j])[ClientShard(a)])
  {
    if j == 0 {
      assert calls[..0] == [] && calls[0..0] == [];
    } else {
      var sh := CacheAfter(c, calls[..j - 1])[ClientShard(a)];
      StaysCurrent(c, calls, j - 1, a);
      ShardAfterNext(c, calls, j - 1, ClientShard(a));
      if calls[j - 1].addr == a {
        CallerStaysCurrent(c, calls, j - 1, sh);
      } else {
        OthersStayCurrent(c, calls, j - 1, a, sh);
      }
    }
  }

  /** Every answer of every run, whatever the clock does: it is that of a bucket full at the client's first
      call since it was last forgotten, which has judged the client's calls since; and a client is
      forgotten by a sweep of its stripe, when it has not called since the cutoff, and by nothing else. */
  lemma AnswersSinceForgotten(c: Config, calls: seq<ClientCall>, j: nat)
    requires c.ttl > 0 && j < |calls|
    ensures CacheSays(c, calls[..j + 1])
         == F.Judges(c.limits, SinceForgotten(c, calls, j, calls[j].addr) + [Call(calls[j].n, calls[j].now)])
  {
    var i := ClientShard(calls[j].addr);
    StaysCurrent(c, calls, j, calls[j].addr);
    ShardAfterNext(c, calls, j, i);
    CallerStaysCurrent(c, calls, j, CacheAfter(c, calls[..j])[i]);
  }
}
