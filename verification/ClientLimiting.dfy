/** The per-client limiter and its forgetting cache of buckets (internal/shaping/shaping.go). */
module ClientLimiting {
  import opened Basics
  import opened Shaping

  datatype Entry = Entry(bucket: Tokens, lastSeen: int)
  datatype Shard = Shard(entries: map<Addr, Entry>, lastSweep: int)

  /** The limits and time-to-live of a limiter, as NewClientLimiter leaves them. */
  datatype Config = Config(limits: Limits, ttl: int)

  ghost predicate ValidConfig(c: Config) {
    Normal(c.limits) && c.ttl > 0
  }

  // ----- one call -----

  function Kept(entries: map<Addr, Entry>, cutoff: int): map<Addr, Entry> {
    map a | a in entries && entries[a].lastSeen >= cutoff :: entries[a]
  }

  function Swept(c: Config, sh: Shard, now: int): Shard {
    if Unix(now) - sh.lastSweep >= c.ttl / SECOND
    then Shard(Kept(sh.entries, Unix(now - c.ttl)), Unix(now))
    else sh
  }

  /** The bucket a call by address a judges: the cached one, or a full one created now. */
  function Found(c: Config, entries: map<Addr, Entry>, a: Addr, now: int): Tokens {
    if a in entries then entries[a].bucket else Fresh(c.limits, now)
  }

  function Touched(c: Config, sh: Shard, a: Addr, now: int): Shard {
    sh.(entries := sh.entries[a := Entry(Found(c, sh.entries, a, now), Unix(now))])
  }

  lemma TouchedSurvives(c: Config, sh: Shard, a: Addr, now: int)
    requires ValidConfig(c)
    ensures a in Swept(c, Touched(c, sh, a, now), now).entries
  {
  }

  function LimitedShard(c: Config, sh: Shard, a: Addr, n: int, now: int): (Shard, bool) {
    var swept := Swept(c, Touched(c, sh, a, now), now);
    var (b, ok) := AllowStep(c.limits, Found(c, sh.entries, a, now), n, now);
    (swept.(entries := swept.entries[a := Entry(b, Unix(now))]), ok)
  }

  type Shards = s: seq<Shard> | |s| == CLIENT_SHARDS witness seq(CLIENT_SHARDS, _ => Shard(map[], 0))

  function Limited(c: Config, shards: Shards, a: Addr, n: int, now: int): (Shards, bool) {
    var (sh, ok) := LimitedShard(c, shards[ClientShard(a)], a, n, now);
    (shards[ClientShard(a) := sh], ok)
  }

  class ClientLimiter {
    const config: Config
    var shards: Shards

    constructor (l: Limits, ttl: int)
      ensures config == Config(Normalize(l), if ttl <= 0 then 120 * SECOND else ttl)
      ensures shards == Empty() && ValidConfig(config)
    {
      config := Config(Normalize(l), if ttl <= 0 then 120 * SECOND else ttl);
      shards := Empty();
    }

    method Allow(a: Addr, n: int, now: int) returns (ok: bool)
      requires ValidConfig(config)
      modifies this
      ensures (shards, ok) == Limited(config, old(shards), a, n, now)
    {
      var idx := ClientShard(a);
      var sh := shards[idx];
      if a !in sh.entries {
        sh := sh.(entries := sh.entries[a := Entry(Fresh(config.limits, now), Unix(now))]);
      }
      sh := sh.(entries := sh.entries[a := sh.entries[a].(lastSeen := Unix(now))]);
      ghost var touched := sh;
      assert touched == Touched(config, old(shards)[idx], a, now);
      if Unix(now) - sh.lastSweep >= config.ttl / SECOND {
        var cutoff := Unix(now - config.ttl);
        var entries := sh.entries;
        var todo := entries.Keys;
        while todo != {}
          invariant todo <= entries.Keys <= touched.entries.Keys
          invariant forall x | x in entries :: entries[x] == touched.entries[x]
          invariant forall x | x in touched.entries && x !in todo ::
            x in entries <==> touched.entries[x].lastSeen >= cutoff
          decreases todo
        {
          var x :| x in todo;
          if entries[x].lastSeen < cutoff {
            entries := entries - {x};
          }
          todo := todo - {x};
        }
        assert entries == Kept(touched.entries, cutoff);
        sh := Shard(entries, Unix(now));
      }
      TouchedSurvives(config, old(shards)[idx], a, now);
      var (b, admitted) := AllowStep(config.limits, sh.entries[a].bucket, n, now);
      sh := sh.(entries := sh.entries[a := sh.entries[a].(bucket := b)]);
      shards := shards[idx := sh];
      ok := admitted;
    }
  }

  /** No limiter exactly when the limits enable nothing; the packet path then admits every client. */
  method NewClientLimiter(l: Limits, ttl: int) returns (cl: ClientLimiter?)
    ensures cl == null <==> l.packetsPerSecond <= 0 && l.bytesPerSecond <= 0 && !l.enabled
    ensures cl != null ==> fresh(cl) && ValidConfig(cl.config) && cl.shards == Empty()
    ensures cl != null ==> cl.config == Config(Normalize(l), if ttl <= 0 then 120 * SECOND else ttl)
  {
    cl := null;
    if Normalize(l).enabled {
      cl := new ClientLimiter(l, ttl);
    }
  }

  function Empty(): Shards {
    seq(CLIENT_SHARDS, _ => Shard(map[], 0))
  }

  // ----- whole runs, against a limiter that never forgets -----

  datatype ClientCall = ClientCall(addr: Addr, n: nat, now: int)

  ghost predicate Ordered(calls: seq<ClientCall>) {
    forall i, j | 0 <= i < j < |calls| :: calls[i].now <= calls[j].now
  }

  ghost function CacheAfter(c: Config, calls: seq<ClientCall>): Shards {
    if calls == [] then Empty()
    else
      var x := calls[|calls| - 1];
      Limited(c, CacheAfter(c, calls[..|calls| - 1]), x.addr, x.n, x.now).0
  }

  /** The answer of the sharded, sweeping limiter to the last call. */
  ghost predicate CacheSays(c: Config, calls: seq<ClientCall>)
    requires calls != []
  {
    var x := calls[|calls| - 1];
    Limited(c, CacheAfter(c, calls[..|calls| - 1]), x.addr, x.n, x.now).1
  }

  ghost function Remembered(c: Config, m: map<Addr, Tokens>, a: Addr, now: int): Tokens {
    if a in m then m[a] else Fresh(c.limits, now)
  }

  /** One unsharded map of buckets, never swept. */
  ghost function MemoryAfter(c: Config, calls: seq<ClientCall>): map<Addr, Tokens> {
    if calls == [] then map[]
    else
      var x := calls[|calls| - 1];
      var m := MemoryAfter(c, calls[..|calls| - 1]);
      m[x.addr := AllowStep(c.limits, Remembered(c, m, x.addr, x.now), x.n, x.now).0]
  }

  ghost predicate MemorySays(c: Config, calls: seq<ClientCall>)
    requires calls != []
  {
    var x := calls[|calls| - 1];
    AllowStep(c.limits, Remembered(c, MemoryAfter(c, calls[..|calls| - 1]), x.addr, x.now), x.n, x.now).1
  }

  /** Eviction needs an idle time of more than ttl, so of at least ttl + 1 ns: the burst must refill
      in that time in every enabled dimension. */
  ghost predicate PacketsRefill(c: Config) {
    c.limits.packetsPerSecond > 0 ==>
      c.limits.burstPackets as real <= Gain(c.limits.packetsPerSecond, 0, c.ttl + 1)
  }

  ghost predicate BytesRefill(c: Config) {
    c.limits.bytesPerSecond > 0 ==> c.limits.burstBytes as real <= Gain(c.limits.bytesPerSecond, 0, c.ttl + 1)
  }

  ghost predicate Refills(c: Config) {
    PacketsRefill(c) && BytesRefill(c)
  }

  ghost predicate Sane(l: Limits, b: Tokens) {
    && (if l.packetsPerSecond > 0 then 0.0 <= b.packetTok <= l.burstPackets as real else b.packetTok == 0.0)
    && (if l.bytesPerSecond > 0 then 0.0 <= b.byteTok <= l.burstBytes as real else b.byteTok == 0.0)
  }

  /** The cache is in step with the memory at time t: what is cached is what is remembered, and what
      was forgotten had been idle long enough to be full again. */
  ghost predicate InStepAt(c: Config, sh: Shard, m: map<Addr, Tokens>, t: int, a: Addr) {
    && (a in m ==> Sane(c.limits, m[a]) && m[a].lastRefill <= t)
    && (a in sh.entries ==> a in m && sh.entries[a] == Entry(m[a], Unix(m[a].lastRefill)))
    && (a in m && a !in sh.entries ==> m[a].lastRefill + c.ttl < t)
  }

  ghost predicate InStep(c: Config, shards: Shards, m: map<Addr, Tokens>, t: int) {
    forall a: Addr :: InStepAt(c, shards[ClientShard(a)], m, t, a)
  }

  lemma StepKeepsSane(l: Limits, b: Tokens, n: nat, now: int)
    requires Normal(l) && Sane(l, b)
    ensures Sane(l, AllowStep(l, b, n, now).0)
    ensures b.lastRefill <= now ==> AllowStep(l, b, n, now).0.lastRefill == now
  {
  }

  lemma GainIsPositive(rate: int, from: int, to: int)
    requires from <= to
    ensures rate > 0 ==> Gain(rate, from, to) >= 0.0
  {
  }

  /** An idle bucket refills completely: judging it equals judging a new one. */
  lemma IdleIsFresh(c: Config, b: Tokens, now: int)
    requires ValidConfig(c) && Refills(c) && Sane(c.limits, b) && b.lastRefill + c.ttl < now
    ensures Refilled(c.limits, b, now) == Fresh(c.limits, now) == Refilled(c.limits, Fresh(c.limits, now), now)
  {
    GainShifts(c.limits.packetsPerSecond, b.lastRefill, c.ttl + 1, now);
    GainShifts(c.limits.bytesPerSecond, b.lastRefill, c.ttl + 1, now);
  }

  lemma GainShifts(rate: int, from: int, d: int, to: int)
    requires from + d <= to
    ensures Gain(rate, 0, d) == Gain(rate, from, from + d)
    ensures rate > 0 ==> Gain(rate, 0, d) <= Gain(rate, from, to)
  {
  }

  lemma FoundIsAsGood(c: Config, sh: Shard, m: map<Addr, Tokens>, t: int, a: Addr, now: int)
    requires ValidConfig(c) && Refills(c) && t <= now && InStepAt(c, sh, m, t, a)
    ensures Refilled(c.limits, Found(c, sh.entries, a, now), now) == Refilled(c.limits, Remembered(c, m, a, now), now)
    ensures Sane(c.limits, Remembered(c, m, a, now)) && Remembered(c, m, a, now).lastRefill <= now
  {
    if a in m && a !in sh.entries {
      IdleIsFresh(c, m[a], now);
    }
  }

  /** Another address keeps in step whether or not the sweep drops it. */
  lemma OthersKeepStep(c: Config, sh: Shard, m: map<Addr, Tokens>, t: int, x: Addr, n: nat, now: int, b: Tokens,
                       a: Addr)
    requires ValidConfig(c) && t <= now && InStepAt(c, sh, m, t, a) && a != x
    ensures InStepAt(c, LimitedShard(c, sh, x, n, now).0, m[x := b], now, a)
  {
  }

  lemma StepKeepsInStep(c: Config, shards: Shards, m: map<Addr, Tokens>, t: int, x: ClientCall)
    requires ValidConfig(c) && Refills(c) && InStep(c, shards, m, t) && t <= x.now
    ensures var b := AllowStep(c.limits, Remembered(c, m, x.addr, x.now), x.n, x.now);
      && Limited(c, shards, x.addr, x.n, x.now).1 == b.1
      && InStep(c, Limited(c, shards, x.addr, x.n, x.now).0, m[x.addr := b.0], x.now)
  {
    var sh := shards[ClientShard(x.addr)];
    assert InStepAt(c, sh, m, t, x.addr);
    FoundIsAsGood(c, sh, m, t, x.addr, x.now);
    var b := AllowStep(c.limits, Remembered(c, m, x.addr, x.now), x.n, x.now);
    StepKeepsSane(c.limits, Remembered(c, m, x.addr, x.now), x.n, x.now);
    forall a: Addr
      ensures InStepAt(c, Limited(c, shards, x.addr, x.n, x.now).0[ClientShard(a)], m[x.addr := b.0], x.now, a)
    {
      assert InStepAt(c, shards[ClientShard(a)], m, t, a);
      if a != x.addr && ClientShard(a) == ClientShard(x.addr) {
        OthersKeepStep(c, sh, m, t, x.addr, x.n, x.now, b.0, a);
      }
    }
  }

  lemma {:induction false} RunKeepsInStep(c: Config, calls: seq<ClientCall>, t: int)
    requires ValidConfig(c) && Refills(c) && Ordered(calls)
    requires calls != [] ==> calls[|calls| - 1].now <= t
    ensures InStep(c, CacheAfter(c, calls), MemoryAfter(c, calls), t)
  {
    if calls != [] {
      var x := calls[|calls| - 1];
      RunKeepsInStep(c, calls[..|calls| - 1], x.now);
      StepKeepsInStep(c, CacheAfter(c, calls[..|calls| - 1]), MemoryAfter(c, calls[..|calls| - 1]), x.now, x);
      var cache, m := CacheAfter(c, calls), MemoryAfter(c, calls);
      forall a: Addr
        ensures InStepAt(c, cache[ClientShard(a)], m, t, a)
      {
        assert InStepAt(c, cache[ClientShard(a)], m, x.now, a);
      }
    }
  }

  /** Forgetting is invisible: every answer of every run is the one full memory would give. */
  lemma ForgettingIsInvisible(c: Config, calls: seq<ClientCall>)
    requires ValidConfig(c) && Refills(c) && Ordered(calls) && calls != []
    ensures CacheSays(c, calls) == MemorySays(c, calls)
  {
    var x := calls[|calls| - 1];
    RunKeepsInStep(c, calls[..|calls| - 1], x.now);
    StepKeepsInStep(c, CacheAfter(c, calls[..|calls| - 1]), MemoryAfter(c, calls[..|calls| - 1]), x.now, x);
  }

  // ----- idle clients are forgotten -----

  /** No entry is older than the shard's last sweep allows. */
  ghost predicate Trimmed(c: Config, sh: Shard, t: int) {
    && 0 <= sh.lastSweep <= Unix(t)
    && forall a | a in sh.entries :: sh.entries[a].lastSeen >= sh.lastSweep - CeilSeconds(c.ttl)
  }

  lemma StepTrims(c: Config, sh: Shard, t: int, x: ClientCall)
    requires c.ttl > 0 && x.now >= 0 && t <= x.now && Trimmed(c, sh, t)
    ensures var after := LimitedShard(c, sh, x.addr, x.n, x.now).0;
      Trimmed(c, after, x.now) && after.lastSweep > Unix(x.now) - Max(c.ttl / SECOND, 1)
  {
  }

  ghost predicate FromEpoch(calls: seq<ClientCall>) {
    Ordered(calls) && forall i | 0 <= i < |calls| :: calls[i].now >= 0
  }

  lemma {:induction false} RunTrims(c: Config, calls: seq<ClientCall>, i: nat, t: int)
    requires c.ttl > 0 && FromEpoch(calls) && i < CLIENT_SHARDS && t >= 0
    requires calls != [] ==> calls[|calls| - 1].now <= t
    ensures Trimmed(c, CacheAfter(c, calls)[i], t)
  {
    if calls != [] {
      var n := |calls| - 1;
      var x := calls[n];
      RunTrims(c, calls[..n], i, x.now);
      if i == ClientShard(x.addr) {
        StepTrims(c, CacheAfter(c, calls[..n])[i], x.now, x);
      }
    }
  }

  /** After any call, every client still cached in that call's shard was seen within about twice the
      time-to-live. */
  lemma IdleAreForgotten(c: Config, calls: seq<ClientCall>, a: Addr)
    requires c.ttl > 0 && FromEpoch(calls) && calls != []
    requires ClientShard(a) == ClientShard(calls[|calls| - 1].addr) && a in CacheAfter(c, calls)[ClientShard(a)].entries
    ensures CacheAfter(c, calls)[ClientShard(a)].entries[a].lastSeen >= Oldest(c.ttl, calls[|calls| - 1].now)
  {
    var n := |calls| - 1;
    var x := calls[n];
    RunTrims(c, calls[..n], ClientShard(a), x.now);
    StepTrims(c, CacheAfter(c, calls[..n])[ClientShard(a)], x.now, x);
  }
}
