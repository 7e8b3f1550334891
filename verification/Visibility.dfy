/** Exactly when the per-client limiter's forgetting is invisible, for datagrams up to a given size
    (internal/shaping/shaping.go; the size limit is that of internal/frontend/frontend.go). */
module Visibility {
  import opened Basics
  import opened Shaping
  import opened ClientLimiting
  import opened Forgetting
  import opened Pacing

  // ----- the condition -----

  /** The shortest time, in ns, in which one packet token is restored. */
  function TokenGap(l: Limits): nat
    requires l.packetsPerSecond > 0
  {
    CeilDiv(SECOND, l.packetsPerSecond)
  }

  /** Datagrams of up to max bytes, sent as fast as the packet limit allows, use no more bytes than the
      byte limit restores. With a packet burst of one, tokens beyond it are lost, so that datagrams are
      a whole number of nanoseconds apart. */
  ghost predicate NeverBinds(l: Limits, max: nat) {
    if l.packetsPerSecond <= 0 then max == 0
    else if l.burstPackets == 1 then SECOND * max <= l.bytesPerSecond * TokenGap(l)
    else l.packetsPerSecond * max <= l.bytesPerSecond
  }

  /** An idle client's packet burst has refilled before it is forgotten, and so has its byte burst, unless
      that never matters. */
  ghost predicate Unseen(c: Config, max: nat) {
    PacketsRefill(c) && (BytesRefill(c) || NeverBinds(c.limits, max))
  }

  // ----- bytes that never bind -----

  /** Enough bytes for every datagram the packet tokens allow: for those there are, or, with a packet
      burst of one, by the time the next token is whole. */
  ghost predicate Ample(l: Limits, max: nat, b: Tokens) {
    if l.packetsPerSecond <= 0 then b.byteTok >= 0.0
    else if l.burstPackets == 1 then
      || (b.packetTok == 1.0 && b.byteTok >= max as real)
      || exists w: nat :: Waiting(l, b, w)
    else b.byteTok >= max as real * b.packetTok
  }

  /** w ns after the last token was used. */
  ghost predicate Waiting(l: Limits, b: Tokens, w: nat) {
    && b.packetTok == Gain(l.packetsPerSecond, 0, w) < 1.0
    && b.byteTok >= MinReal(l.burstBytes as real, Gain(l.bytesPerSecond, 0, w))
  }

  /** Limits whose bytes never bind, and whose byte burst carries the packet burst. */
  ghost predicate Roomy(l: Limits, max: nat) {
    && Normal(l) && l.bytesPerSecond > 0 && NeverBinds(l, max)
    && (l.packetsPerSecond > 0 ==> l.burstBytes >= max * l.burstPackets)
  }

  lemma FreshIsAmple(l: Limits, max: nat, now: int)
    requires Roomy(l, max)
    ensures Ample(l, max, Fresh(l, now))
  {
    var n := max * l.burstPackets;
    assert l.packetsPerSecond > 0 ==> n as real == max as real * l.burstPackets as real;
  }

  /** A bucket that may be judged: ample, and with a packet token it can pay for any datagram. */
  lemma AmpleAffords(l: Limits, max: nat, b: Tokens)
    requires Roomy(l, max) && Ample(l, max, b) && (l.packetsPerSecond > 0 ==> b.packetTok >= 1.0)
    ensures b.byteTok >= max as real
  {
    if l.packetsPerSecond > 0 && l.burstPackets != 1 {
      RealTimesGrow(max as real, 1.0, b.packetTok);
    }
  }

  lemma RealTimesGrow(r: real, a: real, b: real)
    requires r >= 0.0 && a <= b
    ensures r * a <= r * b
  {
  }

  lemma SpendingStaysAmple(l: Limits, max: nat, b: Tokens, n: nat)
    requires Roomy(l, max) && Ample(l, max, b) && n <= max
    requires l.packetsPerSecond > 0 ==> 1.0 <= b.packetTok <= l.burstPackets as real
    ensures Ample(l, max, Spent(l, b, n))
  {
    AmpleAffords(l, max, b);
    var after := Spent(l, b, n);
    if l.packetsPerSecond > 0 && l.burstPackets == 1 {
      assert Waiting(l, after, 0);
    } else if l.packetsPerSecond > 0 {
      assert max as real * (b.packetTok - 1.0) == max as real * b.packetTok - max as real;
    }
  }

  lemma GainScales(p: nat, max: nat, b: nat, from: int, to: int)
    requires p * max <= b && from <= to
    ensures max as real * Gain(p, from, to) <= Gain(b, from, to)
  {
    var x := (to - from) as real / SECOND as real;
    RealTimesGrow(x, (p * max) as real, b as real);
    assert max as real * (p as real * x) == x * (p * max) as real;
  }

  lemma CappedStaysAmple(r: real, p: real, b: real, gp: real, gb: real, cap: real, burst: real)
    requires r >= 0.0 && b >= r * p && gb >= r * gp && burst >= r * cap
    ensures MinReal(b + gb, burst) >= r * MinReal(p + gp, cap)
  {
    RealTimesGrow(r, MinReal(p + gp, cap), p + gp);
    RealTimesGrow(r, MinReal(p + gp, cap), cap);
    assert r * (p + gp) == r * p + r * gp;
  }

  lemma RefilledIs(l: Limits, b: Tokens, now: int)
    requires l.packetsPerSecond > 0 && l.bytesPerSecond > 0 && b.lastRefill < now
    ensures var full := Refilled(l, b, now);
      && full.packetTok ==
         MinReal(b.packetTok + Gain(l.packetsPerSecond, b.lastRefill, now), l.burstPackets as real)
      && full.byteTok == MinReal(b.byteTok + Gain(l.bytesPerSecond, b.lastRefill, now), l.burstBytes as real)
  {
  }

  lemma ManyStayAmple(l: Limits, max: nat, b: Tokens, now: int, full: Tokens)
    requires Roomy(l, max) && l.packetsPerSecond > 0 && l.burstPackets != 1
    requires b.byteTok >= max as real * b.packetTok && b.lastRefill < now && full == Refilled(l, b, now)
    ensures full.byteTok >= max as real * full.packetTok
  {
    RefilledIs(l, b, now);
    GainScales(l.packetsPerSecond, max, l.bytesPerSecond, b.lastRefill, now);
    RealProduct(max, l.burstPackets);
    CappedStaysAmple(max as real, b.packetTok, b.byteTok,
                     Gain(l.packetsPerSecond, b.lastRefill, now), Gain(l.bytesPerSecond, b.lastRefill, now),
                     l.burstPackets as real, l.burstBytes as real);
  }

  lemma RealProduct(a: int, b: int)
    ensures (a * b) as real == a as real * b as real
  {
  }

  /** A token that has become whole has given the bytes time to come back. */
  lemma TokenBringsBytes(l: Limits, max: nat, w: nat)
    requires Roomy(l, max) && l.packetsPerSecond > 0 && l.burstPackets == 1
    requires Gain(l.packetsPerSecond, 0, w) >= 1.0
    ensures Gain(l.bytesPerSecond, 0, w) >= max as real
  {
    RoomIsCurve(l.packetsPerSecond, 0, 0, w, 1);
    CeilDivAtMost(SECOND, l.packetsPerSecond, w);
    TimesGrow(l.bytesPerSecond, TokenGap(l), w);
    RoomIsCurve(l.bytesPerSecond, 0, 0, w, max);
  }

  lemma WaitingStaysAmple(l: Limits, max: nat, b: Tokens, now: int, w: nat)
    requires Roomy(l, max) && l.packetsPerSecond > 0 && l.burstPackets == 1 && Waiting(l, b, w) && b.lastRefill < now
    ensures Ample(l, max, Refilled(l, b, now))
  {
    var d: nat, full := now - b.lastRefill, Refilled(l, b, now);
    GainAdds(l.packetsPerSecond, 0, w, w + d);
    GainAdds(l.bytesPerSecond, 0, w, w + d);
    assert Gain(l.packetsPerSecond, w, w + d) == Gain(l.packetsPerSecond, b.lastRefill, now);
    assert Gain(l.bytesPerSecond, w, w + d) == Gain(l.bytesPerSecond, b.lastRefill, now);
    GainIsPositive(l.bytesPerSecond, w, w + d);
    if Gain(l.packetsPerSecond, 0, w + d) < 1.0 {
      assert Waiting(l, full, w + d);
    } else {
      TokenBringsBytes(l, max, w + d);
    }
  }

  lemma RefillStaysAmple(l: Limits, max: nat, b: Tokens, now: int)
    requires Roomy(l, max) && Ample(l, max, b)
    ensures Ample(l, max, Refilled(l, b, now))
  {
    if b.lastRefill < now {
      GainIsPositive(l.packetsPerSecond, b.lastRefill, now);
      GainIsPositive(l.bytesPerSecond, b.lastRefill, now);
      if l.packetsPerSecond > 0 && l.burstPackets != 1 {
        ManyStayAmple(l, max, b, now, Refilled(l, b, now));
      } else if l.packetsPerSecond > 0 && !(b.packetTok == 1.0 && b.byteTok >= max as real) {
        var w: nat :| Waiting(l, b, w);
        WaitingStaysAmple(l, max, b, now, w);
      }
    }
  }

  // ----- so the limiter judges as if it limited packets alone -----

  function PacketsOnly(l: Limits): Limits {
    l.(bytesPerSecond := 0)
  }

  function NoBytes(b: Tokens): Tokens {
    b.(byteTok := 0.0)
  }

  ghost predicate Good(l: Limits, max: nat, b: Tokens) {
    Sane(l, b) && Ample(l, max, b)
  }

  lemma FreshIsGood(l: Limits, max: nat, now: int)
    requires Roomy(l, max)
    ensures Good(l, max, Fresh(l, now)) && NoBytes(Fresh(l, now)) == Fresh(PacketsOnly(l), now)
  {
    FreshIsAmple(l, max, now);
  }

  lemma JudgedAlike(l: Limits, max: nat, b: Tokens, n: nat, now: int)
    requires Roomy(l, max) && Good(l, max, b) && n <= max
    ensures var (after, ok) := AllowStep(l, b, n, now);
      && Good(l, max, after) && AllowStep(PacketsOnly(l), NoBytes(b), n, now) == (NoBytes(after), ok)
  {
    var full := Refilled(l, b, now);
    StepKeepsSane(l, b, n, now);
    RefillStaysAmple(l, max, b, now);
    if l.packetsPerSecond > 0 ==> full.packetTok >= 1.0 {
      AmpleAffords(l, max, full);
      SpendingStaysAmple(l, max, full, n);
    }
  }

  // ----- whole runs -----

  function Bare(c: Config): Config {
    c.(limits := PacketsOnly(c.limits))
  }

  ghost function BareShard(sh: Shard): Shard {
    sh.(entries := map a | a in sh.entries :: Entry(NoBytes(sh.entries[a].bucket), sh.entries[a].lastSeen))
  }

  ghost predicate GoodShard(l: Limits, max: nat, sh: Shard) {
    forall a | a in sh.entries :: Good(l, max, sh.entries[a].bucket)
  }

  lemma FoundAlike(c: Config, max: nat, sh: Shard, a: Addr, now: int)
    requires Roomy(c.limits, max) && GoodShard(c.limits, max, sh)
    ensures Good(c.limits, max, Found(c, sh.entries, a, now))
    ensures Found(Bare(c), BareShard(sh).entries, a, now) == NoBytes(Found(c, sh.entries, a, now))
  {
    FreshIsGood(c.limits, max, now);
  }

  lemma SweptAlike(c: Config, max: nat, sh: Shard, now: int)
    requires GoodShard(c.limits, max, sh)
    ensures GoodShard(c.limits, max, Swept(c, sh, now))
    ensures Swept(Bare(c), BareShard(sh), now) == BareShard(Swept(c, sh, now))
  {
  }

  ghost function Put(sh: Shard, a: Addr, b: Tokens, seen: int): Shard {
    sh.(entries := sh.entries[a := Entry(b, seen)])
  }

  lemma PutAlike(l: Limits, max: nat, sh: Shard, a: Addr, b: Tokens, seen: int)
    requires GoodShard(l, max, sh) && Good(l, max, b)
    ensures GoodShard(l, max, Put(sh, a, b, seen))
    ensures BareShard(Put(sh, a, b, seen)) == Put(BareShard(sh), a, NoBytes(b), seen)
  {
    assert BareShard(Put(sh, a, b, seen)).entries == Put(BareShard(sh), a, NoBytes(b), seen).entries;
  }

  /** A call in terms of what it finds, what it leaves and the shard swept in between. */
  lemma LimitedIs(c: Config, sh: Shard, a: Addr, n: int, now: int, found: Tokens, left: Tokens, ok: bool, swept: Shard)
    requires found == Found(c, sh.entries, a, now) && (left, ok) == AllowStep(c.limits, found, n, now)
    requires swept == Swept(c, Put(sh, a, found, Unix(now)), now)
    ensures LimitedShard(c, sh, a, n, now) == (Put(swept, a, left, Unix(now)), ok)
  {
  }

  lemma ShardAlike(c: Config, max: nat, sh: Shard, a: Addr, n: nat, now: int)
    requires Roomy(c.limits, max) && GoodShard(c.limits, max, sh) && n <= max
    ensures var (after, ok) := LimitedShard(c, sh, a, n, now);
      && GoodShard(c.limits, max, after)
      && LimitedShard(Bare(c), BareShard(sh), a, n, now) == (BareShard(after), ok)
  {
    FoundAlike(c, max, sh, a, now);
    var found, seen := Found(c, sh.entries, a, now), Unix(now);
    JudgedAlike(c.limits, max, found, n, now);
    var (left, ok) := AllowStep(c.limits, found, n, now);
    PutAlike(c.limits, max, sh, a, found, seen);
    SweptAlike(c, max, Put(sh, a, found, seen), now);
    var swept := Swept(c, Put(sh, a, found, seen), now);
    PutAlike(c.limits, max, swept, a, left, seen);
    LimitedIs(c, sh, a, n, now, found, left, ok, swept);
    LimitedIs(Bare(c), BareShard(sh), a, n, now, NoBytes(found), NoBytes(left), ok, BareShard(swept));
  }

  lemma {:induction false} CacheAlike(c: Config, max: nat, calls: seq<ClientCall>, i: nat)
    requires Roomy(c.limits, max) && Sized(max, calls) && i < CLIENT_SHARDS
    ensures GoodShard(c.limits, max, CacheAfter(c, calls)[i])
    ensures CacheAfter(Bare(c), calls)[i] == BareShard(CacheAfter(c, calls)[i])
  {
    if calls == [] {
      assert BareShard(Shard(map[], 0)) == Shard(map[], 0);
    } else {
      var n := |calls| - 1;
      var x := calls[n];
      CacheAlike(c, max, calls[..n], i);
      if i == ClientShard(x.addr) {
        ShardAlike(c, max, CacheAfter(c, calls[..n])[i], x.addr, x.n, x.now);
      }
    }
  }

  lemma {:induction false} MemoryAlike(c: Config, max: nat, calls: seq<ClientCall>, a: Addr, now: int)
    requires Roomy(c.limits, max) && Sized(max, calls)
    ensures var b := Remembered(c, MemoryAfter(c, calls), a, now);
      Good(c.limits, max, b) && Remembered(Bare(c), MemoryAfter(Bare(c), calls), a, now) == NoBytes(b)
  {
    FreshIsGood(c.limits, max, now);
    if calls != [] {
      var n := |calls| - 1;
      var x := calls[n];
      MemoryAlike(c, max, calls[..n], a, now);
      MemoryAlike(c, max, calls[..n], x.addr, x.now);
      JudgedAlike(c.limits, max, Remembered(c, MemoryAfter(c, calls[..n]), x.addr, x.now), x.n, x.now);
    }
  }

  /** Where bytes never bind, every answer is the one that limiting packets alone would give. */
  lemma AnswersAlike(c: Config, max: nat, calls: seq<ClientCall>)
    requires Roomy(c.limits, max) && Sized(max, calls) && calls != []
    ensures CacheSays(c, calls) == CacheSays(Bare(c), calls) && MemorySays(c, calls) == MemorySays(Bare(c), calls)
  {
    var n := |calls| - 1;
    var x := calls[n];
    var i := ClientShard(x.addr);
    CacheAlike(c, max, calls[..n], i);
    ShardAlike(c, max, CacheAfter(c, calls[..n])[i], x.addr, x.n, x.now);
    MemoryAlike(c, max, calls[..n], x.addr, x.now);
    JudgedAlike(c.limits, max, Remembered(c, MemoryAfter(c, calls[..n]), x.addr, x.now), x.n, x.now);
  }

  /** A byte burst that does not refill while the packet burst does, and never binds, carries more than
      the packet burst. */
  lemma SlowBytesAreRoomy(c: Config, max: nat)
    requires ValidConfig(c) && PacketsRefill(c) && !BytesRefill(c) && NeverBinds(c.limits, max)
    ensures Roomy(c.limits, max)
  {
    var l, t := c.limits, c.ttl + 1;
    if l.packetsPerSecond > 0 {
      var p, b := Gain(l.packetsPerSecond, 0, t), Gain(l.bytesPerSecond, 0, t);
      if l.burstPackets == 1 {
        RoomIsCurve(l.packetsPerSecond, 0, 0, t, 1);
        CeilDivAtMost(SECOND, l.packetsPerSecond, t);
        TimesGrow(l.bytesPerSecond, TokenGap(l), t);
        RoomIsCurve(l.bytesPerSecond, 0, 0, t, max);
      } else {
        GainScales(l.packetsPerSecond, max, l.bytesPerSecond, 0, t);
        RealTimesGrow(max as real, l.burstPackets as real, p);
        assert max as real * l.burstPackets as real == (max * l.burstPackets) as real;
      }
    }
  }

  /** Under the condition every answer, to every ordered run of datagrams up to max bytes, is the one that
      full memory would give. */
  lemma Invisible(c: Config, max: nat, calls: seq<ClientCall>)
    requires ValidConfig(c) && Unseen(c, max) && Sized(max, calls)
    ensures !Differs(c, calls)
  {
    if calls != [] && Ordered(calls) {
      if BytesRefill(c) {
        ForgettingIsInvisible(c, calls);
      } else {
        SlowBytesAreRoomy(c, max);
        AnswersAlike(c, max, calls);
        ForgettingIsInvisible(Bare(c), calls);
      }
    }
  }

  // ----- and only then -----

  /** Packet rates up to one per nanosecond, or a packet burst of one. */
  ghost predicate Realistic(l: Limits) {
    l.packetsPerSecond <= SECOND || l.burstPackets == 1
  }

  /** Datagrams that outrun the byte rate can empty the byte burst to the last byte. */
  lemma EmptiesBytes(l: Limits, max: nat) returns (s: seq<Call>)
    requires Normal(l) && l.bytesPerSecond > 0 && !NeverBinds(l, max) && Realistic(l)
    ensures Script(l, max, s, true)
  {
    if l.packetsPerSecond <= 0 || l.burstBytes <= max * l.burstPackets {
      assert max > 0;
      s := AllAtOnce(l, max);
    } else if l.burstPackets == 1 {
      CeilDivIs(SECOND, l.packetsPerSecond);
      s := OneByOne(l, max, TokenGap(l));
    } else {
      TimesGrow(max, 2, l.burstPackets);
      s := Evenly(l, max);
    }
  }

  lemma Shows(c: Config, max: nat, start: int) returns (calls: seq<ClientCall>)
    requires ValidConfig(c) && !Unseen(c, max) && Realistic(c.limits)
    ensures Differs(c, calls) && Sized(max, calls) && Since(start, calls)
  {
    var s;
    if !PacketsRefill(c) {
      s := EmptyOnes(c.limits, max);
    } else {
      s := EmptiesBytes(c.limits, max);
    }
    calls := ShowsBy(c, max, s, PacketsRefill(c), start);
  }

  lemma ShowsBy(c: Config, max: nat, s: seq<Call>, bytes: bool, start: int) returns (calls: seq<ClientCall>)
    requires ValidConfig(c) && Script(c.limits, max, s, bytes)
    requires Burst(c.limits, bytes) as real > Gain(Rate(c.limits, bytes), 0, c.ttl + 1)
    ensures Differs(c, calls) && Sized(max, calls) && Since(start, calls)
  {
    var a: Addr := AddrValue(seq(16, _ => 0), "");
    var b: Addr := AddrValue(seq(16, _ => 0), "other");
    assert a != b && ClientShard(a) == ClientShard(b);
    var first: nat := Max(Unix(start), 0);
    assert Edge(first) >= start;
    calls := ScriptShows(c, max, s, bytes, first, a, b);
  }

  /** The exact condition. From any time on, for datagrams of up to max bytes: the sweeping limiter answers
      every ordered run as full memory would if and only if the packet burst refills within ttl + 1 ns
      and the byte burst does too, unless datagrams can never outrun the byte rate. */
  lemma InvisibleIff(c: Config, max: nat, start: int)
    requires ValidConfig(c) && Realistic(c.limits)
    ensures (forall calls | Sized(max, calls) && Since(start, calls) :: !Differs(c, calls)) <==> Unseen(c, max)
  {
    if Unseen(c, max) {
      forall calls | Sized(max, calls)
        ensures !Differs(c, calls)
      {
        Invisible(c, max, calls);
      }
    } else {
      var calls := Shows(c, max, start);
      assert Sized(max, calls) && Since(start, calls) && Differs(c, calls);
    }
  }

  /** For calls of any size, which no limit on datagrams keeps out, each enabled burst has to refill. */
  lemma AnySizeIff(c: Config, start: int)
    requires ValidConfig(c)
    ensures (forall calls | Since(start, calls) :: !Differs(c, calls)) <==> Refills(c)
  {
    if Refills(c) {
      forall calls
        ensures !Differs(c, calls)
      {
        if calls != [] && Ordered(calls) {
          ForgettingIsInvisible(c, calls);
        }
      }
    } else {
      var s, max: nat := [], 0;
      if !PacketsRefill(c) {
        s := EmptyOnes(c.limits, 0);
      } else {
        max := c.limits.burstBytes;
        if c.limits.packetsPerSecond > 0 {
          TimesGrow(max, 1, c.limits.burstPackets);
        }
        s := AllAtOnce(c.limits, max);
      }
      var calls := ShowsBy(c, max, s, PacketsRefill(c), start);
      assert Since(start, calls) && Differs(c, calls);
    }
  }

  /** A byte burst that takes hours to refill can go unseen: one packet per second of at most 1500 bytes
      never outruns 65507 bytes per second. */
  lemma LargeBurstUnseen(enabled: bool)
    ensures var c := Config(Limits(enabled, 1, 65507, 1, 1_000_000_000), 120 * SECOND);
      ValidConfig(c) && !BytesRefill(c) && Unseen(c, 1500)
  {
    var c := Config(Limits(enabled, 1, 65507, 1, 1_000_000_000), 120 * SECOND);
    RoomIsCurve(1, 0, 0, c.ttl + 1, 1);
    RoomIsCurve(65507, 0, 0, c.ttl + 1, 1_000_000_000);
    assert TokenGap(c.limits) == SECOND;
  }
}
