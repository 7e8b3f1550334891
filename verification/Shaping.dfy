/** The token bucket (internal/shaping/shaping.go), with tokens as reals. */
module Shaping {
  import opened Basics

  datatype Limits = Limits(enabled: bool, packetsPerSecond: int, bytesPerSecond: int,
                           burstPackets: int, burstBytes: int)

  function Normalize(l: Limits): (r: Limits)
    ensures r.packetsPerSecond == l.packetsPerSecond && r.bytesPerSecond == l.bytesPerSecond
    ensures r.packetsPerSecond > 0 ==> r.enabled && r.burstPackets > 0
    ensures r.bytesPerSecond > 0 ==> r.enabled && r.burstBytes > 0
    ensures r.burstPackets == l.burstPackets || (l.burstPackets <= 0 && r.burstPackets == l.packetsPerSecond > 0)
    ensures r.burstBytes == l.burstBytes || (l.burstBytes <= 0 && r.burstBytes == l.bytesPerSecond > 0)
    ensures r.enabled <==> l.enabled || r.packetsPerSecond > 0 || r.bytesPerSecond > 0
  {
    l.(burstPackets := if l.burstPackets <= 0 && l.packetsPerSecond > 0 then l.packetsPerSecond else l.burstPackets,
       burstBytes := if l.burstBytes <= 0 && l.bytesPerSecond > 0 then l.bytesPerSecond else l.burstBytes,
       enabled := l.enabled || l.packetsPerSecond > 0 || l.bytesPerSecond > 0)
  }

  /** NewClientLimiter normalises limits that NewBucket normalises again: the second time is idle. */
  lemma NormalizeOnce(l: Limits)
    ensures Normalize(Normalize(l)) == Normalize(l) && Normal(Normalize(l))
    ensures l.enabled && Normal(l) ==> Normalize(l) == l
  {
  }

  ghost predicate Normal(l: Limits) {
    && (l.packetsPerSecond > 0 ==> l.burstPackets > 0)
    && (l.bytesPerSecond > 0 ==> l.burstBytes > 0)
  }

  /** Tokens earned at a rate between two instants. */
  function Gain(rate: int, from: int, to: int): real {
    rate as real * ((to - from) as real / SECOND as real)
  }

  /** The rate is per second: n seconds, or any part of one, earn the rate times that. */
  lemma GainPerSecond(rate: int, from: int, n: int)
    ensures Gain(rate, from, from + n * 1_000_000_000) == (rate * n) as real
    ensures Gain(rate, from, from + n) * 1_000_000_000.0 == (rate * n) as real
  {
  }

  lemma GainAdds(rate: int, a: int, b: int, c: int)
    ensures Gain(rate, a, c) == Gain(rate, a, b) + Gain(rate, b, c)
  {
  }

  lemma GainGrows(rate: int, a: int, b: int, c: int)
    requires rate >= 0 && b <= c
    ensures Gain(rate, a, b) <= Gain(rate, a, c)
  {
  }

  // ----- the bucket -----

  datatype Tokens = Tokens(lastRefill: int, packetTok: real, byteTok: real)

  function Fresh(l: Limits, now: int): Tokens {
    Tokens(now, if l.packetsPerSecond > 0 then l.burstPackets as real else 0.0,
                if l.bytesPerSecond > 0 then l.burstBytes as real else 0.0)
  }

  function Topped(tok: real, rate: int, burst: int, from: int, to: int): real {
    if rate > 0 then MinReal(tok + Gain(rate, from, to), burst as real) else tok
  }

  function Refilled(l: Limits, b: Tokens, now: int): Tokens {
    if now <= b.lastRefill then b
    else Tokens(now, Topped(b.packetTok, l.packetsPerSecond, l.burstPackets, b.lastRefill, now),
                     Topped(b.byteTok, l.bytesPerSecond, l.burstBytes, b.lastRefill, now))
  }

  predicate Affords(l: Limits, b: Tokens, n: int) {
    (l.packetsPerSecond > 0 ==> b.packetTok >= 1.0) && (l.bytesPerSecond > 0 ==> b.byteTok >= n as real)
  }

  function Spent(l: Limits, b: Tokens, n: int): Tokens {
    b.(packetTok := if l.packetsPerSecond > 0 then b.packetTok - 1.0 else b.packetTok,
       byteTok := if l.bytesPerSecond > 0 then b.byteTok - n as real else b.byteTok)
  }

  /** One Allow call as a function of the bucket's state. */
  function AllowStep(l: Limits, b: Tokens, n: int, now: int): (Tokens, bool) {
    var full := Refilled(l, b, now);
    if Affords(l, full, n) then (Spent(l, full, n), true) else (full, false)
  }

  class Bucket {
    const limits: Limits
    var lastRefill: int
    var packetTok: real
    var byteTok: real

    function View(): Tokens
      reads this
    {
      Tokens(lastRefill, packetTok, byteTok)
    }

    constructor (l: Limits, now: int)
      ensures limits == l && View() == Fresh(l, now)
    {
      limits := l;
      lastRefill := now;
      packetTok := if l.packetsPerSecond > 0 then l.burstPackets as real else 0.0;
      byteTok := if l.bytesPerSecond > 0 then l.burstBytes as real else 0.0;
    }

    method Allow(n: int, now: int) returns (ok: bool)
      modifies this
      ensures (View(), ok) == AllowStep(limits, old(View()), n, now)
    {
      var elapsed := (now - lastRefill) as real / SECOND as real;
      if elapsed > 0.0 {
        if limits.packetsPerSecond > 0 {
          packetTok := packetTok + limits.packetsPerSecond as real * elapsed;
          if packetTok > limits.burstPackets as real {
            packetTok := limits.burstPackets as real;
          }
        }
        if limits.bytesPerSecond > 0 {
          byteTok := byteTok + limits.bytesPerSecond as real * elapsed;
          if byteTok > limits.burstBytes as real {
            byteTok := limits.burstBytes as real;
          }
        }
        lastRefill := now;
      }
      if limits.packetsPerSecond > 0 && packetTok < 1.0 {
        return false;
      }
      if limits.bytesPerSecond > 0 && byteTok < n as real {
        return false;
      }
      if limits.packetsPerSecond > 0 {
        packetTok := packetTok - 1.0;
      }
      if limits.bytesPerSecond > 0 {
        byteTok := byteTok - n as real;
      }
      return true;
    }
  }

  /** A disabled configuration has no bucket, and a missing bucket admits everything. */
  method NewBucket(l: Limits, now: int) returns (b: Bucket?)
    ensures b == null <==> !Normalize(l).enabled
    ensures b != null ==> fresh(b) && b.limits == Normalize(l) && b.View() == Fresh(Normalize(l), now)
  {
    b := null;
    if Normalize(l).enabled {
      b := new Bucket(Normalize(l), now);
    }
  }

  // ----- whole streams of calls -----

  datatype Call = Call(n: nat, now: int)

  /** One of the two limited quantities: its curve burst + rate * time, and what each call costs. */
  datatype Dim = Dim(rate: int, burst: int, costs: seq<real>)

  /** A bucket created at an instant, and every Allow call made on it. Clock values are arbitrary. */
  datatype Stream = Stream(limits: Limits, created: int, calls: seq<Call>) {
    /** The bucket's state after the first j calls. */
    ghost function After(j: nat): Tokens
      requires j <= |calls|
    {
      if j == 0 then Fresh(limits, created)
      else AllowStep(limits, After(j - 1), calls[j - 1].n, calls[j - 1].now).0
    }

    ghost predicate Admitted(j: nat)
      requires j < |calls|
    {
      AllowStep(limits, After(j), calls[j].n, calls[j].now).1
    }

    /** The latest instant seen up to call j: a clock that never runs backwards. */
    ghost function Clock(j: nat): int
      requires j < |calls|
    {
      Max(if j == 0 then created else Clock(j - 1), calls[j].now)
    }

    ghost function Packets(): Dim {
      Dim(limits.packetsPerSecond, limits.burstPackets, seq(|calls|, _ => 1.0))
    }

    ghost function Bytes(): Dim {
      Dim(limits.bytesPerSecond, limits.burstBytes,
          seq(|calls|, i requires 0 <= i < |calls| => calls[i].n as real))
    }

    ghost function Charge(d: Dim, j: nat): real
      requires j < |calls| == |d.costs|
    {
      if Admitted(j) then d.costs[j] else 0.0
    }

    /** What the admitted calls among i..j-1 cost. */
    ghost function Taken(d: Dim, i: nat, j: nat): real
      requires i <= j <= |calls| == |d.costs|
    {
      if i == j then 0.0 else Taken(d, i, j - 1) + Charge(d, j - 1)
    }

    /** How far the calls i..j-1 stay below the curve at the instant call j is judged. */
    ghost function Slack(d: Dim, i: nat, j: nat): real
      requires i <= j < |calls| == |d.costs|
    {
      d.burst as real + Gain(d.rate, Clock(i), Clock(j)) - Taken(d, i, j)
    }

    /** Admitting call j keeps every window that ends in it under the curve. */
    ghost predicate Fits(d: Dim, j: nat)
      requires j < |calls| == |d.costs|
    {
      forall i: nat | i <= j :: d.costs[j] <= Slack(d, i, j)
    }

    /** The level of one dimension when call j is judged, computed from the decisions alone. */
    ghost function Level(d: Dim, j: nat): real
      requires j < |calls| == |d.costs|
    {
      if j == 0 then d.burst as real
      else MinReal(d.burst as real, Level(d, j - 1) - Charge(d, j - 1) + Gain(d.rate, Clock(j - 1), Clock(j)))
    }

    /** The level is the least slack over all windows ending at j. */
    lemma {:induction false} LevelIsLeastSlack(d: Dim, j: nat) returns (at: nat)
      requires j < |calls| == |d.costs|
      ensures forall i: nat | i <= j :: Level(d, j) <= Slack(d, i, j)
      ensures at <= j && Level(d, j) == Slack(d, at, j)
    {
      at := j;
      assert Slack(d, j, j) == d.burst as real;
      if j > 0 {
        var earlier := LevelIsLeastSlack(d, j - 1);
        forall i: nat | i <= j - 1
          ensures Slack(d, i, j) == Slack(d, i, j - 1) - Charge(d, j - 1) + Gain(d.rate, Clock(j - 1), Clock(j))
        {
          GainAdds(d.rate, Clock(i), Clock(j - 1), Clock(j));
        }
        if Level(d, j) != d.burst as real {
          at := earlier;
        }
      }
    }

    lemma LevelDecides(d: Dim, j: nat)
      requires j < |calls| == |d.costs|
      ensures Level(d, j) >= d.costs[j] <==> Fits(d, j)
    {
      var at := LevelIsLeastSlack(d, j);
    }

    /** Topping up the tokens left after call j - 1 gives the level at call j, refill or not. */
    lemma ToppedIsLevel(d: Dim, tok: real, j: nat)
      requires 0 < j < |calls| == |d.costs| && d.rate > 0
      requires tok == Level(d, j - 1) - Charge(d, j - 1) && d.costs[j - 1] >= 0.0
      ensures Topped(tok, d.rate, d.burst, Clock(j - 1), Clock(j)) == Level(d, j)
      ensures Clock(j) == Clock(j - 1) ==> tok == Level(d, j)
    {
    }

    lemma FreshIsFull(d: Dim)
      requires 0 < |calls| == |d.costs| && d.rate > 0
      ensures Topped(d.burst as real, d.rate, d.burst, created, Clock(0)) == d.burst as real == Level(d, 0)
    {
    }

    /** The bucket's own tokens, refilled for call j, are those levels. */
    lemma {:induction false} TokensAreLevels(j: nat)
      requires Normal(limits) && j < |calls|
      ensures var full := Refilled(limits, After(j), calls[j].now);
        && full.lastRefill == Clock(j)
        && (limits.packetsPerSecond > 0 ==> full.packetTok == Level(Packets(), j))
        && (limits.bytesPerSecond > 0 ==> full.byteTok == Level(Bytes(), j))
    {
      if j == 0 {
        if limits.packetsPerSecond > 0 { FreshIsFull(Packets()); }
        if limits.bytesPerSecond > 0 { FreshIsFull(Bytes()); }
      } else {
        TokensAreLevels(j - 1);
        if limits.packetsPerSecond > 0 { ToppedIsLevel(Packets(), After(j).packetTok, j); }
        if limits.bytesPerSecond > 0 { ToppedIsLevel(Bytes(), After(j).byteTok, j); }
      }
    }

    /** The exact law: whatever the clock does, a call is admitted if and only if admitting it keeps
        every window ending in it under the curve, in every enabled dimension. */
    lemma BucketLaw(j: nat)
      requires Normal(limits) && j < |calls|
      ensures Admitted(j) <==>
        && (limits.packetsPerSecond > 0 ==> Fits(Packets(), j))
        && (limits.bytesPerSecond > 0 ==> Fits(Bytes(), j))
    {
      TokensAreLevels(j);
      LevelDecides(Packets(), j);
      LevelDecides(Bytes(), j);
    }

    ghost predicate Enabled(d: Dim) {
      d.rate > 0 && (d == Packets() || d == Bytes())
    }

    /** Consequence: no run of calls i..j is ever charged more than burst + rate * its duration. */
    lemma {:induction false} EveryWindowIsBounded(d: Dim, i: nat, j: nat)
      requires Normal(limits) && Enabled(d) && i <= j < |calls|
      ensures Taken(d, i, j + 1) <= d.burst as real + Gain(d.rate, Clock(i), Clock(j))
    {
      BucketLaw(j);
      if Admitted(j) {
        assert d.costs[j] <= Slack(d, i, j);
      } else if i < j {
        EveryWindowIsBounded(d, i, j - 1);
        GainGrows(d.rate, Clock(i), Clock(j - 1), Clock(j));
      }
    }

    /** What calls i..j-1 would cost if all were admitted. */
    ghost function Offered(d: Dim, i: nat, j: nat): real
      requires i <= j <= |d.costs|
    {
      if i == j then 0.0 else Offered(d, i, j - 1) + d.costs[j - 1]
    }

    ghost predicate Conforming(d: Dim)
      requires |calls| == |d.costs|
    {
      forall i: nat, j: nat | i <= j < |calls| ::
        Offered(d, i, j) + d.costs[j] <= d.burst as real + Gain(d.rate, Clock(i), Clock(j))
    }

    lemma {:induction false} TakenAtMostOffered(d: Dim, i: nat, j: nat)
      requires i <= j <= |calls| == |d.costs| && forall k | 0 <= k < |d.costs| :: d.costs[k] >= 0.0
      ensures Taken(d, i, j) <= Offered(d, i, j)
    {
      if i < j {
        TakenAtMostOffered(d, i, j - 1);
      }
    }

    lemma ConformingFits(d: Dim, j: nat)
      requires j < |calls| == |d.costs| && Conforming(d) && forall k | 0 <= k < |d.costs| :: d.costs[k] >= 0.0
      ensures Fits(d, j)
    {
      forall i: nat | i <= j
        ensures d.costs[j] <= Slack(d, i, j)
      {
        TakenAtMostOffered(d, i, j);
      }
    }

    /** Consequence: a stream that keeps to the curve in every enabled dimension is never denied. */
    lemma ConformingIsNeverDenied(j: nat)
      requires Normal(limits) && j < |calls|
      requires limits.packetsPerSecond > 0 ==> Conforming(Packets())
      requires limits.bytesPerSecond > 0 ==> Conforming(Bytes())
      ensures Admitted(j)
    {
      if limits.packetsPerSecond > 0 { ConformingFits(Packets(), j); }
      if limits.bytesPerSecond > 0 { ConformingFits(Bytes(), j); }
      BucketLaw(j);
    }
  }
}
