/** Streams of datagrams that empty a full byte allowance to the last byte without ever being denied, for
    every pair of packet and byte limits under which datagrams can outrun the byte rate. */
module Pacing {
  import opened Basics
  import opened Shaping
  import opened Forgetting

  // ----- datagrams sent at given times, each as large as it may be -----

  ghost predicate Rising(s: seq<nat>) {
    forall i, j | 0 <= i < j < |s| :: s[i] <= s[j]
  }

  /** The bytes of the first k datagrams: max each, but in all no more than the cap in force at the
      last of them. */
  ghost function Cum(max: nat, caps: seq<nat>, k: nat): nat
    requires k <= |caps|
  {
    if k == 0 then 0
    else if Cum(max, caps, k - 1) + max <= caps[k - 1] then Cum(max, caps, k - 1) + max
    else caps[k - 1]
  }

  lemma CumGrows(max: nat, caps: seq<nat>, k: nat)
    requires k < |caps| && Rising(caps)
    ensures Cum(max, caps, k) <= Cum(max, caps, k + 1) <= Cum(max, caps, k) + max
    ensures Cum(max, caps, k + 1) <= caps[k]
  {
    if k > 0 {
      assert caps[k - 1] <= caps[k];
    }
  }

  ghost function Datagram(max: nat, caps: seq<nat>, times: seq<nat>, i: nat): Call
    requires i < |caps| == |times| && Rising(caps)
  {
    CumGrows(max, caps, i);
    Call(Cum(max, caps, i + 1) - Cum(max, caps, i), times[i])
  }

  ghost function Datagrams(max: nat, caps: seq<nat>, times: seq<nat>): (s: seq<Call>)
    requires |caps| == |times| && Rising(caps)
    ensures |s| == |caps| && forall i: nat | i < |s| :: s[i] == Datagram(max, caps, times, i)
  {
    seq(|caps|, i requires 0 <= i < |caps| => Datagram(max, caps, times, i))
  }

  lemma {:induction false} LoadIsCum(max: nat, caps: seq<nat>, times: seq<nat>, k: nat)
    requires k <= |caps| == |times| && Rising(caps)
    ensures Load(Datagrams(max, caps, times), k) == Cum(max, caps, k)
  {
    if k > 0 {
      LoadIsCum(max, caps, times, k - 1);
      CumGrows(max, caps, k - 1);
    }
  }

  lemma RoomSplits(rate: int, burst: int, a: int, b: int)
    ensures Room(rate, burst, b) - Room(rate, 0, a) == Room(rate, burst, b - a)
  {
  }

  /** The caps follow a byte limit, and what it restores by the time of each datagram has been used, so
      that nothing is lost to the burst. */
  ghost predicate Follows(rate: int, burst: int, max: nat, caps: seq<nat>, times: seq<nat>, k: nat)
    requires k < |caps| == |times|
  {
    SECOND * caps[k] <= Room(rate, burst, times[k]) && Room(rate, 0, times[k]) <= SECOND * Cum(max, caps, k)
  }

  lemma DatagramsWeigh(max: nat, caps: seq<nat>, times: seq<nat>, i: nat, j: nat)
    requires i <= j < |caps| == |times| && Rising(caps)
    ensures var s := Datagrams(max, caps, times);
      && Weight(s, true, j + 1) - Weight(s, true, i) == Cum(max, caps, j + 1) - Cum(max, caps, i)
      && s[i].now == times[i] && s[j].now == times[j] && Cum(max, caps, j + 1) <= caps[j]
  {
    LoadIsCum(max, caps, times, i);
    LoadIsCum(max, caps, times, j + 1);
    CumGrows(max, caps, j);
  }

  lemma BytesUnder(rate: int, burst: int, max: nat, caps: seq<nat>, times: seq<nat>, i: nat, j: nat)
    requires i <= j < |caps| == |times| && Rising(caps)
    requires Follows(rate, burst, max, caps, times, i) && Follows(rate, burst, max, caps, times, j)
    ensures Under(Datagrams(max, caps, times), true, rate, burst, i, j)
  {
    DatagramsWeigh(max, caps, times, i, j);
    RoomSplits(rate, burst, times[i], times[j]);
  }

  /** Enough packet tokens for datagrams i to j. */
  ghost predicate Spread(rate: int, burst: int, times: seq<nat>, i: nat, j: nat)
    requires i <= j < |times|
  {
    var from: int, to: int := times[i], times[j];
    SECOND * (j + 1 - i) <= Room(rate, burst, to - from)
  }

  /** All that times and caps have to satisfy for their datagrams to be a script. */
  ghost predicate Drains(l: Limits, max: nat, caps: seq<nat>, times: seq<nat>) {
    && 0 < |caps| == |times| && Rising(caps) && Rising(times) && times[0] == 0 && l.bytesPerSecond > 0
    && AllFollow(l.bytesPerSecond, l.burstBytes, max, caps, times) && AllSpread(l, times)
    && var n := |caps|;
       times[n - 1] % SECOND == 0
       && SECOND * Cum(max, caps, n) == Room(l.bytesPerSecond, l.burstBytes, times[n - 1])
  }

  lemma DrainingObeys(l: Limits, max: nat, caps: seq<nat>, times: seq<nat>, bytes: bool)
    requires Drains(l, max, caps, times) && Rate(l, bytes) > 0
    ensures Obeys(Datagrams(max, caps, times), bytes, Rate(l, bytes), Burst(l, bytes))
  {
    forall i: nat, j: nat | i <= j < |caps|
      ensures Under(Datagrams(max, caps, times), bytes, Rate(l, bytes), Burst(l, bytes), i, j)
    {
      if bytes {
        assert Follows(l.bytesPerSecond, l.burstBytes, max, caps, times, i);
        assert Follows(l.bytesPerSecond, l.burstBytes, max, caps, times, j);
        BytesUnder(l.bytesPerSecond, l.burstBytes, max, caps, times, i, j);
      } else {
        assert Spread(l.packetsPerSecond, l.burstPackets, times, i, j);
      }
    }
  }

  lemma DrainingIsScript(l: Limits, max: nat, caps: seq<nat>, times: seq<nat>)
    requires Drains(l, max, caps, times)
    ensures Script(l, max, Datagrams(max, caps, times), true)
  {
    var s := Datagrams(max, caps, times);
    forall i | 0 <= i < |s|
      ensures s[i].n <= max
    {
      CumGrows(max, caps, i);
    }
    forall bytes | Rate(l, bytes) > 0
      ensures Obeys(s, bytes, Rate(l, bytes), Burst(l, bytes))
    {
      DrainingObeys(l, max, caps, times, bytes);
    }
    LoadIsCum(max, caps, times, |s|);
  }

  /** The datagrams reach the last cap if from every cap on max each would do. */
  lemma {:induction false} Reaches(max: nat, caps: seq<nat>, goal: int, k: nat)
    requires k <= |caps| && max * |caps| >= goal
    requires forall i | 0 <= i < |caps| :: caps[i] + max * (|caps| - 1 - i) >= goal
    ensures Cum(max, caps, k) + max * (|caps| - k) >= goal
  {
    if k > 0 {
      Reaches(max, caps, goal, k - 1);
      assert max * (|caps| - (k - 1)) == max * (|caps| - k) + max;
      assert caps[k - 1] + max * (|caps| - k) >= goal;
    }
  }

  lemma ReachesLast(max: nat, caps: seq<nat>, goal: nat)
    requires caps != [] && caps[|caps| - 1] == goal && max * |caps| >= goal && Rising(caps)
    requires forall i | 0 <= i < |caps| :: caps[i] + max * (|caps| - 1 - i) >= goal
    ensures Cum(max, caps, |caps|) == goal
  {
    Reaches(max, caps, goal, |caps|);
    CumGrows(max, caps, |caps| - 1);
  }

  // ----- all at once: the packet burst carries the whole byte burst -----

  function CeilDiv(x: nat, y: nat): nat
    requires y > 0
  {
    (x + y - 1) / y
  }

  lemma CeilDivIs(x: nat, y: nat)
    requires y > 0
    ensures y * CeilDiv(x, y) >= x && y * CeilDiv(x, y) < x + y
  {
    var z := x + y - 1;
    assert z == y * (z / y) + z % y;
  }

  lemma TimesGrow(r: nat, a: int, b: int)
    requires a <= b
    ensures r * a <= r * b
  {
  }

  lemma TimesOrder(r: nat, a: int, b: int)
    requires r * a < r * b
    ensures a < b
  {
    if b <= a {
      TimesGrow(r, b, a);
    }
  }

  lemma CeilDivAtMost(x: nat, y: nat, q: nat)
    requires y > 0 && x <= y * q
    ensures CeilDiv(x, y) <= q
  {
    CeilDivIs(x, y);
    assert y * (q + 1) == y * q + y;
    TimesOrder(y, CeilDiv(x, y), q + 1);
  }

  ghost function Same(n: nat, v: nat): (s: seq<nat>)
    ensures |s| == n && forall k | 0 <= k < n :: s[k] == v
  {
    seq(n, _ => v)
  }

  lemma SameReaches(max: nat, n: nat, goal: nat)
    requires n > 0 && max * n >= goal
    ensures Cum(max, Same(n, goal), n) == goal
  {
    var caps := Same(n, goal);
    forall i | 0 <= i < n
      ensures caps[i] + max * (n - 1 - i) >= goal
    {
      TimesGrow(max, 0, n - 1 - i);
    }
    ReachesLast(max, caps, goal);
  }

  lemma AllAtOnce(l: Limits, max: nat) returns (s: seq<Call>)
    requires l.bytesPerSecond > 0 && l.burstBytes > 0 && max > 0
    requires l.packetsPerSecond > 0 ==> 0 <= l.burstPackets && l.burstBytes <= max * l.burstPackets
    ensures Script(l, max, s, true)
  {
    var n := CeilDiv(l.burstBytes, max);
    CeilDivIs(l.burstBytes, max);
    TimesOrder(max, 0, n);
    SameReaches(max, n, l.burstBytes);
    if l.packetsPerSecond > 0 {
      CeilDivAtMost(l.burstBytes, max, l.burstPackets);
    }
    AtOnceDrains(l, max, n);
    DrainingIsScript(l, max, Same(n, l.burstBytes), Same(n, 0));
    s := Datagrams(max, Same(n, l.burstBytes), Same(n, 0));
  }

  lemma AtOnceDrains(l: Limits, max: nat, n: nat)
    requires l.bytesPerSecond > 0 && l.burstBytes > 0 && n > 0 && (l.packetsPerSecond > 0 ==> n <= l.burstPackets)
    requires Cum(max, Same(n, l.burstBytes), n) == l.burstBytes
    ensures Drains(l, max, Same(n, l.burstBytes), Same(n, 0))
  {
  }

  // ----- paced datagrams keep up with what is restored -----

  /** Caps that follow the byte limit at given times. */
  ghost function CapsAt(rate: nat, burst: nat, times: seq<nat>): (caps: seq<nat>)
    ensures |caps| == |times| && forall k | 0 <= k < |times| :: caps[k] == burst + (rate * times[k]) / SECOND
  {
    seq(|times|, k requires 0 <= k < |times| => burst + (rate * times[k]) / SECOND)
  }

  lemma CapsRise(rate: nat, burst: nat, times: seq<nat>)
    requires Rising(times)
    ensures Rising(CapsAt(rate, burst, times))
  {
    var caps := CapsAt(rate, burst, times);
    forall i, j | 0 <= i < j < |times|
      ensures caps[i] <= caps[j]
    {
      TimesGrow(rate, times[i], times[j]);
    }
  }

  /** If the cap leaves room for one datagram above num / den bytes for each before it, and that is no
      more than max, then so do the datagrams themselves. */
  lemma {:induction false} KeepUp(max: nat, caps: seq<nat>, num: nat, den: nat, k: nat)
    requires 0 < k <= |caps| && num <= den * max
    requires forall i | 0 <= i < |caps| :: den * caps[i] >= num * i + den * max
    ensures den * Cum(max, caps, k) >= num * (k - 1) + den * max
  {
    assert den * caps[k - 1] >= num * (k - 1) + den * max;
    if k > 1 {
      KeepUp(max, caps, num, den, k - 1);
      assert num * (k - 1) == num * (k - 2) + num;
      assert den * (Cum(max, caps, k - 1) + max) == den * Cum(max, caps, k - 1) + den * max;
    }
  }

  lemma TimesOrderEq(r: nat, a: int, b: int)
    requires r > 0 && r * a <= r * b
    ensures a <= b
  {
    assert r * (b + 1) == r * b + r;
    if b < a {
      TimesGrow(r, b + 1, a);
    }
  }

  /** A pace: the times of the datagrams, and num / den, the bytes restored from one to the next. It is
      slow enough that nothing is lost by waiting, and fast enough that max each outruns what is
      restored until the end. */
  ghost predicate Paced(rate: nat, burst: nat, max: nat, times: seq<nat>, num: nat, den: nat, k: nat)
    requires k < |times|
  {
    && den * (burst + (rate * times[k]) / SECOND) >= num * k + den * max
    && (k > 0 ==> den * (rate * times[k]) <= SECOND * (num * (k - 1) + den * max))
    && rate * times[|times| - 1] <= rate * times[k] + SECOND * (max * (|times| - 1 - k))
  }

  lemma NothingLost(rate: nat, o: nat, cum: nat, due: nat, den: nat)
    requires den > 0 && den * cum >= due && den * (rate * o) <= SECOND * due
    ensures Room(rate, 0, o) <= SECOND * cum
  {
    assert den * (SECOND * cum) == SECOND * (den * cum);
    TimesOrderEq(den, rate * o, SECOND * cum);
  }

  lemma PacedFollows(rate: nat, burst: nat, max: nat, times: seq<nat>, num: nat, den: nat, k: nat)
    requires k < |times| && times[0] == 0 && den > 0 && num <= den * max
    requires AllPaced(rate, burst, max, times, num, den)
    ensures Follows(rate, burst, max, CapsAt(rate, burst, times), times, k)
  {
    var caps := CapsAt(rate, burst, times);
    assert Paced(rate, burst, max, times, num, den, k);
    if k > 0 {
      forall i | 0 <= i < |caps|
        ensures den * caps[i] >= num * i + den * max
      {
        assert Paced(rate, burst, max, times, num, den, i);
      }
      KeepUp(max, caps, num, den, k);
      NothingLost(rate, times[k], Cum(max, caps, k), num * (k - 1) + den * max, den);
    }
  }

  lemma PacedReaches(rate: nat, burst: nat, max: nat, times: seq<nat>, num: nat, den: nat, d: nat)
    requires times != [] && Rising(times) && times[|times| - 1] == d * SECOND
    requires max * |times| >= burst + rate * d
    requires AllPaced(rate, burst, max, times, num, den)
    ensures Cum(max, CapsAt(rate, burst, times), |times|) == burst + rate * d
  {
    var caps, n := CapsAt(rate, burst, times), |times|;
    assert rate * (d * SECOND) == SECOND * (rate * d);
    forall i | 0 <= i < n
      ensures caps[i] + max * (n - 1 - i) >= burst + rate * d
    {
      assert Paced(rate, burst, max, times, num, den, i);
    }
    CapsRise(rate, burst, times);
    ReachesLast(max, caps, burst + rate * d);
  }

  ghost predicate AllPaced(rate: nat, burst: nat, max: nat, times: seq<nat>, num: nat, den: nat) {
    forall i: nat | i < |times| :: Paced(rate, burst, max, times, num, den, i)
  }

  ghost predicate AllSpread(l: Limits, times: seq<nat>) {
    l.packetsPerSecond > 0 ==>
      forall i: nat, j: nat | i <= j < |times| :: Spread(l.packetsPerSecond, l.burstPackets, times, i, j)
  }

  ghost predicate AllFollow(rate: int, burst: int, max: nat, caps: seq<nat>, times: seq<nat>)
    requires |caps| == |times|
  {
    forall k: nat | k < |caps| :: Follows(rate, burst, max, caps, times, k)
  }

  lemma PacedFollow(rate: nat, burst: nat, max: nat, times: seq<nat>, num: nat, den: nat)
    requires times != [] && times[0] == 0 && den > 0 && num <= den * max
    requires AllPaced(rate, burst, max, times, num, den)
    ensures AllFollow(rate, burst, max, CapsAt(rate, burst, times), times)
  {
    forall k: nat | k < |times|
      ensures Follows(rate, burst, max, CapsAt(rate, burst, times), times, k)
    {
      PacedFollows(rate, burst, max, times, num, den, k);
    }
  }

  lemma PacedDrains(l: Limits, max: nat, times: seq<nat>, caps: seq<nat>, num: nat, den: nat, d: nat,
                    rate: nat, burst: nat)
    requires rate == l.bytesPerSecond > 0 && burst == l.burstBytes > 0 && den > 0 && num <= den * max
    requires times != [] && Rising(times) && times[0] == 0 && times[|times| - 1] == d * SECOND
    requires max * |times| >= burst + rate * d && AllSpread(l, times)
    requires AllPaced(rate, burst, max, times, num, den) && caps == CapsAt(rate, burst, times)
    ensures Drains(l, max, caps, times)
  {
    CapsRise(rate, burst, times);
    PacedFollow(rate, burst, max, times, num, den);
    PacedReaches(rate, burst, max, times, num, den, d);
    RoomOfSeconds(rate, burst, d);
  }

  /** Such a pace, if the packet limit allows it, is a script. */
  lemma PacedIsScript(l: Limits, max: nat, times: seq<nat>, num: nat, den: nat, d: nat) returns (s: seq<Call>)
    requires l.bytesPerSecond > 0 && l.burstBytes > 0 && den > 0 && num <= den * max
    requires times != [] && Rising(times) && times[0] == 0 && times[|times| - 1] == d * SECOND
    requires max * |times| >= l.burstBytes + l.bytesPerSecond * d && AllSpread(l, times)
    requires AllPaced(l.bytesPerSecond, l.burstBytes, max, times, num, den)
    ensures Script(l, max, s, true)
  {
    var caps := CapsAt(l.bytesPerSecond, l.burstBytes, times);
    PacedDrains(l, max, times, caps, num, den, d, l.bytesPerSecond, l.burstBytes);
    DrainingIsScript(l, max, caps, times);
    s := Datagrams(max, caps, times);
  }

  lemma RoomOfSeconds(rate: int, burst: int, d: int)
    ensures Room(rate, burst, d * SECOND) == SECOND * (burst + rate * d)
  {
  }

  // ----- a fixed gap apart: a packet burst of one -----

  ghost function Spaced(n: nat, gap: nat): (times: seq<nat>)
    ensures |times| == n && forall k | 0 <= k < n :: times[k] == k * gap
  {
    seq(n, k requires 0 <= k < n => k * gap)
  }

  lemma SpacedRises(n: nat, gap: nat)
    ensures Rising(Spaced(n, gap))
  {
    forall i, j | 0 <= i < j < n
      ensures i * gap <= j * gap
    {
      TimesGrow(gap, i, j);
    }
  }

  lemma SpacedIsPaced(rate: nat, burst: nat, max: nat, n: nat, gap: nat, k: nat)
    requires k < n && rate * gap <= SECOND * max && burst > max
    ensures Paced(rate, burst, max, Spaced(n, gap), rate * gap, SECOND, k)
  {
    var step, left := rate * gap, n - 1 - k;
    assert rate * (k * gap) == step * k && rate * ((n - 1) * gap) == step * (n - 1);
    assert k > 0 ==> step * k == step * (k - 1) + step;
    assert step * (n - 1) == step * k + step * left;
    TimesGrow(left, step, SECOND * max);
    assert left * (SECOND * max) == SECOND * (max * left);
  }

  lemma SpacedIsSpread(rate: nat, burst: nat, n: nat, gap: nat, i: nat, j: nat)
    requires i <= j < n && rate * gap >= SECOND && burst > 0
    ensures Spread(rate, burst, Spaced(n, gap), i, j)
  {
    assert rate * (j * gap - i * gap) == (rate * gap) * (j - i);
    TimesGrow(j - i, SECOND, rate * gap);
  }

  lemma SpacedPaces(rate: nat, burst: nat, max: nat, n: nat, gap: nat)
    requires rate * gap <= SECOND * max && burst > max
    ensures AllPaced(rate, burst, max, Spaced(n, gap), rate * gap, SECOND)
  {
    forall k: nat | k < n
      ensures Paced(rate, burst, max, Spaced(n, gap), rate * gap, SECOND, k)
    {
      SpacedIsPaced(rate, burst, max, n, gap, k);
    }
  }

  lemma SpacedSpreads(l: Limits, n: nat, gap: nat)
    requires l.packetsPerSecond > 0 ==> l.packetsPerSecond * gap >= SECOND && l.burstPackets > 0
    ensures AllSpread(l, Spaced(n, gap))
  {
    if l.packetsPerSecond > 0 {
      forall i: nat, j: nat | i <= j < n
        ensures Spread(l.packetsPerSecond, l.burstPackets, Spaced(n, gap), i, j)
      {
        SpacedIsSpread(l.packetsPerSecond, l.burstPackets, n, gap, i, j);
      }
    }
  }

  lemma SpacedIsEnough(rate: nat, burst: nat, max: nat, gap: nat)
    requires rate * gap < SECOND * max
    ensures max * (burst * SECOND + 1) >= burst + rate * (burst * gap)
    ensures (burst * SECOND) * gap == (burst * gap) * SECOND
  {
    assert max * (burst * SECOND + 1) == burst * (SECOND * max) + max;
    assert rate * (burst * gap) == burst * (rate * gap);
    TimesGrow(burst, rate * gap + 1, SECOND * max);
    assert burst * (rate * gap + 1) == burst * (rate * gap) + burst;
  }

  /** A packet burst of one, and a gap that restores less than the largest datagram. */
  lemma OneByOne(l: Limits, max: nat, gap: nat) returns (s: seq<Call>)
    requires l.bytesPerSecond > 0 && l.burstBytes > max && l.bytesPerSecond * gap < SECOND * max
    requires l.packetsPerSecond > 0 ==> l.packetsPerSecond * gap >= SECOND && l.burstPackets > 0
    ensures Script(l, max, s, true)
  {
    var rate: nat, burst: nat := l.bytesPerSecond, l.burstBytes;
    var n := burst * SECOND + 1;
    SpacedRises(n, gap);
    SpacedIsEnough(rate, burst, max, gap);
    SpacedPaces(rate, burst, max, n, gap);
    SpacedSpreads(l, n, gap);
    s := PacedIsScript(l, max, Spaced(n, gap), rate * gap, SECOND, burst * gap);
  }

  // ----- one ahead, then evenly: a packet burst of two or more -----

  /** Datagram k > 0 goes out at the first nanosecond by which k - 1 packet tokens are restored. */
  ghost function EvenAt(p: nat, k: nat): nat
    requires p > 0
  {
    if k == 0 then 0 else CeilDiv((k - 1) * SECOND, p)
  }

  lemma EvenIs(p: nat, k: nat)
    requires p > 0 && k > 0
    ensures (k - 1) * SECOND <= p * EvenAt(p, k) < (k - 1) * SECOND + p
  {
    CeilDivIs((k - 1) * SECOND, p);
  }

  ghost function Even(n: nat, p: nat): (times: seq<nat>)
    requires p > 0
    ensures |times| == n && forall k | 0 <= k < n :: times[k] == EvenAt(p, k)
  {
    seq(n, k requires 0 <= k < n => EvenAt(p, k))
  }

  lemma EvenGrows(p: nat, i: nat, j: nat)
    requires p > 0 && i <= j
    ensures EvenAt(p, i) <= EvenAt(p, j)
  {
    if 0 < i {
      EvenIs(p, i);
      EvenIs(p, j);
      assert p * (EvenAt(p, j) + 1) == p * EvenAt(p, j) + p;
      TimesOrder(p, EvenAt(p, i), EvenAt(p, j) + 1);
    }
  }

  lemma EvenEnds(p: nat, d: nat)
    requires p > 0
    ensures EvenAt(p, p * d + 1) == d * SECOND
  {
    var o := EvenAt(p, p * d + 1);
    EvenIs(p, p * d + 1);
    assert p * d * SECOND == p * (d * SECOND);
    TimesOrderEq(p, d * SECOND, o);
    assert p * (d * SECOND + 1) == p * (d * SECOND) + p;
    TimesOrder(p, o, d * SECOND + 1);
  }

  /** Products a and b of the rate with the times of datagrams i and j. */
  lemma SpreadEnough(burst: nat, a: int, b: int, i: nat, j: nat)
    requires burst >= 2 && i <= j && (if i == 0 then a == 0 else a < i * SECOND)
    requires if j == 0 then b == 0 else (j - 1) * SECOND <= b
    ensures SECOND * (j + 1 - i) <= SECOND * burst + (b - a)
  {
  }

  lemma EvenIsSpread(rate: nat, burst: nat, n: nat, i: nat, j: nat)
    requires 0 < rate <= SECOND && burst >= 2 && i <= j < n
    ensures Spread(rate, burst, Even(n, rate), i, j)
  {
    var from: int, to: int := EvenAt(rate, i), EvenAt(rate, j);
    if i > 0 {
      EvenIs(rate, i);
    }
    if j > 0 {
      EvenIs(rate, j);
    }
    SpreadEnough(burst, rate * from, rate * to, i, j);
    RoomOf(rate, burst, from, to);
  }

  lemma RoomOf(rate: int, burst: int, from: int, to: int)
    ensures Room(rate, burst, to - from) == SECOND * burst + (rate * to - rate * from)
  {
  }

  lemma EvenLeavesRoom(rate: nat, burst: nat, max: nat, p: nat, o: nat, k: nat)
    requires p > 0 && rate <= p * max && burst > 2 * max && (k > 0 ==> (k - 1) * SECOND <= p * o)
    ensures p * (burst + (rate * o) / SECOND) >= rate * k + p * max
  {
    var q := (rate * o) / SECOND;
    TimesGrow(p, 2 * max + 1, burst);
    assert p * (2 * max + 1) == p * max + p * max + p;
    assert p * (burst + q) == p * burst + p * q;
    if k > 0 {
      TimesGrow(rate, (k - 1) * SECOND, p * o);
      assert rate * (p * o) == p * (rate * o) && rate * ((k - 1) * SECOND) == SECOND * (rate * (k - 1));
      TimesGrow(p, rate * o, SECOND * q + SECOND);
      assert p * (SECOND * q + SECOND) == SECOND * (p * q) + SECOND * p;
      assert rate * k == rate * (k - 1) + rate;
    } else {
      TimesGrow(p, 0, q);
    }
  }

  lemma EvenIsSlow(rate: nat, max: nat, p: nat, o: nat, k: nat)
    requires 0 < p <= SECOND && rate <= p * max && k > 0 && p * o < (k - 1) * SECOND + p
    ensures p * (rate * o) <= SECOND * (rate * (k - 1) + p * max)
  {
    TimesGrow(rate, p * o, (k - 1) * SECOND + p);
    assert rate * (p * o) == p * (rate * o);
    assert rate * ((k - 1) * SECOND + p) == SECOND * (rate * (k - 1)) + rate * p;
    TimesGrow(p, rate, p * max);
    TimesGrow(p * max, p, SECOND);
    assert p * (p * max) == (p * max) * p;
    assert rate * p == p * rate;
    assert (p * max) * SECOND == SECOND * (p * max);
  }

  /** x is a pace's rate * time and y its max * datagrams left, in the middle of p * d + 1 of them. */
  lemma FastEnough(rate: nat, p: nat, x: nat, y: nat, before: int, left: nat, d: nat)
    requires p > 0 && before + left == p * d && p * x >= SECOND * (rate * before) && p * y >= rate * left
    ensures rate * (d * SECOND) <= x + SECOND * y
  {
    var goal := rate * (d * SECOND);
    assert rate * (p * d) == rate * before + rate * left;
    assert p * goal == SECOND * (rate * (p * d));
    assert p * (x + SECOND * y) == p * x + SECOND * (p * y);
    TimesOrderEq(p, goal, x + SECOND * y);
  }

  lemma EvenIsFast(rate: nat, max: nat, p: nat, o: nat, k: nat, d: nat, left: nat)
    requires p > 0 && rate <= p * max && left + k == p * d + 1 && (k > 0 ==> (k - 1) * SECOND <= p * o)
    ensures rate * (d * SECOND) <= rate * o + SECOND * (max * left)
  {
    var before := k - 1;
    assert p * (rate * o) >= SECOND * (rate * before) by {
      TimesGrow(rate, before * SECOND, p * o);
      assert rate * (before * SECOND) == SECOND * (rate * before);
      assert rate * (p * o) == p * (rate * o);
    }
    assert p * (max * left) >= rate * left by {
      TimesGrow(left, rate, p * max);
      assert p * (max * left) == left * (p * max);
    }
    FastEnough(rate, p, rate * o, max * left, before, left, d);
  }

  lemma EvenIsPaced(rate: nat, burst: nat, max: nat, p: nat, d: nat, n: nat, k: nat)
    requires 0 < p <= SECOND && rate <= p * max && burst > 2 * max && k < n == p * d + 2
    ensures Paced(rate, burst, max, Even(n, p), rate, p, k)
  {
    if k > 0 {
      EvenIs(p, k);
      EvenIsSlow(rate, max, p, EvenAt(p, k), k);
    }
    EvenLeavesRoom(rate, burst, max, p, EvenAt(p, k), k);
    EvenEnds(p, d);
    EvenIsFast(rate, max, p, EvenAt(p, k), k, d, n - 1 - k);
  }

  lemma EvenRises(n: nat, p: nat)
    requires p > 0
    ensures Rising(Even(n, p))
  {
    forall i, j | 0 <= i < j < n
      ensures EvenAt(p, i) <= EvenAt(p, j)
    {
      EvenGrows(p, i, j);
    }
  }

  lemma EvenPaces(rate: nat, burst: nat, max: nat, p: nat, d: nat, n: nat)
    requires 0 < p <= SECOND && rate <= p * max && burst > 2 * max && n == p * d + 2
    ensures AllPaced(rate, burst, max, Even(n, p), rate, p)
  {
    forall k: nat | k < n
      ensures Paced(rate, burst, max, Even(n, p), rate, p, k)
    {
      EvenIsPaced(rate, burst, max, p, d, n, k);
    }
  }

  lemma EvenSpreads(l: Limits, n: nat)
    requires 0 < l.packetsPerSecond <= SECOND && l.burstPackets >= 2
    ensures AllSpread(l, Even(n, l.packetsPerSecond))
  {
    forall i: nat, j: nat | i <= j < n
      ensures Spread(l.packetsPerSecond, l.burstPackets, Even(n, l.packetsPerSecond), i, j)
    {
      EvenIsSpread(l.packetsPerSecond, l.burstPackets, n, i, j);
    }
  }

  lemma EvenIsEnough(rate: nat, burst: nat, max: nat, p: nat)
    requires rate < p * max
    ensures max * (p * burst + 2) >= burst + rate * burst
  {
    TimesGrow(burst, rate + 1, p * max);
    assert burst * (rate + 1) == rate * burst + burst && max * (p * burst + 2) == burst * (p * max) + 2 * max;
  }

  /** A packet burst of two or more, and a packet rate that outruns the byte rate. */
  lemma Evenly(l: Limits, max: nat) returns (s: seq<Call>)
    requires 0 < l.packetsPerSecond <= SECOND && l.burstPackets >= 2
    requires 0 < l.bytesPerSecond < l.packetsPerSecond * max && l.burstBytes > 2 * max
    ensures Script(l, max, s, true)
  {
    var rate: nat, p: nat, d: nat := l.bytesPerSecond, l.packetsPerSecond, l.burstBytes;
    var n := p * d + 2;
    EvenEnds(p, d);
    EvenRises(n, p);
    EvenIsEnough(rate, d, max, p);
    EvenPaces(rate, d, max, p, d, n);
    EvenSpreads(l, n);
    s := PacedIsScript(l, max, Even(n, p), rate, p, d);
  }

  // ----- empty datagrams empty the packet burst -----

  lemma EmptyOnes(l: Limits, max: nat) returns (s: seq<Call>)
    requires l.packetsPerSecond > 0 && l.burstPackets > 0 && (l.bytesPerSecond > 0 ==> l.burstBytes > 0)
    ensures Script(l, max, s, false)
  {
    s := seq(l.burstPackets, _ => Call(0, 0));
    forall i: nat, j: nat | i <= j < |s|
      ensures Under(s, false, l.packetsPerSecond, l.burstPackets, i, j)
      ensures l.bytesPerSecond > 0 ==> Under(s, true, l.bytesPerSecond, l.burstBytes, i, j)
    {
      NoLoad(s, i);
      NoLoad(s, j + 1);
    }
    forall bytes | Rate(l, bytes) > 0
      ensures Obeys(s, bytes, Rate(l, bytes), Burst(l, bytes))
    {
    }
  }

  lemma {:induction false} NoLoad(s: seq<Call>, k: nat)
    requires k <= |s| && Small(s, 0)
    ensures Load(s, k) == 0
  {
    if k > 0 {
      NoLoad(s, k - 1);
    }
  }
}
