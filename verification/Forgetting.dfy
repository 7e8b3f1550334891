/** When the per-client limiter's forgetting shows: exactly which limits let a client that pauses get more
    than a limiter with full memory would give it (internal/shaping/shaping.go), on the datagrams that the
    packet path lets through (internal/frontend/frontend.go). */
module Forgetting {
  import opened Basics
  import opened Shaping
  import opened ClientLimiting

  /** No call is for more than max bytes: the packet path drops larger datagrams before the limiter. */
  ghost predicate Sized(max: nat, calls: seq<ClientCall>) {
    forall i | 0 <= i < |calls| :: calls[i].n <= max
  }

  ghost predicate Since(start: int, calls: seq<ClientCall>) {
    forall i | 0 <= i < |calls| :: calls[i].now >= start
  }

  /** The sweeping limiter and full memory answer the last call of an ordered run differently. */
  ghost predicate Differs(c: Config, calls: seq<ClientCall>) {
    calls != [] && Ordered(calls) && CacheSays(c, calls) != MemorySays(c, calls)
  }

  // ----- one client's calls are one bucket's stream -----

  ghost function Of(a: Addr, s: seq<Call>): (calls: seq<ClientCall>)
    ensures |calls| == |s| && forall i | 0 <= i < |s| :: calls[i] == ClientCall(a, s[i].n, s[i].now)
  {
    if s == [] then [] else Of(a, s[..|s| - 1]) + [ClientCall(a, s[|s| - 1].n, s[|s| - 1].now)]
  }

  ghost function Mine(calls: seq<ClientCall>, a: Addr): seq<Call> {
    if calls == [] then []
    else
      var x := calls[|calls| - 1];
      Mine(calls[..|calls| - 1], a) + if x.addr == a then [Call(x.n, x.now)] else []
  }

  /** The bucket that a client's calls leave, if nothing is forgotten: full at the first of them. */
  ghost function BucketOf(l: Limits, s: seq<Call>, now: int): Tokens {
    if s == [] then Fresh(l, now) else Stream(l, s[0].now, s).After(|s|)
  }

  ghost predicate Judges(l: Limits, s: seq<Call>)
    requires s != []
  {
    Stream(l, s[0].now, s).Admitted(|s| - 1)
  }

  lemma {:induction false} StreamPrefix(l: Limits, created: int, s: seq<Call>, k: nat, j: nat)
    requires j <= k <= |s|
    ensures Stream(l, created, s[..k]).After(j) == Stream(l, created, s).After(j)
  {
    if j > 0 {
      StreamPrefix(l, created, s, k, j - 1);
    }
  }

  lemma AdmittedPrefix(l: Limits, created: int, s: seq<Call>, k: nat, j: nat)
    requires j < k <= |s|
    ensures Stream(l, created, s[..k]).Admitted(j) == Stream(l, created, s).Admitted(j)
  {
    StreamPrefix(l, created, s, k, j);
  }

  lemma BucketNext(l: Limits, s: seq<Call>, x: Call)
    ensures var step := AllowStep(l, BucketOf(l, s, x.now), x.n, x.now);
      BucketOf(l, s + [x], x.now) == step.0 && Judges(l, s + [x]) == step.1
  {
    var all := s + [x];
    StreamPrefix(l, all[0].now, all, |s|, |s|);
    assert all[..|s|] == s;
  }

  lemma {:induction false} MemoryIsStream(c: Config, calls: seq<ClientCall>, a: Addr, now: int)
    ensures a in MemoryAfter(c, calls) <==> Mine(calls, a) != []
    ensures Remembered(c, MemoryAfter(c, calls), a, now) == BucketOf(c.limits, Mine(calls, a), now)
  {
    if calls != [] {
      var n := |calls| - 1;
      var x := calls[n];
      MemoryIsStream(c, calls[..n], a, x.now);
      BucketNext(c.limits, Mine(calls[..n], a), Call(x.n, x.now));
      MemoryIsStream(c, calls[..n], a, now);
      assert x.addr != a ==> Mine(calls, a) == Mine(calls[..n], a);
    }
  }

  lemma MemorySaysIs(c: Config, calls: seq<ClientCall>, a: Addr, x: Call)
    ensures MemorySays(c, calls + [ClientCall(a, x.n, x.now)]) == Judges(c.limits, Mine(calls, a) + [x])
  {
    var all := calls + [ClientCall(a, x.n, x.now)];
    assert all[..|calls|] == calls;
    MemoryIsStream(c, calls, a, x.now);
    BucketNext(c.limits, Mine(calls, a), x);
  }

  lemma CacheNext(c: Config, calls: seq<ClientCall>, a: Addr, x: Call, all: seq<ClientCall>)
    requires all == calls + [ClientCall(a, x.n, x.now)]
    ensures var sh := CacheAfter(c, all)[ClientShard(a)];
      var step := AllowStep(c.limits, Found(c, CacheAfter(c, calls)[ClientShard(a)].entries, a, x.now), x.n, x.now);
      && a in sh.entries && sh.entries[a] == Entry(step.0, Unix(x.now))
      && CacheSays(c, all) == step.1
  {
    assert all[..|calls|] == calls;
  }

  /** The cache holds, for a client forgotten before it made the calls s, the bucket they leave. */
  ghost predicate Holds(c: Config, calls: seq<ClientCall>, a: Addr, s: seq<Call>) {
    var sh := CacheAfter(c, calls)[ClientShard(a)];
    if s == [] then a !in sh.entries else a in sh.entries && sh.entries[a].bucket == BucketOf(c.limits, s, 0)
  }

  lemma HoldsNext(c: Config, calls: seq<ClientCall>, a: Addr, s: seq<Call>, x: Call, all: seq<ClientCall>)
    requires Holds(c, calls, a, s) && all == calls + [ClientCall(a, x.n, x.now)]
    ensures Holds(c, all, a, s + [x]) && CacheSays(c, all) == Judges(c.limits, s + [x])
  {
    CacheNext(c, calls, a, x, all);
    BucketNext(c.limits, s, x);
  }

  /** A forgotten client that calls alone is judged by a bucket full at the first of those calls. */
  lemma {:induction false} CacheIsStream(
      c: Config, before: seq<ClientCall>, a: Addr, s: seq<Call>, all: seq<ClientCall>)
    requires a !in CacheAfter(c, before)[ClientShard(a)].entries && all == before + Of(a, s)
    ensures Holds(c, all, a, s)
  {
    if s == [] {
      assert all == before;
    } else {
      var n := |s| - 1;
      var prior := before + Of(a, s[..n]);
      CacheIsStream(c, before, a, s[..n], prior);
      assert all == prior + [ClientCall(a, s[n].n, s[n].now)];
      HoldsNext(c, prior, a, s[..n], s[n], all);
      assert s == s[..n] + [s[n]];
    }
  }

  lemma CacheSaysIs(c: Config, before: seq<ClientCall>, a: Addr, s: seq<Call>, x: Call)
    requires a !in CacheAfter(c, before)[ClientShard(a)].entries
    ensures CacheSays(c, before + Of(a, s) + [ClientCall(a, x.n, x.now)]) == Judges(c.limits, s + [x])
  {
    CacheIsStream(c, before, a, s, before + Of(a, s));
    HoldsNext(c, before + Of(a, s), a, s, x, before + Of(a, s) + [ClientCall(a, x.n, x.now)]);
  }

  // ----- scripts -----

  ghost function Load(s: seq<Call>, k: nat): nat
    requires k <= |s|
  {
    if k == 0 then 0 else Load(s, k - 1) + s[k - 1].n
  }

  /** What the first k calls weigh, in bytes or in packets. */
  ghost function Weight(s: seq<Call>, bytes: bool, k: nat): nat
    requires k <= |s|
  {
    if bytes then Load(s, k) else k
  }

  ghost predicate Sorted(s: seq<Call>) {
    forall i, j | 0 <= i < j < |s| :: s[i].now <= s[j].now
  }

  ghost predicate Small(s: seq<Call>, max: nat) {
    forall i | 0 <= i < |s| :: s[i].n <= max
  }

  /** A second's worth of what may be used within d ns: burst + rate * time, in whole numbers. */
  function Room(rate: int, burst: int, d: int): int {
    SECOND * burst + rate * d
  }

  /** Calls i to j together stay under burst + rate * time. */
  ghost predicate Under(s: seq<Call>, bytes: bool, rate: int, burst: int, i: nat, j: nat)
    requires i <= j < |s|
  {
    SECOND * (Weight(s, bytes, j + 1) - Weight(s, bytes, i)) <= Room(rate, burst, s[j].now - s[i].now)
  }

  ghost predicate Obeys(s: seq<Call>, bytes: bool, rate: int, burst: int) {
    forall i: nat, j: nat | i <= j < |s| :: Under(s, bytes, rate, burst, i, j)
  }

  /** The rate and burst of one dimension. */
  function Rate(l: Limits, bytes: bool): int {
    if bytes then l.bytesPerSecond else l.packetsPerSecond
  }

  function Burst(l: Limits, bytes: bool): int {
    if bytes then l.burstBytes else l.burstPackets
  }

  ghost predicate ObeysBoth(l: Limits, s: seq<Call>) {
    forall bytes | Rate(l, bytes) > 0 :: Obeys(s, bytes, Rate(l, bytes), Burst(l, bytes))
  }

  /** Calls, timed from 0 to a whole second, that a full bucket admits and that leave it empty in one
      dimension. */
  ghost predicate Script(l: Limits, max: nat, s: seq<Call>, bytes: bool) {
    && s != [] && Sorted(s) && s[0].now == 0 && s[|s| - 1].now % SECOND == 0
    && Small(s, max) && ObeysBoth(l, s) && Rate(l, bytes) > 0
    && SECOND * Weight(s, bytes, |s|) == Room(Rate(l, bytes), Burst(l, bytes), s[|s| - 1].now)
  }

  ghost function Shift(s: seq<Call>, t: int): (r: seq<Call>)
    ensures |r| == |s| && forall i | 0 <= i < |s| :: r[i] == Call(s[i].n, s[i].now + t)
  {
    seq(|s|, i requires 0 <= i < |s| => Call(s[i].n, s[i].now + t))
  }

  lemma {:induction false} ShiftLoad(s: seq<Call>, t: int, k: nat)
    requires k <= |s|
    ensures Load(Shift(s, t), k) == Load(s, k)
  {
    if k > 0 {
      ShiftLoad(s, t, k - 1);
    }
  }

  lemma {:induction false} LoadConcat(s: seq<Call>, r: seq<Call>, k: nat)
    requires k <= |r|
    ensures Load(s + r, |s| + k) == Load(s, |s|) + Load(r, k)
  {
    if k == 0 {
      LoadPrefix(s, r, |s|);
    } else {
      LoadConcat(s, r, k - 1);
    }
  }

  lemma {:induction false} LoadPrefix(s: seq<Call>, r: seq<Call>, k: nat)
    requires k <= |s|
    ensures Load(s + r, k) == Load(s, k)
  {
    if k > 0 {
      LoadPrefix(s, r, k - 1);
    }
  }

  // ----- scripts against the law of the bucket -----

  ghost function DimOf(st: Stream, bytes: bool): Dim {
    if bytes then st.Bytes() else st.Packets()
  }

  lemma {:induction false} ClockIsNow(st: Stream, j: nat)
    requires Sorted(st.calls) && j < |st.calls| && st.created == st.calls[0].now
    ensures st.Clock(j) == st.calls[j].now
  {
    if j > 0 {
      ClockIsNow(st, j - 1);
    }
  }

  lemma {:induction false} OfferedIsWeight(st: Stream, bytes: bool, i: nat, j: nat)
    requires i <= j <= |st.calls|
    ensures st.Offered(DimOf(st, bytes), i, j)
         == (Weight(st.calls, bytes, j) - Weight(st.calls, bytes, i)) as real
  {
    if i < j {
      OfferedIsWeight(st, bytes, i, j - 1);
    }
  }

  lemma RoomIsCurve(rate: int, burst: int, from: int, to: int, used: int)
    ensures used as real <= burst as real + Gain(rate, from, to) <==> SECOND * used <= Room(rate, burst, to - from)
  {
    var g := rate * (to - from);
    assert Gain(rate, from, to) == g as real / SECOND as real;
  }

  lemma UnderFits(st: Stream, bytes: bool, i: nat, j: nat)
    requires Sorted(st.calls) && i <= j < |st.calls| && st.created == st.calls[0].now
    requires Under(st.calls, bytes, Rate(st.limits, bytes), Burst(st.limits, bytes), i, j)
    ensures var d := DimOf(st, bytes);
      st.Offered(d, i, j) + d.costs[j] <= d.burst as real + Gain(d.rate, st.Clock(i), st.Clock(j))
  {
    var d := DimOf(st, bytes);
    ClockIsNow(st, i);
    ClockIsNow(st, j);
    OfferedIsWeight(st, bytes, i, j + 1);
    RoomIsCurve(d.rate, d.burst, st.calls[i].now, st.calls[j].now,
                Weight(st.calls, bytes, j + 1) - Weight(st.calls, bytes, i));
  }

  lemma ObeyingConforms(st: Stream, bytes: bool)
    requires Sorted(st.calls) && (st.calls != [] ==> st.created == st.calls[0].now)
    requires Obeys(st.calls, bytes, Rate(st.limits, bytes), Burst(st.limits, bytes))
    ensures st.Conforming(DimOf(st, bytes))
  {
    var d := DimOf(st, bytes);
    forall i: nat, j: nat | i <= j < |st.calls|
      ensures st.Offered(d, i, j) + d.costs[j] <= d.burst as real + Gain(d.rate, st.Clock(i), st.Clock(j))
    {
      UnderFits(st, bytes, i, j);
    }
  }

  lemma ScriptIsAdmitted(l: Limits, s: seq<Call>, t: int, j: nat)
    requires Normal(l) && Sorted(s) && j < |s| && s[0].now == 0 && ObeysBoth(l, s)
    ensures Stream(l, t, Shift(s, t)).Admitted(j)
  {
    var st := Stream(l, t, Shift(s, t));
    forall bytes | Rate(l, bytes) > 0
      ensures st.Conforming(DimOf(st, bytes))
    {
      ShiftObeys(s, t, bytes, Rate(l, bytes), Burst(l, bytes));
      ObeyingConforms(st, bytes);
    }
    assert l.packetsPerSecond > 0 ==> Rate(l, false) > 0 && st.Conforming(DimOf(st, false));
    assert l.bytesPerSecond > 0 ==> Rate(l, true) > 0 && st.Conforming(DimOf(st, true));
    st.ConformingIsNeverDenied(j);
  }

  lemma ShiftObeys(s: seq<Call>, t: int, bytes: bool, rate: int, burst: int)
    requires Obeys(s, bytes, rate, burst)
    ensures Obeys(Shift(s, t), bytes, rate, burst)
  {
    var r := Shift(s, t);
    forall i: nat, j: nat | i <= j < |r|
      ensures Under(r, bytes, rate, burst, i, j)
    {
      assert Under(s, bytes, rate, burst, i, j);
      ShiftLoad(s, t, i);
      ShiftLoad(s, t, j + 1);
    }
  }

  lemma {:induction false} AllTaken(st: Stream, bytes: bool, j: nat)
    requires j <= |st.calls| && forall i: nat | i < j :: st.Admitted(i)
    ensures st.Taken(DimOf(st, bytes), 0, j) == st.Offered(DimOf(st, bytes), 0, j)
  {
    if j > 0 {
      AllTaken(st, bytes, j - 1);
    }
  }

  lemma WholeIsBounded(st: Stream, bytes: bool, n: nat)
    requires Normal(st.limits) && Rate(st.limits, bytes) > 0 && n == |st.calls| > 0
    requires Sorted(st.calls) && st.created == st.calls[0].now && forall j: nat | j < n :: st.Admitted(j)
    ensures Weight(st.calls, bytes, n) as real
         <= Burst(st.limits, bytes) as real + Gain(Rate(st.limits, bytes), st.calls[0].now, st.calls[n - 1].now)
  {
    AllTaken(st, bytes, n);
    OfferedIsWeight(st, bytes, 0, n);
    ClockIsNow(st, 0);
    ClockIsNow(st, n - 1);
    st.EveryWindowIsBounded(DimOf(st, bytes), 0, n - 1);
  }

  lemma NotAllAdmitted(l: Limits, s: seq<Call>, bytes: bool, t: int, u: int, st: Stream, n: nat)
    requires Normal(l) && Rate(l, bytes) > 0 && n == |s| > 0 && Sorted(s) && s[0].now == 0
    requires SECOND * Weight(s, bytes, n) == Room(Rate(l, bytes), Burst(l, bytes), s[n - 1].now)
    requires t + s[n - 1].now <= u && Burst(l, bytes) as real > Gain(Rate(l, bytes), t + s[n - 1].now, u)
    requires st.limits == l && st.created == t && st.calls == Shift(s, t) + Shift(s, u)
    ensures exists j: nat :: j < |st.calls| && !st.Admitted(j)
  {
    if forall j: nat | j < |st.calls| :: st.Admitted(j) {
      TwiceSorted(s, t, u);
      WholeIsBounded(st, bytes, n + n);
      TwiceTheWeight(s, bytes, t, u);
      TwiceIsOver(Rate(l, bytes), Burst(l, bytes), s[n - 1].now, t, u, Weight(s, bytes, n));
    }
  }

  lemma TwiceSorted(s: seq<Call>, t: int, u: int)
    requires s != [] && Sorted(s) && s[0].now == 0 && t + s[|s| - 1].now <= u
    ensures Sorted(Shift(s, t) + Shift(s, u))
  {
    var r := Shift(s, t) + Shift(s, u);
    forall i, j | 0 <= i < j < |r|
      ensures r[i].now <= r[j].now
    {
      if i < |s| <= j {
        assert s[i].now <= s[|s| - 1].now && 0 <= s[j - |s|].now;
      }
    }
  }

  lemma FirstTimeIsAdmitted(l: Limits, s: seq<Call>, t: int, more: seq<Call>, j: nat)
    requires Normal(l) && Sorted(s) && j < |s| && s[0].now == 0 && ObeysBoth(l, s)
    ensures Stream(l, t, Shift(s, t) + more).Admitted(j)
  {
    ScriptIsAdmitted(l, s, t, j);
    AdmittedPrefix(l, t, Shift(s, t) + more, |s|, j);
    assert (Shift(s, t) + more)[..|s|] == Shift(s, t);
  }

  lemma DeniedLater(l: Limits, s: seq<Call>, t: int, more: seq<Call>, j: nat)
    requires Normal(l) && s != [] && Sorted(s) && s[0].now == 0 && ObeysBoth(l, s)
    requires j < |s| + |more| && !Stream(l, t, Shift(s, t) + more).Admitted(j)
    ensures j >= |s|
  {
    if j < |s| {
      FirstTimeIsAdmitted(l, s, t, more, j);
    }
  }

  /** A script played twice, with a pause between that does not refill what it emptied, is too much for
      one bucket: some call of the second time is denied. */
  lemma SecondTimeIsDenied(l: Limits, max: nat, s: seq<Call>, bytes: bool, t: int, u: int) returns (k: nat)
    requires Normal(l) && Script(l, max, s, bytes) && t + s[|s| - 1].now <= u
    requires Burst(l, bytes) as real > Gain(Rate(l, bytes), t + s[|s| - 1].now, u)
    ensures k < |s| && !Stream(l, t, Shift(s, t) + Shift(s, u)).Admitted(|s| + k)
  {
    var st, n := Stream(l, t, Shift(s, t) + Shift(s, u)), |s|;
    NotAllAdmitted(l, s, bytes, t, u, st, n);
    var j: nat :| j < |st.calls| && !st.Admitted(j);
    DeniedLater(l, s, t, Shift(s, u), j);
    k := j - n;
  }

  lemma TwiceTheWeight(s: seq<Call>, bytes: bool, t: int, u: int)
    ensures Weight(Shift(s, t) + Shift(s, u), bytes, |s| + |s|) == 2 * Weight(s, bytes, |s|)
  {
    ShiftLoad(s, t, |s|);
    ShiftLoad(s, u, |s|);
    LoadConcat(Shift(s, t), Shift(s, u), |s|);
  }

  lemma TwiceIsOver(rate: int, burst: int, last: int, t: int, u: int, w: nat)
    requires SECOND * w == Room(rate, burst, last) && burst as real > Gain(rate, t + last, u)
    ensures (2 * w) as real > burst as real + Gain(rate, t, u + last)
  {
    RoomIsCurve(rate, 0, t + last, u, burst);
    RoomIsCurve(rate, burst, t, u + last, 2 * w);
    assert rate * (u + last - t) == rate * (u - (t + last)) + rate * last + rate * last;
  }

  // ----- a script shows the forgetting -----

  /** The last nanosecond of a second, and the first instant at which a client last seen then is
      swept. */
  function Edge(sec: nat): int {
    (sec + 1) * SECOND - 1
  }

  function Later(c: Config, sec: nat): int {
    Edge(sec) + c.ttl + 1
  }

  lemma SweepsOut(c: Config, sh: Shard, a: Addr, b: Addr, sec: nat)
    requires ValidConfig(c) && a != b && 0 <= sh.lastSweep <= sec
    requires a in sh.entries && sh.entries[a].lastSeen == sec
    ensures a !in LimitedShard(c, sh, b, 0, Later(c, sec)).0.entries
  {
    assert Unix(Later(c, sec) - c.ttl) == sec + 1;
  }

  lemma LastSeen(c: Config, calls: seq<ClientCall>, a: Addr, sec: nat)
    requires c.ttl > 0 && FromEpoch(calls) && calls != []
    requires calls[|calls| - 1].addr == a && calls[|calls| - 1].now == Edge(sec)
    ensures var sh := CacheAfter(c, calls)[ClientShard(a)];
      0 <= sh.lastSweep <= sec && a in sh.entries && sh.entries[a].lastSeen == sec
  {
    var n := |calls| - 1;
    var last := calls[n];
    RunTrims(c, calls, ClientShard(a), Edge(sec));
    assert calls == calls[..n] + [last];
    CacheNext(c, calls[..n], a, Call(last.n, last.now), calls);
    assert Unix(Edge(sec)) == sec;
  }

  /** Another client of the shard, calling then, sweeps it out. */
  lemma Forget(c: Config, calls: seq<ClientCall>, a: Addr, b: Addr, sec: nat, all: seq<ClientCall>)
    requires ValidConfig(c) && a != b && ClientShard(a) == ClientShard(b)
    requires FromEpoch(calls) && calls != [] && calls[|calls| - 1].addr == a && calls[|calls| - 1].now == Edge(sec)
    requires all == calls + [ClientCall(b, 0, Later(c, sec))]
    ensures a !in CacheAfter(c, all)[ClientShard(a)].entries
  {
    LastSeen(c, calls, a, sec);
    SweepsOut(c, CacheAfter(c, calls)[ClientShard(a)], a, b, sec);
    CacheAfterNext(c, calls, ClientCall(b, 0, Later(c, sec)), all);
  }

  lemma CacheAfterNext(c: Config, calls: seq<ClientCall>, x: ClientCall, all: seq<ClientCall>)
    requires all == calls + [x]
    ensures var i := ClientShard(x.addr);
      CacheAfter(c, all)[i] == LimitedShard(c, CacheAfter(c, calls)[i], x.addr, x.n, x.now).0
  {
    assert all[..|calls|] == calls;
  }

  lemma {:induction false} MineOf(a: Addr, s: seq<Call>)
    ensures Mine(Of(a, s), a) == s
  {
    if s != [] {
      MineOf(a, s[..|s| - 1]);
      assert Of(a, s)[..|s| - 1] == Of(a, s[..|s| - 1]);
    }
  }

  lemma {:induction false} MineThen(calls: seq<ClientCall>, a: Addr, s: seq<Call>)
    ensures Mine(calls + Of(a, s), a) == Mine(calls, a) + s
  {
    if s == [] {
      assert calls + Of(a, s) == calls;
    } else {
      var n := |s| - 1;
      MineThen(calls, a, s[..n]);
      assert (calls + Of(a, s))[..|calls| + n] == calls + Of(a, s[..n]);
      assert Mine(calls, a) + s == Mine(calls, a) + s[..n] + [s[n]];
    }
  }

  lemma MineSkips(calls: seq<ClientCall>, a: Addr, x: ClientCall)
    requires x.addr != a
    ensures Mine(calls + [x], a) == Mine(calls, a)
  {
    assert (calls + [x])[..|calls|] == calls;
  }

  /** A stream's verdict on its call k, as the verdict on the last of its first k + 1 calls. */
  lemma JudgesPrefix(l: Limits, s: seq<Call>, k: nat)
    requires k < |s|
    ensures Judges(l, s[..k] + [s[k]]) == Stream(l, s[0].now, s).Admitted(k)
  {
    assert s[..k] + [s[k]] == s[..k + 1];
    AdmittedPrefix(l, s[0].now, s, k + 1, k);
  }

  /** A run in which, after whatever came before, client a makes the first k + 1 of some calls. */
  ghost function Upto(before: seq<ClientCall>, a: Addr, r: seq<Call>, k: nat): seq<ClientCall>
    requires k < |r|
  {
    before + Of(a, r[..k]) + [ClientCall(a, r[k].n, r[k].now)]
  }

  lemma CacheJudges(c: Config, before: seq<ClientCall>, a: Addr, r: seq<Call>, k: nat)
    requires ValidConfig(c) && k < |r| && a !in CacheAfter(c, before)[ClientShard(a)].entries
    ensures CacheSays(c, Upto(before, a, r, k)) == Stream(c.limits, r[0].now, r).Admitted(k)
  {
    CacheSaysIs(c, before, a, r[..k], r[k]);
    JudgesPrefix(c.limits, r, k);
  }

  lemma MineUpto(before: seq<ClientCall>, a: Addr, q: seq<Call>, r: seq<Call>, k: nat)
    requires k < |r| && Mine(before, a) == q
    ensures Mine(before + Of(a, r[..k]), a) == (q + r)[..|q| + k]
  {
    MineThen(before, a, r[..k]);
    assert (q + r)[..|q| + k] == q + r[..k];
  }

  lemma MemoryJudges(c: Config, before: seq<ClientCall>, a: Addr, q: seq<Call>, r: seq<Call>, k: nat)
    requires k < |r| && q != [] && Mine(before, a) == q
    ensures MemorySays(c, Upto(before, a, r, k)) == Stream(c.limits, q[0].now, q + r).Admitted(|q| + k)
  {
    var all, j := q + r, |q| + k;
    MineUpto(before, a, q, r, k);
    MemorySaysIs(c, before + Of(a, r[..k]), a, r[k]);
    assert all[j] == r[k] && all[0] == q[0];
    JudgesPrefix(c.limits, all, j);
  }

  ghost predicate Tidy(max: nat, start: int, calls: seq<ClientCall>) {
    Ordered(calls) && Sized(max, calls) && Since(start, calls)
  }

  lemma TidyThen(max: nat, start: int, calls: seq<ClientCall>, x: ClientCall)
    requires Tidy(max, start, calls) && x.n <= max && start <= x.now
    requires calls != [] ==> calls[|calls| - 1].now <= x.now
    ensures Tidy(max, start, calls + [x])
  {
  }

  lemma {:induction false} TidyUpto(max: nat, start: int, before: seq<ClientCall>, a: Addr, r: seq<Call>, k: nat)
    requires k < |r| && Tidy(max, start, before) && InOrder(max, start, r)
    requires before != [] ==> before[|before| - 1].now <= r[0].now
    ensures Tidy(max, start, Upto(before, a, r, k))
  {
    if k == 0 {
      assert Upto(before, a, r, k) == before + [ClientCall(a, r[0].n, r[0].now)];
      TidyThen(max, start, before, ClientCall(a, r[0].n, r[0].now));
    } else {
      TidyUpto(max, start, before, a, r, k - 1);
      assert before + Of(a, r[..k]) == Upto(before, a, r, k - 1) by {
        assert r[..k][..k - 1] == r[..k - 1];
      }
      TidyThen(max, start, Upto(before, a, r, k - 1), ClientCall(a, r[k].n, r[k].now));
    }
  }

  lemma EdgeLater(sec: nat, last: nat)
    requires last % SECOND == 0
    ensures Edge(sec) + last == Edge(sec + last / SECOND)
  {
  }

  /** A client's calls in order, from some start on, none too large. */
  ghost predicate InOrder(max: nat, start: int, r: seq<Call>) {
    r != [] && Sorted(r) && Small(r, max) && start <= r[0].now
  }

  lemma ShiftInOrder(max: nat, s: seq<Call>, t: int, start: int)
    requires s != [] && Sorted(s) && Small(s, max) && s[0].now == 0 && start <= t
    ensures InOrder(max, start, Shift(s, t))
  {
  }

  lemma TidyOf(max: nat, start: int, a: Addr, q: seq<Call>)
    requires InOrder(max, start, q)
    ensures Tidy(max, start, Of(a, q))
  {
    TidyUpto(max, start, [], a, q, |q| - 1);
    assert Upto([], a, q, |q| - 1) == Of(a, q);
  }

  /** The run up to the pause: client a's calls, and another client whose call sweeps a out. */
  lemma Pause(c: Config, max: nat, q: seq<Call>, start: nat, sec: nat, a: Addr, b: Addr)
      returns (before: seq<ClientCall>)
    requires ValidConfig(c) && a != b && ClientShard(a) == ClientShard(b) && InOrder(max, start, q)
    requires q[|q| - 1].now == Edge(sec)
    ensures a !in CacheAfter(c, before)[ClientShard(a)].entries && Mine(before, a) == q
    ensures Tidy(max, start, before) && before != [] && before[|before| - 1].now == Later(c, sec)
  {
    var run, x := Of(a, q), ClientCall(b, 0, Later(c, sec));
    before := run + [x];
    TidyOf(max, start, a, q);
    MineOf(a, q);
    MineSkips(run, a, x);
    Forget(c, run, a, b, sec, before);
    assert q[0].now <= q[|q| - 1].now;
    TidyThen(max, start, run, x);
  }

  /** After it, a call that a new bucket admits and the old one denies. */
  lemma Resume(c: Config, max: nat, start: int, before: seq<ClientCall>, a: Addr, q: seq<Call>, r: seq<Call>, k: nat)
      returns (calls: seq<ClientCall>)
    requires ValidConfig(c) && a !in CacheAfter(c, before)[ClientShard(a)].entries && Mine(before, a) == q != []
    requires Tidy(max, start, before) && before != [] && InOrder(max, start, r) && before[|before| - 1].now <= r[0].now
    requires k < |r| && Stream(c.limits, r[0].now, r).Admitted(k)
    requires !Stream(c.limits, q[0].now, q + r).Admitted(|q| + k)
    ensures Differs(c, calls) && Tidy(max, start, calls)
  {
    CacheJudges(c, before, a, r, k);
    MemoryJudges(c, before, a, q, r, k);
    TidyUpto(max, start, before, a, r, k);
    calls := Upto(before, a, r, k);
  }

  /** A script played from t and again from u: its first calls q, its second calls r, and one of them
      that the bucket left by q denies though a full one admits it. */
  lemma PlayTwice(l: Limits, max: nat, s: seq<Call>, bytes: bool, t: int, u: int, last: int)
      returns (q: seq<Call>, r: seq<Call>, k: nat)
    requires Normal(l) && Script(l, max, s, bytes) && last == s[|s| - 1].now && t + last <= u
    requires Burst(l, bytes) as real > Gain(Rate(l, bytes), t + last, u)
    ensures InOrder(max, t, q) && InOrder(max, t, r) && r[0].now == u && q[|q| - 1].now == t + last
    ensures k < |r| && Stream(l, u, r).Admitted(k) && !Stream(l, q[0].now, q + r).Admitted(|q| + k)
  {
    q, r := Shift(s, t), Shift(s, u);
    assert 0 <= last by {
      assert s[0].now <= last;
    }
    ShiftInOrder(max, s, t, t);
    ShiftInOrder(max, s, u, t);
    k := SecondTimeIsDenied(l, max, s, bytes, t, u);
    ScriptIsAdmitted(l, s, u, k);
  }

  lemma ScriptEnds(l: Limits, max: nat, s: seq<Call>, bytes: bool) returns (last: nat)
    requires Script(l, max, s, bytes)
    ensures last == s[|s| - 1].now && last % SECOND == 0
  {
    assert s[0].now <= s[|s| - 1].now;
    last := s[|s| - 1].now;
  }

  /** Playing a script twice around the pause shows the forgetting, if the pause does not refill it. */
  lemma ScriptShows(c: Config, max: nat, s: seq<Call>, bytes: bool, first: nat, a: Addr, b: Addr)
      returns (calls: seq<ClientCall>)
    requires ValidConfig(c) && a != b && ClientShard(a) == ClientShard(b) && Script(c.limits, max, s, bytes)
    requires Burst(c.limits, bytes) as real > Gain(Rate(c.limits, bytes), 0, c.ttl + 1)
    ensures Differs(c, calls) && Tidy(max, Edge(first), calls)
  {
    var t := Edge(first);
    var last := ScriptEnds(c.limits, max, s, bytes);
    EdgeLater(first, last);
    var sec := first + last / SECOND;
    var u := Later(c, sec);
    GainShifts(Rate(c.limits, bytes), t + last, c.ttl + 1, u);
    var q, r, k := PlayTwice(c.limits, max, s, bytes, t, u, last);
    var before := Pause(c, max, q, t, sec, a, b);
    calls := Resume(c, max, t, before, a, q, r, k);
  }
}
