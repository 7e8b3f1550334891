/** The abuse protector: a fixed-window packet counter and a lazily swept set of source ports per
    address (internal/abuse/abuse.go). */
module Abuse {
  import opened Basics

  datatype Config = Config(maxPackets: int, maxSessions: int, ttl: int)

  datatype Entry = Entry(windowSecond: int, packets: int, lastSeen: int, lastSweep: int, sessions: map<Port, int>)
  datatype Shard = Shard(entries: map<Addr, Entry>, lastSweep: int)

  datatype Verdict = RateDenied | SessionDenied | Passed

  // ----- one call -----

  function KeptPorts(sessions: map<Port, int>, cutoff: int): map<Port, int> {
    map p | p in sessions && sessions[p] >= cutoff :: sessions[p]
  }

  /** sweepLocked: drop entries not seen since the cutoff, and old ports of the others. */
  function SweptEntries(entries: map<Addr, Entry>, cutoff: int): map<Addr, Entry> {
    map a | a in entries && entries[a].lastSeen >= cutoff ::
      entries[a].(sessions := KeptPorts(entries[a].sessions, cutoff))
  }

  function Swept(c: Config, sh: Shard, now: int): Shard {
    if Unix(now) - sh.lastSweep >= c.ttl / SECOND
    then Shard(SweptEntries(sh.entries, Unix(now - c.ttl)), Unix(now))
    else sh
  }

  function Found(sh: Shard, a: Addr, sec: int): Entry {
    if a in sh.entries then sh.entries[a] else Entry(sec, 0, 0, 0, map[])
  }

  /** The entry once this arrival is counted in its second. */
  function Counted(c: Config, e: Entry, sec: int): Entry {
    if c.maxPackets <= 0 then e.(lastSeen := sec)
    else if e.windowSecond == sec then e.(lastSeen := sec, packets := e.packets + 1)
    else e.(lastSeen := sec, windowSecond := sec, packets := 1)
  }

  predicate OverRate(c: Config, e: Entry) {
    c.maxPackets > 0 && e.packets > c.maxPackets
  }

  /** The entry once the port is recorded and, if due, old ports are swept. */
  function Recorded(c: Config, e: Entry, port: Port, now: int): Entry {
    var e' := e.(sessions := e.sessions[port := Unix(now)]);
    if Unix(now) - e'.lastSweep >= c.ttl / SECOND
    then e'.(sessions := KeptPorts(e'.sessions, Unix(now - c.ttl)), lastSweep := Unix(now))
    else e'
  }

  /** What the entry holds when the verdict falls, and the verdict. */
  function Judged(c: Config, e: Entry, port: Port, now: int): (Entry, Verdict) {
    var counted := Counted(c, e, Unix(now));
    if OverRate(c, counted) then (counted, RateDenied)
    else if c.maxSessions <= 0 then (counted, Passed)
    else
      var recorded := Recorded(c, counted, port, now);
      (recorded, if |recorded.sessions| > c.maxSessions then SessionDenied else Passed)
  }

  function Protect(c: Config, sh: Shard, a: Addr, port: Port, now: int): (Shard, Verdict) {
    var (e, v) := Judged(c, Found(sh, a, Unix(now)), port, now);
    (Swept(c, sh.(entries := sh.entries[a := e]), now), v)
  }

  type Shards = s: seq<Shard> | |s| == CLIENT_SHARDS witness seq(CLIENT_SHARDS, _ => Shard(map[], 0))

  function Protected(c: Config, shards: Shards, a: Addr, port: Port, now: int): (Shards, Verdict) {
    var (sh, v) := Protect(c, shards[ClientShard(a)], a, port, now);
    (shards[ClientShard(a) := sh], v)
  }

  function Empty(): Shards {
    seq(CLIENT_SHARDS, _ => Shard(map[], 0))
  }

  class Protector {
    const config: Config
    var shards: Shards

    constructor (maxPackets: int, maxSessions: int, ttl: int)
      ensures config == Config(maxPackets, maxSessions, if ttl <= 0 then 60 * SECOND else ttl)
      ensures shards == Empty()
    {
      config := Config(maxPackets, maxSessions, if ttl <= 0 then 60 * SECOND else ttl);
      shards := Empty();
    }

    static method SweepEntrySessions(sessions: map<Port, int>, cutoff: int) returns (r: map<Port, int>)
      ensures r == KeptPorts(sessions, cutoff)
    {
      r := sessions;
      var todo := sessions.Keys;
      while todo != {}
        invariant todo <= r.Keys <= sessions.Keys
        invariant forall p | p in r :: r[p] == sessions[p]
        invariant forall p | p in sessions && p !in todo :: p in r <==> sessions[p] >= cutoff
        decreases todo
      {
        var p :| p in todo;
        if r[p] < cutoff {
          r := r - {p};
        }
        todo := todo - {p};
      }
    }

    static method SweepEntries(entries: map<Addr, Entry>, cutoff: int) returns (r: map<Addr, Entry>)
      ensures r == SweptEntries(entries, cutoff)
    {
      r := entries;
      var todo := entries.Keys;
      while todo != {}
        invariant todo <= r.Keys <= entries.Keys
        invariant forall a | a in todo :: r[a] == entries[a]
        invariant forall a | a in entries && a !in todo :: a in r <==> entries[a].lastSeen >= cutoff
        invariant forall a | a in r && a !in todo ::
          r[a] == entries[a].(sessions := KeptPorts(entries[a].sessions, cutoff))
        decreases todo
      {
        var a :| a in todo;
        if r[a].lastSeen < cutoff {
          r := r - {a};
        } else {
          var kept := SweepEntrySessions(r[a].sessions, cutoff);
          r := r[a := r[a].(sessions := kept)];
        }
        todo := todo - {a};
      }
    }

    method SweepIfDue(idx: nat, now: int)
      requires idx < CLIENT_SHARDS
      modifies this
      ensures shards == old(shards)[idx := Swept(config, old(shards)[idx], now)]
    {
      var sh := shards[idx];
      if Unix(now) - sh.lastSweep >= config.ttl / SECOND {
        var swept := SweepEntries(sh.entries, Unix(now - config.ttl));
        shards := shards[idx := Shard(swept, Unix(now))];
      }
    }

    /** Leave the caller's entry in its shard and sweep the shard if due, as every exit of Allow does. */
    method Conclude(a: Addr, e: Entry, now: int)
      modifies this
      ensures var idx := ClientShard(a);
        var sh := old(shards)[idx];
        shards == old(shards)[idx := Swept(config, sh.(entries := sh.entries[a := e]), now)]
    {
      var idx := ClientShard(a);
      shards := shards[idx := shards[idx].(entries := shards[idx].entries[a := e])];
      SweepIfDue(idx, now);
    }

    method Allow(a: Addr, port: Port, now: int) returns (ok: bool, ghost verdict: Verdict)
      modifies this
      ensures (shards, verdict) == Protected(config, old(shards), a, port, now)
      ensures ok <==> verdict == Passed
    {
      var sh, sec := shards[ClientShard(a)], Unix(now);
      var e := if a in sh.entries then sh.entries[a] else Entry(sec, 0, 0, 0, map[]);
      e := e.(lastSeen := sec);
      if config.maxPackets > 0 {
        if e.windowSecond != sec {
          e := e.(windowSecond := sec, packets := 0);
        }
        e := e.(packets := e.packets + 1);
        if e.packets > config.maxPackets {
          assert Judged(config, Found(sh, a, sec), port, now) == (e, RateDenied);
          Conclude(a, e, now);
          return false, RateDenied;
        }
      }
      ghost var counted := Counted(config, Found(sh, a, sec), sec);
      assert e == counted && !OverRate(config, e);
      if config.maxSessions > 0 {
        e := e.(sessions := e.sessions[port := sec]);
        if sec - e.lastSweep >= config.ttl / SECOND {
          var kept := SweepEntrySessions(e.sessions, Unix(now - config.ttl));
          e := e.(sessions := kept, lastSweep := sec);
        }
        assert e == Recorded(config, counted, port, now);
        if |e.sessions| > config.maxSessions {
          assert Judged(config, Found(sh, a, sec), port, now) == (e, SessionDenied);
          Conclude(a, e, now);
          return false, SessionDenied;
        }
      }
      assert Judged(config, Found(sh, a, sec), port, now) == (e, Passed);
      Conclude(a, e, now);
      return true, Passed;
    }
  }

  /** No protector exactly when the configuration does not enable one. */
  method NewProtector(enabled: bool, maxPackets: int, maxSessions: int, ttl: int) returns (p: Protector?)
    ensures p == null <==> !enabled
    ensures p != null ==>
      && fresh(p) && p.shards == Empty()
      && p.config == Config(maxPackets, maxSessions, if ttl <= 0 then 60 * SECOND else ttl)
  {
    p := null;
    if enabled {
      p := new Protector(maxPackets, maxSessions, ttl);
    }
  }

  // ----- whole runs -----

  datatype Call = Call(addr: Addr, port: Port, now: int)

  /** Calls carry times from the epoch on, in order. */
  ghost predicate Ordered(calls: seq<Call>) {
    && (forall i | 0 <= i < |calls| :: calls[i].now >= 0)
    && forall i, j | 0 <= i < j < |calls| :: calls[i].now <= calls[j].now
  }

  ghost function After(c: Config, calls: seq<Call>): Shards {
    if calls == [] then Empty()
    else
      var x := calls[|calls| - 1];
      Protected(c, After(c, calls[..|calls| - 1]), x.addr, x.port, x.now).0
  }

  /** The verdict on call j. */
  ghost function VerdictOn(c: Config, calls: seq<Call>, j: nat): Verdict
    requires j < |calls|
  {
    Protected(c, After(c, calls[..j]), calls[j].addr, calls[j].port, calls[j].now).1
  }

  /** How many of the calls an address made in one second. */
  ghost function Arrivals(calls: seq<Call>, a: Addr, sec: int): nat {
    |set i | 0 <= i < |calls| && calls[i].addr == a && Unix(calls[i].now) == sec|
  }

  lemma ArrivalsStep(calls: seq<Call>, x: Call, a: Addr, sec: int)
    ensures Arrivals(calls + [x], a, sec)
         == Arrivals(calls, a, sec) + if x.addr == a && Unix(x.now) == sec then 1 else 0
  {
    var before := set i | 0 <= i < |calls| && calls[i].addr == a && Unix(calls[i].now) == sec;
    var all := calls + [x];
    var after := set i | 0 <= i < |all| && all[i].addr == a && Unix(all[i].now) == sec;
    assert after == before + if x.addr == a && Unix(x.now) == sec then {|calls|} else {};
  }

  /** The second of an address's last call. */
  ghost function Last(calls: seq<Call>, a: Addr): Option<int> {
    if calls == [] then None
    else
      var x := calls[|calls| - 1];
      if x.addr == a then Some(Unix(x.now)) else Last(calls[..|calls| - 1], a)
  }

  /** How many calls an address has made since it last called in another second. */
  ghost function Streak(calls: seq<Call>, a: Addr): nat {
    if calls == [] then 0
    else
      var before, x := calls[..|calls| - 1], calls[|calls| - 1];
      if x.addr != a then Streak(before, a)
      else if Last(before, a) == Some(Unix(x.now)) then Streak(before, a) + 1
      else 1
  }

  /** No clock value lags more than the time-to-live behind an earlier one. */
  ghost predicate Steady(ttl: int, calls: seq<Call>) {
    forall i, j | 0 <= i < j < |calls| :: calls[i].now - ttl <= calls[j].now
  }

  /** Clock value t may come next. */
  ghost predicate MayFollow(ttl: int, calls: seq<Call>, t: int) {
    forall i | 0 <= i < |calls| :: calls[i].now - ttl <= t
  }

  /** An entry counts the current streak of its address; an address without one has not called in any
      second from sec on. */
  ghost predicate CountsAt(sh: Shard, a: Addr, last: Option<int>, streak: nat, sec: int) {
    if a in sh.entries then
      var e := sh.entries[a];
      last == Some(e.windowSecond) && e.lastSeen == e.windowSecond && e.packets == streak
    else last.Some? ==> last.value < sec
  }

  /** The entry that judges a call has counted the streak with that call. */
  lemma JudgedCounts(c: Config, sh: Shard, x: Call, last: Option<int>, streak: nat)
    requires c.maxPackets > 0 && CountsAt(sh, x.addr, last, streak, Unix(x.now))
    ensures var (e, v) := Judged(c, Found(sh, x.addr, Unix(x.now)), x.port, x.now);
      var next := if last == Some(Unix(x.now)) then streak + 1 else 1;
      && e.windowSecond == e.lastSeen == Unix(x.now) && e.packets == next && (v == RateDenied <==> next > c.maxPackets)
  {
  }

  lemma CallerCounts(c: Config, sh: Shard, x: Call, last: Option<int>, streak: nat, sec: int)
    requires c.ttl > 0 && c.maxPackets > 0 && CountsAt(sh, x.addr, last, streak, Unix(x.now))
    ensures CountsAt(Protect(c, sh, x.addr, x.port, x.now).0, x.addr, Some(Unix(x.now)),
                     if last == Some(Unix(x.now)) then streak + 1 else 1, sec)
  {
    JudgedCounts(c, sh, x, last, streak);
  }

  lemma OthersCount(c: Config, sh: Shard, x: Call, a: Addr, last: Option<int>, streak: nat, sec: int)
    requires a != x.addr && Unix(x.now - c.ttl) <= sec && CountsAt(sh, a, last, streak, sec)
    ensures CountsAt(Protect(c, sh, x.addr, x.port, x.now).0, a, last, streak, sec)
  {
  }

  lemma StreakNext(calls: seq<Call>, x: Call, a: Addr)
    ensures Last(calls + [x], a) == if x.addr == a then Some(Unix(x.now)) else Last(calls, a)
    ensures Streak(calls + [x], a) == if x.addr != a then Streak(calls, a)
                                      else if Last(calls, a) == Some(Unix(x.now)) then Streak(calls, a) + 1 else 1
  {
    assert (calls + [x])[..|calls|] == calls;
  }

  lemma AfterNext(c: Config, calls: seq<Call>, x: Call, i: nat)
    requires i < CLIENT_SHARDS
    ensures After(c, calls + [x])[i] ==
            if i == ClientShard(x.addr) then Protect(c, After(c, calls)[i], x.addr, x.port, x.now).0
            else After(c, calls)[i]
  {
    assert (calls + [x])[..|calls|] == calls;
  }

  ghost predicate Counts(c: Config, calls: seq<Call>, a: Addr, t: int) {
    CountsAt(After(c, calls)[ClientShard(a)], a, Last(calls, a), Streak(calls, a), Unix(t))
  }

  lemma CountsNext(c: Config, before: seq<Call>, x: Call, a: Addr, t: int)
    requires c.ttl > 0 && c.maxPackets > 0 && x.now - c.ttl <= t
    requires Counts(c, before, a, if x.addr == a then x.now else t)
    ensures Counts(c, before + [x], a, t)
  {
    var sh := After(c, before)[ClientShard(a)];
    StreakNext(before, x, a);
    AfterNext(c, before, x, ClientShard(a));
    if x.addr == a {
      CallerCounts(c, sh, x, Last(before, a), Streak(before, a), Unix(t));
    } else if ClientShard(a) == ClientShard(x.addr) {
      OthersCount(c, sh, x, a, Last(before, a), Streak(before, a), Unix(t));
    }
  }

  lemma {:induction false} RunCounts(c: Config, calls: seq<Call>, a: Addr, t: int)
    requires c.ttl > 0 && c.maxPackets > 0 && Steady(c.ttl, calls) && MayFollow(c.ttl, calls, t)
    ensures Counts(c, calls, a, t)
  {
    if calls != [] {
      var n := |calls| - 1;
      var x := calls[n];
      RunCounts(c, calls[..n], a, if x.addr == a then x.now else t);
      CountsNext(c, calls[..n], x, a, t);
      assert calls == calls[..n] + [x];
    }
  }

  /** The rate limit exactly, for clock values out of order by up to the time-to-live: call j is refused
      for rate if and only if its address, since it last called in another second, has made more than
      the allowed number of calls, however entries were swept. */
  lemma RateCountsStreaks(c: Config, calls: seq<Call>, j: nat)
    requires c.ttl > 0 && c.maxPackets > 0 && Steady(c.ttl, calls) && j < |calls|
    ensures VerdictOn(c, calls, j) == RateDenied <==> Streak(calls[..j + 1], calls[j].addr) > c.maxPackets
  {
    var x, before := calls[j], calls[..j];
    RunCounts(c, before, x.addr, x.now);
    JudgedCounts(c, After(c, before)[ClientShard(x.addr)], x, Last(before, x.addr), Streak(before, x.addr));
    assert calls[..j + 1][..j] == before;
  }

  /** In order, the calls of a second are one streak. */
  lemma {:induction false} StreakIsArrivals(calls: seq<Call>, a: Addr)
    requires Ordered(calls)
    ensures match Last(calls, a)
      case None => forall s :: Arrivals(calls, a, s) == 0
      case Some(sec) =>
        && calls != [] && sec <= Unix(calls[|calls| - 1].now) && Streak(calls, a) == Arrivals(calls, a, sec)
        && forall s | s > sec :: Arrivals(calls, a, s) == 0
  {
    if calls != [] {
      var n := |calls| - 1;
      var x, before := calls[n], calls[..n];
      StreakIsArrivals(before, a);
      assert calls == before + [x];
      forall s
        ensures Arrivals(calls, a, s) == Arrivals(before, a, s) + if x.addr == a && Unix(x.now) == s then 1 else 0
      {
        ArrivalsStep(before, x, a, s);
      }
    }
  }

  /** So, in order, call j is refused for rate if and only if its address has by then made more than the
      allowed number of calls in that second. */
  lemma RateIsExact(c: Config, calls: seq<Call>, j: nat)
    requires c.ttl > 0 && c.maxPackets > 0 && Ordered(calls) && j < |calls|
    ensures VerdictOn(c, calls, j) == RateDenied
       <==> Arrivals(calls[..j + 1], calls[j].addr, Unix(calls[j].now)) > c.maxPackets
  {
    RateCountsStreaks(c, calls, j);
    StreakIsArrivals(calls[..j + 1], calls[j].addr);
  }

  /** How many of the first j calls an address had admitted in one second. */
  ghost function Admissions(calls: seq<Call>, verdicts: seq<Verdict>, a: Addr, sec: int, j: nat): nat
    requires j <= |calls| == |verdicts|
  {
    if j == 0 then 0
    else Admissions(calls, verdicts, a, sec, j - 1)
         + if calls[j - 1].addr == a && Unix(calls[j - 1].now) == sec && verdicts[j - 1] == Passed then 1 else 0
  }

  ghost predicate CountsExactly(calls: seq<Call>, verdicts: seq<Verdict>, limit: int) {
    && |calls| == |verdicts|
    && forall j | 0 <= j < |calls| ::
         verdicts[j] == RateDenied <==> Arrivals(calls[..j + 1], calls[j].addr, Unix(calls[j].now)) > limit
  }

  lemma {:induction false} CountingCaps(calls: seq<Call>, verdicts: seq<Verdict>, limit: int, a: Addr, sec: int, j: nat)
    requires limit > 0 && CountsExactly(calls, verdicts, limit) && j <= |calls|
    ensures var arrived := Arrivals(calls[..j], a, sec);
      var cap := if arrived < limit then arrived else limit;
      && Admissions(calls, verdicts, a, sec, j) <= cap
      && (SessionDenied !in verdicts ==> Admissions(calls, verdicts, a, sec, j) == cap)
  {
    if j > 0 {
      CountingCaps(calls, verdicts, limit, a, sec, j - 1);
      assert calls[..j] == calls[..j - 1] + [calls[j - 1]];
      ArrivalsStep(calls[..j - 1], calls[j - 1], a, sec);
      assert verdicts[j - 1] in verdicts;
    }
  }

  ghost function Verdicts(c: Config, calls: seq<Call>): (vs: seq<Verdict>)
    ensures |vs| == |calls|
  {
    seq(|calls|, j requires 0 <= j < |calls| => VerdictOn(c, calls, j))
  }

  /** At most the limit is admitted in any second, and exactly min(arrivals, limit) when there is no
      session limit to refuse others. */
  lemma SecondIsCapped(c: Config, calls: seq<Call>, a: Addr, sec: int)
    requires c.ttl > 0 && c.maxPackets > 0 && Ordered(calls)
    ensures var arrived := Arrivals(calls, a, sec);
      var cap := if arrived < c.maxPackets then arrived else c.maxPackets;
      var admitted := Admissions(calls, Verdicts(c, calls), a, sec, |calls|);
      admitted <= cap && (c.maxSessions <= 0 ==> admitted == cap)
  {
    VerdictsCount(c, calls);
    CountingCapsAll(calls, Verdicts(c, calls), c.maxPackets, a, sec);
  }

  lemma CountingCapsAll(calls: seq<Call>, verdicts: seq<Verdict>, limit: int, a: Addr, sec: int)
    requires limit > 0 && CountsExactly(calls, verdicts, limit)
    ensures var arrived := Arrivals(calls, a, sec);
      var cap := if arrived < limit then arrived else limit;
      && Admissions(calls, verdicts, a, sec, |calls|) <= cap
      && (SessionDenied !in verdicts ==> Admissions(calls, verdicts, a, sec, |calls|) == cap)
  {
    CountingCaps(calls, verdicts, limit, a, sec, |calls|);
    assert calls[..|calls|] == calls;
  }

  lemma VerdictsCount(c: Config, calls: seq<Call>)
    requires c.ttl > 0 && c.maxPackets > 0 && Ordered(calls)
    ensures CountsExactly(calls, Verdicts(c, calls), c.maxPackets)
    ensures c.maxSessions <= 0 ==> SessionDenied !in Verdicts(c, calls)
  {
    var vs := Verdicts(c, calls);
    forall j | 0 <= j < |calls|
      ensures vs[j] == RateDenied <==> Arrivals(calls[..j + 1], calls[j].addr, Unix(calls[j].now)) > c.maxPackets
    {
      RateIsExact(c, calls, j);
    }
    forall j | 0 <= j < |calls|
      ensures c.maxSessions <= 0 ==> vs[j] != SessionDenied
    {
      OnlyRateDenies(c, calls, j);
    }
  }

  lemma OnlyRateDenies(c: Config, calls: seq<Call>, j: nat)
    requires j < |calls|
    ensures c.maxSessions <= 0 ==> VerdictOn(c, calls, j) != SessionDenied
  {
  }

  // ----- out of order, more than the limit gets through -----

  /** One address's calls at one instant, but for one, after the first limit calls, at another. */
  ghost function Straggling(a: Addr, port: Port, early: int, late: int, limit: nat, n: nat): (calls: seq<Call>)
    ensures |calls| == n
    ensures forall i | 0 <= i < n :: calls[i] == Call(a, port, if i == limit then late else early)
  {
    seq(n, i => Call(a, port, if i == limit then late else early))
  }

  lemma {:induction false} StragglingStreaks(a: Addr, port: Port, early: int, late: int, limit: nat, n: nat)
    requires Unix(early) != Unix(late)
    ensures var calls := Straggling(a, port, early, late, limit, n);
      && Streak(calls, a) == (if n <= limit then n else if n == limit + 1 then 1 else n - limit - 1)
      && Last(calls, a) == if n == 0 then None else Some(Unix(if n == limit + 1 then late else early))
  {
    if n > 0 {
      var before := Straggling(a, port, early, late, limit, n - 1);
      var x := Call(a, port, if n - 1 == limit then late else early);
      StragglingStreaks(a, port, early, late, limit, n - 1);
      StreakNext(before, x, a);
      assert Straggling(a, port, early, late, limit, n) == before + [x];
    }
  }

  lemma StragglingSteady(a: Addr, port: Port, early: int, late: int, limit: nat, n: nat, ttl: int)
    requires 0 <= ttl && early - ttl <= late && late - ttl <= early
    ensures Steady(ttl, Straggling(a, port, early, late, limit, n))
  {
  }

  lemma StragglingPrefix(a: Addr, port: Port, early: int, late: int, limit: nat, n: nat, j: nat)
    requires j <= n
    ensures Straggling(a, port, early, late, limit, n)[..j] == Straggling(a, port, early, late, limit, j)
  {
  }

  lemma PassedUnlessOver(c: Config, calls: seq<Call>, j: nat, a: Addr)
    requires c.ttl > 0 && c.maxPackets > 0 && c.maxSessions <= 0 && Steady(c.ttl, calls) && j < |calls|
    requires calls[j].addr == a && Streak(calls[..j + 1], a) <= c.maxPackets
    ensures VerdictOn(c, calls, j) == Passed
  {
    RateCountsStreaks(c, calls, j);
    OnlyRateDenies(c, calls, j);
  }

  /** Call j is a's, and does not take its streak over the limit. */
  ghost predicate StaysShort(calls: seq<Call>, a: Addr, limit: int, j: nat)
    requires j < |calls|
  {
    calls[j].addr == a && Streak(calls[..j + 1], a) <= limit
  }

  lemma StragglingStaysShort(
      a: Addr, port: Port, early: int, late: int, limit: nat, n: nat, j: nat, calls: seq<Call>)
    requires Unix(early) != Unix(late) && 0 < limit && j < n <= limit + limit + 1
    requires calls == Straggling(a, port, early, late, limit, n)
    ensures StaysShort(calls, a, limit, j)
  {
    var k := j + 1;
    StragglingPrefix(a, port, early, late, limit, n, k);
    StragglingStreaks(a, port, early, late, limit, k);
  }

  lemma AllPass(c: Config, calls: seq<Call>, a: Addr)
    requires c.ttl > 0 && c.maxPackets > 0 && c.maxSessions <= 0 && Steady(c.ttl, calls)
    requires forall j: nat | j < |calls| :: StaysShort(calls, a, c.maxPackets, j)
    ensures forall j | 0 <= j < |calls| :: Verdicts(c, calls)[j] == Passed
  {
    forall j | 0 <= j < |calls|
      ensures Verdicts(c, calls)[j] == Passed
    {
      assert StaysShort(calls, a, c.maxPackets, j);
      PassedUnlessOver(c, calls, j, a);
    }
  }

  lemma StragglingAllPass(c: Config, a: Addr, port: Port, early: int, late: int, n: nat, calls: seq<Call>)
    requires c.ttl > 0 && c.maxPackets > 0 && c.maxSessions <= 0 && n <= c.maxPackets + c.maxPackets + 1
    requires Unix(early) != Unix(late) && early - c.ttl <= late && late - c.ttl <= early
    requires calls == Straggling(a, port, early, late, c.maxPackets, n)
    ensures forall j | 0 <= j < n :: Verdicts(c, calls)[j] == Passed
  {
    StragglingSteady(a, port, early, late, c.maxPackets, n, c.ttl);
    forall j: nat | j < n
      ensures StaysShort(calls, a, c.maxPackets, j)
    {
      StragglingStaysShort(a, port, early, late, c.maxPackets, n, j, calls);
    }
    AllPass(c, calls, a);
  }

  lemma {:induction false} StragglingAdmits(calls: seq<Call>, verdicts: seq<Verdict>, a: Addr, port: Port,
                                            early: int, late: int, limit: nat, n: nat, j: nat)
    requires calls == Straggling(a, port, early, late, limit, n) && |verdicts| == n && j <= n
    requires Unix(early) != Unix(late) && forall i | 0 <= i < n :: verdicts[i] == Passed
    ensures Admissions(calls, verdicts, a, Unix(early), j) == if j <= limit then j else j - 1
  {
    if j > 0 {
      StragglingAdmits(calls, verdicts, a, port, early, late, limit, n, j - 1);
    }
  }

  /** A clock value that lags by a nanosecond across the edge of a second starts the count afresh: twice
      the limit is admitted in one second. */
  lemma StragglersDouble(c: Config, a: Addr, port: Port, sec: int, n: nat)
    requires c.ttl > 0 && c.maxPackets > 0 && c.maxSessions <= 0 && n == c.maxPackets + c.maxPackets + 1
    ensures var calls := Straggling(a, port, (sec + 1) * SECOND - 1, (sec + 1) * SECOND, c.maxPackets, n);
      Steady(1, calls) && Admissions(calls, Verdicts(c, calls), a, sec, n) == 2 * c.maxPackets
  {
    var early, late := (sec + 1) * SECOND - 1, (sec + 1) * SECOND;
    assert Unix(early) == sec && Unix(late) == sec + 1;
    DoubledAt(c, a, port, early, late, n, Straggling(a, port, early, late, c.maxPackets, n));
  }

  lemma DoubledAt(c: Config, a: Addr, port: Port, early: int, late: int, n: nat, calls: seq<Call>)
    requires c.ttl > 0 && c.maxPackets > 0 && c.maxSessions <= 0 && n == c.maxPackets + c.maxPackets + 1
    requires Unix(early) != Unix(late) && late == early + 1
    requires calls == Straggling(a, port, early, late, c.maxPackets, n)
    ensures Steady(1, calls) && Admissions(calls, Verdicts(c, calls), a, Unix(early), n) == n - 1
  {
    StragglingSteady(a, port, early, late, c.maxPackets, n, 1);
    StragglingAllPass(c, a, port, early, late, n, calls);
    StragglingAdmits(calls, Verdicts(c, calls), a, port, early, late, c.maxPackets, n, n);
  }

  // ----- idle addresses are forgotten -----

  /** No entry is older than the shard's last sweep allows. */
  ghost predicate Trimmed(c: Config, sh: Shard, t: int) {
    && 0 <= sh.lastSweep <= Unix(t)
    && forall a | a in sh.entries :: sh.entries[a].lastSeen >= sh.lastSweep - CeilSeconds(c.ttl)
  }

  lemma StepTrims(c: Config, sh: Shard, t: int, x: Call)
    requires c.ttl > 0 && x.now >= 0 && t <= x.now && Trimmed(c, sh, t)
    ensures var after := Protect(c, sh, x.addr, x.port, x.now).0;
      Trimmed(c, after, x.now) && after.lastSweep > Unix(x.now) - Max(c.ttl / SECOND, 1)
  {
  }

  lemma {:induction false} RunTrims(c: Config, calls: seq<Call>, i: nat, t: int)
    requires c.ttl > 0 && Ordered(calls) && i < CLIENT_SHARDS && t >= 0
    requires calls != [] ==> calls[|calls| - 1].now <= t
    ensures Trimmed(c, After(c, calls)[i], t)
  {
    if calls != [] {
      var n := |calls| - 1;
      var x := calls[n];
      RunTrims(c, calls[..n], i, x.now);
      if i == ClientShard(x.addr) {
        StepTrims(c, After(c, calls[..n])[i], x.now, x);
      }
    }
  }

  /** After any call, every address still in that call's shard was seen within about twice the
      time-to-live: idle clients are forgotten. */
  lemma IdleAreForgotten(c: Config, calls: seq<Call>, a: Addr)
    requires c.ttl > 0 && Ordered(calls) && calls != []
    requires ClientShard(a) == ClientShard(calls[|calls| - 1].addr) && a in After(c, calls)[ClientShard(a)].entries
    ensures After(c, calls)[ClientShard(a)].entries[a].lastSeen >= Oldest(c.ttl, calls[|calls| - 1].now)
  {
    var n := |calls| - 1;
    var x := calls[n];
    RunTrims(c, calls[..n], ClientShard(a), x.now);
    StepTrims(c, After(c, calls[..n])[ClientShard(a)], x.now, x);
  }
}
