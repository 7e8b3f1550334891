/** The abuse protector's port set: which ports count at a session check, told from the calls alone
    (internal/abuse/abuse.go). */
module Ports {
  import opened Basics
  import opened Sweeping
  import opened Abuse

  ghost function Ticks(calls: seq<Call>): (ticks: seq<Tick>)
    ensures |ticks| == |calls|
    ensures forall i | 0 <= i < |calls| :: ticks[i] == Tick(calls[i].addr, calls[i].now)
  {
    seq(|calls|, i requires 0 <= i < |calls| => Tick(calls[i].addr, calls[i].now))
  }

  /** Call j is one too many in its second, and so does not come to the session check. */
  ghost predicate TooMany(c: Config, calls: seq<Call>, j: nat)
    requires j < |calls|
  {
    c.maxPackets > 0 && Arrivals(calls[..j + 1], calls[j].addr, Unix(calls[j].now)) > c.maxPackets
  }

  lemma RateDeniedIff(c: Config, calls: seq<Call>, j: nat)
    requires c.ttl > 0 && Ordered(calls) && j < |calls|
    ensures VerdictOn(c, calls, j) == RateDenied <==> TooMany(c, calls, j)
  {
    if c.maxPackets > 0 {
      RateIsExact(c, calls, j);
    }
  }

  /** A port seen at a session check. */
  datatype Record = Record(addr: Addr, port: Port, sec: int)

  ghost function Recording(c: Config, calls: seq<Call>, j: nat): seq<Record>
    requires j < |calls|
  {
    if TooMany(c, calls, j) then [] else [Record(calls[j].addr, calls[j].port, Unix(calls[j].now))]
  }

  /** Everything recorded by the first j calls. */
  ghost function Records(c: Config, calls: seq<Call>, j: nat): seq<Record>
    requires j <= |calls|
  {
    if j == 0 then [] else Records(c, calls, j - 1) + Recording(c, calls, j - 1)
  }

  /** The second in which an address's ports were last swept at one of its own checks, by the first j
      calls; 0, the epoch, if they never were. */
  ghost function OwnSweep(c: Config, calls: seq<Call>, j: nat, a: Addr): int
    requires j <= |calls|
    decreases j, 0
  {
    if j == 0 then 0
    else if calls[j - 1].addr == a && SweepsOwn(c, calls, j - 1) then Unix(calls[j - 1].now)
    else OwnSweep(c, calls, j - 1, a)
  }

  /** Call j sweeps its address's ports: it comes to the check the time-to-live in whole seconds, or more,
      after the last such sweep. */
  ghost predicate SweepsOwn(c: Config, calls: seq<Call>, j: nat)
    requires j < |calls|
    decreases j, 1
  {
    !TooMany(c, calls, j) && Unix(calls[j].now) - OwnSweep(c, calls, j, calls[j].addr) >= c.ttl / SECOND
  }

  /** The cutoff of the last sweep, of either kind, over an address's ports by the first j calls; that of
      the epoch if there was none. */
  ghost function LastCutoff(c: Config, calls: seq<Call>, j: nat, a: Addr): int
    requires j <= |calls|
  {
    if j == 0 then Unix(-c.ttl)
    else if (calls[j - 1].addr == a && SweepsOwn(c, calls, j - 1)) || SweepsOver(c.ttl, Ticks(calls), j - 1, a)
    then Unix(calls[j - 1].now - c.ttl)
    else LastCutoff(c, calls, j - 1, a)
  }

  /** The cutoff in force when the verdict on call j falls: its own sweep counts, its stripe's comes later. */
  ghost function CutoffOn(c: Config, calls: seq<Call>, j: nat): int
    requires j < |calls|
  {
    if SweepsOwn(c, calls, j) then Unix(calls[j].now - c.ttl) else LastCutoff(c, calls, j, calls[j].addr)
  }

  /** The ports an address recorded at second lo or later. */
  ghost function PortsSince(recs: seq<Record>, a: Addr, lo: int): set<Port> {
    set i | 0 <= i < |recs| && recs[i].addr == a && recs[i].sec >= lo :: recs[i].port
  }

  lemma PortsSinceStep(recs: seq<Record>, r: Record, a: Addr, lo: int)
    ensures PortsSince(recs + [r], a, lo)
         == PortsSince(recs, a, lo) + if r.addr == a && r.sec >= lo then {r.port} else {}
  {
    var all := recs + [r];
    assert all[|recs|] == r;
    forall p | p in PortsSince(recs, a, lo)
      ensures p in PortsSince(all, a, lo)
    {
      var i :| 0 <= i < |recs| && recs[i].addr == a && recs[i].sec >= lo && recs[i].port == p;
      assert all[i] == recs[i];
    }
  }

  /** sec is the second at which the address last recorded the port. */
  ghost predicate IsStamp(recs: seq<Record>, a: Addr, p: Port, sec: int) {
    p in PortsSince(recs, a, sec) && p !in PortsSince(recs, a, sec + 1)
  }

  lemma StampStep(recs: seq<Record>, r: Record, p: Port, sec: int)
    requires forall x | x in recs :: x.sec <= r.sec
    requires if p == r.port then sec == r.sec else IsStamp(recs, r.addr, p, sec)
    ensures IsStamp(recs + [r], r.addr, p, sec)
  {
    PortsSinceStep(recs, r, r.addr, sec);
    PortsSinceStep(recs, r, r.addr, sec + 1);
  }

  /** A set of stamped ports is what an address recorded since lo. */
  ghost predicate PortsAre(recs: seq<Record>, a: Addr, lo: int, sessions: map<Port, int>) {
    sessions.Keys == PortsSince(recs, a, lo) && forall p | p in sessions :: IsStamp(recs, a, p, sessions[p])
  }

  lemma StampDecides(recs: seq<Record>, a: Addr, p: Port, sec: int, lo: int)
    requires IsStamp(recs, a, p, sec)
    ensures p in PortsSince(recs, a, lo) <==> sec >= lo
  {
  }

  lemma KeptPortsAre(recs: seq<Record>, a: Addr, lo: int, cutoff: int, sessions: map<Port, int>)
    requires PortsAre(recs, a, lo, sessions) && lo <= cutoff
    ensures PortsAre(recs, a, cutoff, KeptPorts(sessions, cutoff))
  {
    forall p | p in sessions
      ensures p in PortsSince(recs, a, cutoff) <==> sessions[p] >= cutoff
    {
      StampDecides(recs, a, p, sessions[p], cutoff);
    }
    assert PortsSince(recs, a, cutoff) <= PortsSince(recs, a, lo);
  }

  lemma RecordedPortsAre(recs: seq<Record>, r: Record, lo: int, sessions: map<Port, int>)
    requires PortsAre(recs, r.addr, lo, sessions) && lo <= r.sec && forall x | x in recs :: x.sec <= r.sec
    ensures PortsAre(recs + [r], r.addr, lo, sessions[r.port := r.sec])
  {
    PortsSinceStep(recs, r, r.addr, lo);
    var stamps := sessions[r.port := r.sec];
    forall p | p in stamps
      ensures IsStamp(recs + [r], r.addr, p, stamps[p])
    {
      StampStep(recs, r, p, stamps[p]);
    }
  }

  lemma OthersPortsAre(recs: seq<Record>, r: Record, a: Addr, lo: int, sessions: map<Port, int>)
    requires r.addr != a && PortsAre(recs, a, lo, sessions)
    ensures PortsAre(recs + [r], a, lo, sessions)
  {
    PortsSinceStep(recs, r, a, lo);
    forall p | p in sessions
      ensures IsStamp(recs + [r], a, p, sessions[p])
    {
      PortsSinceStep(recs, r, a, sessions[p]);
      PortsSinceStep(recs, r, a, sessions[p] + 1);
    }
  }

  /** From time t on, a sweep is due after own if and only if it is due after kept. */
  ghost predicate DueAlike(ttl: int, own: int, kept: int, t: int) {
    own == kept || (Unix(t) - own >= ttl / SECOND && Unix(t) - kept >= ttl / SECOND)
  }

  /** What a stripe holds for an address at time t, against what the calls say: the ports recorded since
      the last cutoff, and a last sweep that comes to the same; nothing, if nothing was. */
  ghost predicate Tracks(ttl: int, sh: Shard, recs: seq<Record>, a: Addr, lo: int, own: int, last: Option<int>,
                         t: int) {
    if a in sh.entries then
      var e := sh.entries[a];
      PortsAre(recs, a, lo, e.sessions) && last == Some(e.lastSeen) && DueAlike(ttl, own, e.lastSweep, t)
    else PortsAre(recs, a, lo, map[]) && DueAlike(ttl, own, 0, t)
  }

  /** Nothing of an address is later than its last call. */
  ghost predicate NothingLater(recs: seq<Record>, a: Addr, own: int, last: Option<int>) {
    && own >= 0 && (last.None? ==> own == 0) && (last.Some? ==> own <= last.value && last.value >= 0)
    && forall r | r in recs && r.addr == a :: last.Some? && r.sec <= last.value
  }

  lemma ForgottenTracks(ttl: int, recs: seq<Record>, a: Addr, own: int, last: Option<int>, now: int)
    requires NothingLater(recs, a, own, last) && last.Some? && last.value < Unix(now - ttl)
    ensures PortsAre(recs, a, Unix(now - ttl), map[]) && DueAlike(ttl, own, 0, now)
  {
    assert PortsSince(recs, a, Unix(now - ttl)) == {};
  }

  /** A sweep of the stripe. */
  lemma SweptTracks(c: Config, sh: Shard, recs: seq<Record>, a: Addr, lo: int, own: int, last: Option<int>, now: int)
    requires Tracks(c.ttl, sh, recs, a, lo, own, last, now) && NothingLater(recs, a, own, last)
    requires lo <= Unix(now - c.ttl) && Unix(now) - sh.lastSweep >= c.ttl / SECOND
    ensures Tracks(c.ttl, Swept(c, sh, now), recs, a, Unix(now - c.ttl), own, last, now)
  {
    var cutoff := Unix(now - c.ttl);
    if a in sh.entries {
      KeptPortsAre(recs, a, lo, cutoff, sh.entries[a].sessions);
      if sh.entries[a].lastSeen < cutoff {
        ForgottenTracks(c.ttl, recs, a, own, last, now);
      }
    } else {
      KeptPortsAre(recs, a, lo, cutoff, map[]);
    }
  }

  lemma SweptIfDueTracks(c: Config, sh: Shard, recs: seq<Record>, a: Addr, lo: int, own: int, last: Option<int>,
                         now: int)
    requires Tracks(c.ttl, sh, recs, a, lo, own, last, now) && NothingLater(recs, a, own, last)
    requires lo <= Unix(now - c.ttl)
    ensures var due := Unix(now) - sh.lastSweep >= c.ttl / SECOND;
      && Swept(c, sh, now).lastSweep == (if due then Unix(now) else sh.lastSweep)
      && Tracks(c.ttl, Swept(c, sh, now), recs, a, if due then Unix(now - c.ttl) else lo, own, last, now)
  {
    if Unix(now) - sh.lastSweep >= c.ttl / SECOND {
      SweptTracks(c, sh, recs, a, lo, own, last, now);
    }
  }

  lemma OthersTrack(ttl: int, sh: Shard, recs: seq<Record>, more: seq<Record>, a: Addr, lo: int, own: int,
                    last: Option<int>, t: int)
    requires Tracks(ttl, sh, recs, a, lo, own, last, t)
    requires more == [] || (|more| == 1 && more[0].addr != a)
    ensures Tracks(ttl, sh, recs + more, a, lo, own, last, t)
  {
    if more == [] {
      assert recs + more == recs;
    } else {
      assert more == [more[0]];
      OthersPortsAre(recs, more[0], a, lo, if a in sh.entries then sh.entries[a].sessions else map[]);
    }
  }

  lemma TimePasses(ttl: int, sh: Shard, recs: seq<Record>, a: Addr, lo: int, own: int, last: Option<int>,
                   t: int, u: int)
    requires t <= u && Tracks(ttl, sh, recs, a, lo, own, last, t)
    ensures Tracks(ttl, sh, recs, a, lo, own, last, u)
  {
  }

  /** A port recorded, and old ones swept if that is due. */
  lemma RecordedTracks(c: Config, recs: seq<Record>, r: Record, e: Entry, now: int, lo: int, own: int)
    requires PortsAre(recs, r.addr, lo, e.sessions) && DueAlike(c.ttl, own, e.lastSweep, now)
    requires c.ttl > 0 && r.sec == Unix(now) && lo <= Unix(now - c.ttl) && forall x | x in recs :: x.sec <= r.sec
    ensures var e', sweeps := Recorded(c, e, r.port, now), Unix(now) - own >= c.ttl / SECOND;
      && e'.lastSeen == e.lastSeen
      && PortsAre(recs + [r], r.addr, if sweeps then Unix(now - c.ttl) else lo, e'.sessions)
      && DueAlike(c.ttl, if sweeps then Unix(now) else own, e'.lastSweep, now)
  {
    RecordedPortsAre(recs, r, lo, e.sessions);
    KeptPortsAre(recs + [r], r.addr, lo, Unix(now - c.ttl), e.sessions[r.port := r.sec]);
  }

  /** A stripe with the caller's entry judged, and not yet swept. */
  ghost function Judging(c: Config, x: Call, sh: Shard): Shard {
    sh.(entries := sh.entries[x.addr := Judged(c, Found(sh, x.addr, Unix(x.now)), x.port, x.now).0])
  }

  ghost predicate Rates(c: Config, x: Call, sh: Shard) {
    Judged(c, Found(sh, x.addr, Unix(x.now)), x.port, x.now).1 == RateDenied
  }

  /** The entry a call finds, once counted, is as good as what the stripe held. */
  lemma CountedTracks(c: Config, sh: Shard, recs: seq<Record>, x: Call, lo: int, own: int, last: Option<int>)
    requires Tracks(c.ttl, sh, recs, x.addr, lo, own, last, x.now)
    ensures var e := Counted(c, Found(sh, x.addr, Unix(x.now)), Unix(x.now));
      e.lastSeen == Unix(x.now) && PortsAre(recs, x.addr, lo, e.sessions) && DueAlike(c.ttl, own, e.lastSweep, x.now)
  {
  }

  lemma CheckingTracks(c: Config, sh: Shard, recs: seq<Record>, x: Call, lo: int, own: int, last: Option<int>)
    requires Tracks(c.ttl, sh, recs, x.addr, lo, own, last, x.now) && !Rates(c, x, sh)
    requires c.ttl > 0 && c.maxSessions > 0 && lo <= Unix(x.now - c.ttl) && forall r | r in recs :: r.sec <= Unix(x.now)
    ensures var sweeps := Unix(x.now) - own >= c.ttl / SECOND;
      Tracks(c.ttl, Judging(c, x, sh), recs + [Record(x.addr, x.port, Unix(x.now))], x.addr,
             if sweeps then Unix(x.now - c.ttl) else lo, if sweeps then Unix(x.now) else own,
             Some(Unix(x.now)), x.now)
  {
    CountedTracks(c, sh, recs, x, lo, own, last);
    var e := Counted(c, Found(sh, x.addr, Unix(x.now)), Unix(x.now));
    RecordedTracks(c, recs, Record(x.addr, x.port, Unix(x.now)), e, x.now, lo, own);
  }

  lemma RefusingTracks(c: Config, sh: Shard, recs: seq<Record>, x: Call, lo: int, own: int, last: Option<int>)
    requires Tracks(c.ttl, sh, recs, x.addr, lo, own, last, x.now) && Rates(c, x, sh)
    ensures Tracks(c.ttl, Judging(c, x, sh), recs, x.addr, lo, own, Some(Unix(x.now)), x.now)
  {
    CountedTracks(c, sh, recs, x, lo, own, last);
  }

  // What the calls say, from one call to the next.

  lemma {:induction false} CutoffIsPast(c: Config, calls: seq<Call>, j: nat, a: Addr, t: int)
    requires j <= |calls| && c.ttl > 0 && Ordered(calls) && t >= 0 && (j > 0 ==> calls[j - 1].now <= t)
    ensures LastCutoff(c, calls, j, a) <= Unix(t - c.ttl)
    ensures 0 <= OwnSweep(c, calls, j, a) <= LastCutoff(c, calls, j, a) + CeilSeconds(c.ttl)
  {
    if j > 0 {
      CutoffIsPast(c, calls, j - 1, a, calls[j - 1].now);
    }
  }

  lemma {:induction false} RecordsArePast(c: Config, calls: seq<Call>, j: nat, t: int)
    requires j <= |calls| && Ordered(calls) && (j > 0 ==> calls[j - 1].now <= t)
    ensures forall r | r in Records(c, calls, j) :: r.sec <= Unix(t)
  {
    if j > 0 {
      RecordsArePast(c, calls, j - 1, t);
    }
  }

  /** A call of the address itself, in the second sec. */
  lemma NothingLaterNow(recs: seq<Record>, a: Addr, own: int, sec: int)
    requires 0 <= own <= sec && forall r | r in recs :: r.sec <= sec
    ensures NothingLater(recs, a, own, Some(sec))
  {
  }

  lemma {:induction false} LastIsLatest(c: Config, calls: seq<Call>, j: nat, a: Addr)
    requires j <= |calls| && Ordered(calls)
    ensures NothingLater(Records(c, calls, j), a, OwnSweep(c, calls, j, a), LastCall(Ticks(calls), j, a))
  {
    if j > 0 {
      var x := calls[j - 1];
      if x.addr == a {
        OwnSweepIsPast(c, calls, j - 1, a);
        RecordsArePast(c, calls, j, x.now);
        NothingLaterNow(Records(c, calls, j), a, OwnSweep(c, calls, j, a), Unix(x.now));
      } else {
        LastIsLatest(c, calls, j - 1, a);
      }
    }
  }

  lemma {:induction false} OwnSweepIsPast(c: Config, calls: seq<Call>, j: nat, a: Addr)
    requires j < |calls| && Ordered(calls)
    ensures 0 <= OwnSweep(c, calls, j, a) <= Unix(calls[j].now)
  {
    if j > 0 {
      OwnSweepIsPast(c, calls, j - 1, a);
    }
  }

  /** After j calls the stripe sh of an address is as the calls say. */
  ghost predicate AsTold(c: Config, calls: seq<Call>, j: nat, a: Addr, t: int, sh: Shard)
    requires j <= |calls|
  {
    && sh.lastSweep == LastSweep(c.ttl, Ticks(calls), j, ClientShard(a))
    && Tracks(c.ttl, sh, Records(c, calls, j), a, LastCutoff(c, calls, j, a), OwnSweep(c, calls, j, a),
              LastCall(Ticks(calls), j, a), t)
  }

  /** What the calls up to the first n say of an address, with lo for the cutoff. */
  ghost predicate Told(c: Config, calls: seq<Call>, n: nat, a: Addr, t: int, sh: Shard, lo: int)
    requires n <= |calls|
  {
    Tracks(c.ttl, sh, Records(c, calls, n), a, lo, OwnSweep(c, calls, n, a), LastCall(Ticks(calls), n, a), t)
  }

  lemma RefusedNext(c: Config, calls: seq<Call>, j: nat, n: nat)
    requires n == j + 1 <= |calls| && TooMany(c, calls, j)
    ensures var a := calls[j].addr;
      && Records(c, calls, n) == Records(c, calls, j) && OwnSweep(c, calls, n, a) == OwnSweep(c, calls, j, a)
      && LastCall(Ticks(calls), n, a) == Some(Unix(calls[j].now))
      && CutoffOn(c, calls, j) == LastCutoff(c, calls, j, a)
  {
    assert Records(c, calls, j) + [] == Records(c, calls, j);
  }

  lemma CheckedSweeps(c: Config, calls: seq<Call>, j: nat, n: nat, a: Addr, own: int)
    requires n == j + 1 <= |calls| && !TooMany(c, calls, j) && a == calls[j].addr && own == OwnSweep(c, calls, j, a)
    ensures var sec, sweeps := Unix(calls[j].now), Unix(calls[j].now) - own >= c.ttl / SECOND;
      && OwnSweep(c, calls, n, a) == (if sweeps then sec else own)
      && CutoffOn(c, calls, j) == if sweeps then Unix(calls[j].now - c.ttl) else LastCutoff(c, calls, j, a)
  {
    assert SweepsOwn(c, calls, j) <==> Unix(calls[j].now) - own >= c.ttl / SECOND;
  }

  lemma CheckedRecords(c: Config, calls: seq<Call>, j: nat, n: nat)
    requires n == j + 1 <= |calls| && !TooMany(c, calls, j)
    ensures var x := calls[j];
      && Records(c, calls, n) == Records(c, calls, j) + [Record(x.addr, x.port, Unix(x.now))]
      && LastCall(Ticks(calls), n, x.addr) == Some(Unix(x.now))
  {
  }

  lemma CheckedTold(c: Config, calls: seq<Call>, j: nat, n: nat, x: Call, sh: Shard)
    requires n == j + 1 <= |calls| && x == calls[j] && c.ttl > 0 && c.maxSessions > 0 && Ordered(calls)
    requires AsTold(c, calls, j, x.addr, x.now, sh) && !Rates(c, x, sh) && !TooMany(c, calls, j)
    ensures Told(c, calls, n, x.addr, x.now, Judging(c, x, sh), CutoffOn(c, calls, j))
  {
    var lo, own := LastCutoff(c, calls, j, x.addr), OwnSweep(c, calls, j, x.addr);
    CutoffIsPast(c, calls, j, x.addr, x.now);
    RecordsArePast(c, calls, j, x.now);
    CheckingTracks(c, sh, Records(c, calls, j), x, lo, own, LastCall(Ticks(calls), j, x.addr));
    CheckedRecords(c, calls, j, n);
    CheckedSweeps(c, calls, j, n, x.addr, own);
  }

  lemma CallerTold(c: Config, calls: seq<Call>, j: nat, n: nat, sh: Shard)
    requires n == j + 1 <= |calls| && c.ttl > 0 && c.maxSessions > 0 && Ordered(calls)
    requires AsTold(c, calls, j, calls[j].addr, calls[j].now, sh) && (Rates(c, calls[j], sh) <==> TooMany(c, calls, j))
    ensures Told(c, calls, n, calls[j].addr, calls[j].now, Judging(c, calls[j], sh), CutoffOn(c, calls, j))
  {
    var x := calls[j];
    if TooMany(c, calls, j) {
      RefusingTracks(c, sh, Records(c, calls, j), x, LastCutoff(c, calls, j, x.addr),
                     OwnSweep(c, calls, j, x.addr), LastCall(Ticks(calls), j, x.addr));
      RefusedNext(c, calls, j, n);
    } else {
      CheckedTold(c, calls, j, n, x, sh);
    }
  }

  lemma BystanderTold(c: Config, calls: seq<Call>, j: nat, n: nat, a: Addr, sh: Shard)
    requires n == j + 1 <= |calls| && calls[j].addr != a
    requires Told(c, calls, j, a, calls[j].now, sh, LastCutoff(c, calls, j, a))
    ensures Told(c, calls, n, a, calls[j].now, sh, LastCutoff(c, calls, j, a))
  {
    OthersTrack(c.ttl, sh, Records(c, calls, j), Recording(c, calls, j), a,
                LastCutoff(c, calls, j, a), OwnSweep(c, calls, j, a), LastCall(Ticks(calls), j, a), calls[j].now);
  }

  lemma OthersUntouched(c: Config, calls: seq<Call>, j: nat, a: Addr, sh: Shard, lo: int)
    requires j < |calls| && calls[j].addr != a && Told(c, calls, j, a, calls[j].now, sh, lo)
    ensures Told(c, calls, j, a, calls[j].now, Judging(c, calls[j], sh), lo)
  {
  }

  /** The cutoff over an address's ports once call j is judged. */
  ghost function CutoffMid(c: Config, calls: seq<Call>, j: nat, a: Addr): int
    requires j < |calls|
  {
    if calls[j].addr == a then CutoffOn(c, calls, j) else LastCutoff(c, calls, j, a)
  }

  lemma JudgingTold(c: Config, calls: seq<Call>, j: nat, n: nat, a: Addr, sh: Shard)
    requires n == j + 1 <= |calls| && c.ttl > 0 && c.maxSessions > 0 && Ordered(calls)
    requires AsTold(c, calls, j, a, calls[j].now, sh) && (Rates(c, calls[j], sh) <==> TooMany(c, calls, j))
    ensures Told(c, calls, n, a, calls[j].now, Judging(c, calls[j], sh), CutoffMid(c, calls, j, a))
  {
    if calls[j].addr == a {
      CallerTold(c, calls, j, n, sh);
    } else {
      OthersUntouched(c, calls, j, a, sh, LastCutoff(c, calls, j, a));
      BystanderTold(c, calls, j, n, a, Judging(c, calls[j], sh));
    }
  }

  /** From the judged stripe, swept if that was due, to the next call. */
  lemma NextAsTold(c: Config, calls: seq<Call>, j: nat, n: nat, a: Addr, was: int, after: Shard)
    requires n == j + 1 <= |calls| && c.ttl > 0 && Ordered(calls) && ClientShard(calls[j].addr) == ClientShard(a)
    requires was == LastSweep(c.ttl, Ticks(calls), j, ClientShard(a))
    requires var x, due := calls[j], Unix(calls[j].now) - was >= c.ttl / SECOND;
      && after.lastSweep == (if due then Unix(x.now) else was)
      && Told(c, calls, n, a, x.now, after, if due then Unix(x.now - c.ttl) else CutoffMid(c, calls, j, a))
    ensures AsTold(c, calls, n, a, calls[j].now, after)
  {
  }

  lemma CutoffMidIsPast(c: Config, calls: seq<Call>, j: nat, a: Addr)
    requires j < |calls| && c.ttl > 0 && Ordered(calls)
    ensures CutoffMid(c, calls, j, a) <= Unix(calls[j].now - c.ttl)
  {
    CutoffIsPast(c, calls, j, a, calls[j].now);
  }

  /** The stripe's own sweep, if due, after the verdict. */
  lemma SweptTold(c: Config, calls: seq<Call>, j: nat, n: nat, a: Addr, mid: Shard, lo: int)
    requires n == j + 1 <= |calls| && c.ttl > 0 && Ordered(calls) && lo == CutoffMid(c, calls, j, a)
    requires Told(c, calls, n, a, calls[j].now, mid, lo)
    ensures var x, due := calls[j], Unix(calls[j].now) - mid.lastSweep >= c.ttl / SECOND;
      && Swept(c, mid, x.now).lastSweep == (if due then Unix(x.now) else mid.lastSweep)
      && Told(c, calls, n, a, x.now, Swept(c, mid, x.now), if due then Unix(x.now - c.ttl) else lo)
  {
    CutoffMidIsPast(c, calls, j, a);
    LastIsLatest(c, calls, n, a);
    SweptIfDueTracks(c, mid, Records(c, calls, n), a, lo, OwnSweep(c, calls, n, a), LastCall(Ticks(calls), n, a),
                     calls[j].now);
  }

  lemma JudgedAsTold(c: Config, calls: seq<Call>, j: nat, n: nat, a: Addr, mid: Shard)
    requires n == j + 1 <= |calls| && c.ttl > 0 && Ordered(calls) && ClientShard(calls[j].addr) == ClientShard(a)
    requires mid.lastSweep == LastSweep(c.ttl, Ticks(calls), j, ClientShard(a))
    requires Told(c, calls, n, a, calls[j].now, mid, CutoffMid(c, calls, j, a))
    ensures AsTold(c, calls, n, a, calls[j].now, Swept(c, mid, calls[j].now))
  {
    SweptTold(c, calls, j, n, a, mid, CutoffMid(c, calls, j, a));
    NextAsTold(c, calls, j, n, a, mid.lastSweep, Swept(c, mid, calls[j].now));
  }

  lemma StripeTold(c: Config, calls: seq<Call>, j: nat, n: nat, a: Addr, sh: Shard)
    requires n == j + 1 <= |calls| && c.ttl > 0 && c.maxSessions > 0 && Ordered(calls)
    requires ClientShard(calls[j].addr) == ClientShard(a)
    requires AsTold(c, calls, j, a, calls[j].now, sh) && (Rates(c, calls[j], sh) <==> TooMany(c, calls, j))
    ensures AsTold(c, calls, n, a, calls[j].now, Swept(c, Judging(c, calls[j], sh), calls[j].now))
  {
    JudgingTold(c, calls, j, n, a, sh);
    JudgedAsTold(c, calls, j, n, a, Judging(c, calls[j], sh));
  }

  lemma ElsewhereTold(c: Config, calls: seq<Call>, j: nat, n: nat, a: Addr, sh: Shard)
    requires n == j + 1 <= |calls| && ClientShard(calls[j].addr) != ClientShard(a)
    requires AsTold(c, calls, j, a, calls[j].now, sh)
    ensures AsTold(c, calls, n, a, calls[j].now, sh)
  {
    BystanderTold(c, calls, j, n, a, sh);
  }

  /** The stripe of address a after the first j calls. */
  ghost function StripeOf(c: Config, calls: seq<Call>, j: nat, a: Addr): Shard
    requires j <= |calls|
  {
    After(c, calls[..j])[ClientShard(a)]
  }

  lemma StripeNext(c: Config, calls: seq<Call>, j: nat, a: Addr)
    requires j < |calls| && c.ttl > 0 && Ordered(calls)
    ensures var x, sh := calls[j], StripeOf(c, calls, j, a);
      if ClientShard(x.addr) == ClientShard(a)
      then
        && StripeOf(c, calls, j + 1, a) == Swept(c, Judging(c, x, sh), x.now)
        && (Rates(c, x, sh) <==> TooMany(c, calls, j))
      else StripeOf(c, calls, j + 1, a) == sh
  {
    assert calls[..j + 1][..j] == calls[..j];
    RateDeniedIff(c, calls, j);
  }

  lemma {:induction false} RunIsAsTold(c: Config, calls: seq<Call>, j: nat, a: Addr, t: int)
    requires j <= |calls| && c.ttl > 0 && c.maxSessions > 0 && Ordered(calls)
    requires j > 0 ==> calls[j - 1].now <= t
    ensures AsTold(c, calls, j, a, t, StripeOf(c, calls, j, a))
  {
    if j == 0 {
      assert calls[..0] == [];
    } else {
      var m, x, sh := j - 1, calls[j - 1], StripeOf(c, calls, j - 1, a);
      RunIsAsTold(c, calls, m, a, x.now);
      StripeNext(c, calls, m, a);
      if ClientShard(x.addr) == ClientShard(a) {
        StripeTold(c, calls, m, j, a, sh);
      } else {
        ElsewhereTold(c, calls, m, j, a, sh);
      }
      TimePasses(c.ttl, StripeOf(c, calls, j, a), Records(c, calls, j), a, LastCutoff(c, calls, j, a),
                 OwnSweep(c, calls, j, a), LastCall(Ticks(calls), j, a), x.now, t);
    }
  }

  /** The ports counted when the verdict on call j falls. */
  ghost function PortsOn(c: Config, calls: seq<Call>, j: nat): set<Port>
    requires j < |calls|
  {
    var x := calls[j];
    Judged(c, Found(StripeOf(c, calls, j, x.addr), x.addr, Unix(x.now)), x.port, x.now).0.sessions.Keys
  }

  /** The port set exactly: on every ordered run the ports counted at a session check are those the
      address recorded since the cutoff in force, which the calls alone decide; and the check refuses
      if and only if they are too many. */
  lemma PortsAreExact(c: Config, calls: seq<Call>, j: nat)
    requires j < |calls| && c.ttl > 0 && c.maxSessions > 0 && Ordered(calls)
    ensures VerdictOn(c, calls, j) ==
      if TooMany(c, calls, j) then RateDenied
      else if |PortsSince(Records(c, calls, j + 1), calls[j].addr, CutoffOn(c, calls, j))| > c.maxSessions
      then SessionDenied
      else Passed
    ensures !TooMany(c, calls, j) ==>
      PortsOn(c, calls, j) == PortsSince(Records(c, calls, j + 1), calls[j].addr, CutoffOn(c, calls, j))
  {
    RunIsAsTold(c, calls, j, calls[j].addr, calls[j].now);
    StripeNext(c, calls, j, calls[j].addr);
    CallerTold(c, calls, j, j + 1, StripeOf(c, calls, j, calls[j].addr));
  }

  /** What a port set and a verdict say about the ports recorded up to and including call x. */
  ghost predicate Sandwiched(c: Config, recs: seq<Record>, x: Call, ports: set<Port>, v: Verdict) {
    var recent := PortsSince(recs, x.addr, Unix(x.now - c.ttl));
    var counted := PortsSince(recs, x.addr, Oldest(c.ttl, x.now));
    && recent <= ports <= counted
    && (v == Passed ==> |recent| <= c.maxSessions)
    && (v == SessionDenied ==> |counted| > c.maxSessions)
  }

  lemma CutoffBounds(c: Config, calls: seq<Call>, j: nat)
    requires j < |calls| && c.ttl > 0 && Ordered(calls) && !TooMany(c, calls, j)
    ensures Oldest(c.ttl, calls[j].now) <= CutoffOn(c, calls, j) <= Unix(calls[j].now - c.ttl)
  {
    CutoffIsPast(c, calls, j, calls[j].addr, calls[j].now);
  }

  /** Hence the sandwich: at every session check of every ordered run the port set holds every port of the
      address recorded within the time-to-live and only ports recorded within about twice that, so a
      pass bounds the recent ports and a session refusal exhibits too many of them. */
  lemma PortSandwich(c: Config, calls: seq<Call>, j: nat)
    requires j < |calls| && c.ttl > 0 && c.maxSessions > 0 && Ordered(calls)
    requires VerdictOn(c, calls, j) != RateDenied
    ensures Sandwiched(c, Records(c, calls, j + 1), calls[j], PortsOn(c, calls, j), VerdictOn(c, calls, j))
  {
    PortsAreExact(c, calls, j);
    CutoffBounds(c, calls, j);
    var recs, a, ports := Records(c, calls, j + 1), calls[j].addr, PortsOn(c, calls, j);
    SubsetSize(PortsSince(recs, a, Unix(calls[j].now - c.ttl)), ports);
    SubsetSize(ports, PortsSince(recs, a, Oldest(c.ttl, calls[j].now)));
  }

  /** Three ports in turn, the second a time-to-live after the first and the third a second later. */
  ghost function ThreePorts(a: Addr, p: seq<Port>, sec: int, T: int): seq<Call>
    requires |p| == 3
  {
    [Call(a, p[0], sec * SECOND), Call(a, p[1], (sec + T) * SECOND), Call(a, p[2], (sec + T + 1) * SECOND)]
  }

  lemma ThreePortsSwept(c: Config, a: Addr, p: seq<Port>, sec: int, T: int)
    requires |p| == 3 && T >= 2 && sec >= T && c.maxPackets <= 0 && c.ttl == T * SECOND
    ensures var calls := ThreePorts(a, p, sec, T);
      Ordered(calls) && !TooMany(c, calls, 2) && CutoffOn(c, calls, 2) == sec
  {
    var calls := ThreePorts(a, p, sec, T);
    assert Unix(calls[0].now) == sec && Unix(calls[1].now) == sec + T && Unix(calls[2].now) == sec + T + 1;
    assert OwnSweep(c, calls, 0, a) == 0 && OwnSweep(c, calls, 1, a) == sec;
    assert SweepsOwn(c, calls, 1) && OwnSweep(c, calls, 2, a) == sec + T;
    assert !SweepsOwn(c, calls, 2) && LastCutoff(c, calls, 2, a) == Unix(calls[1].now - c.ttl);
  }

  lemma ThreePortsRecorded(c: Config, a: Addr, p: seq<Port>, sec: int, T: int)
    requires |p| == 3 && T >= 2 && c.maxPackets <= 0
    ensures Records(c, ThreePorts(a, p, sec, T), 3)
         == [Record(a, p[0], sec), Record(a, p[1], sec + T), Record(a, p[2], sec + T + 1)]
  {
    var calls := ThreePorts(a, p, sec, T);
    assert Records(c, calls, 1) == [] + [Record(a, p[0], sec)];
    assert Records(c, calls, 2) == Records(c, calls, 1) + [Record(a, p[1], sec + T)];
    assert Records(c, calls, 3) == Records(c, calls, 2) + [Record(a, p[2], sec + T + 1)];
  }

  /** So a port that has not been used for longer than the time-to-live can still have its address refused:
      two ports in the last T seconds, a limit of two, and a refusal. */
  lemma OldPortIsCounted(a: Addr, p: seq<Port>, sec: int, T: int)
    requires |p| == 3 && p[0] != p[1] && p[0] != p[2] && p[1] != p[2] && T >= 2 && sec >= T
    ensures var c, calls := Config(0, 2, T * SECOND), ThreePorts(a, p, sec, T);
      && VerdictOn(c, calls, 2) == SessionDenied
      && PortsSince(Records(c, calls, 3), a, Unix(calls[2].now - c.ttl)) == {p[1], p[2]}
  {
    var c, calls := Config(0, 2, T * SECOND), ThreePorts(a, p, sec, T);
    ThreePortsSwept(c, a, p, sec, T);
    ThreePortsRecorded(c, a, p, sec, T);
    ThreePortsSince(Records(c, calls, 3), a, p, sec, sec + T, sec + T + 1);
    assert Unix(calls[2].now - c.ttl) == sec + 1;
    assert |{p[0], p[1], p[2]}| == 3;
    RefusedWhenMany(c, calls, 2, 3, Records(c, calls, 3), sec);
  }

  lemma RefusedWhenMany(c: Config, calls: seq<Call>, j: nat, n: nat, recs: seq<Record>, lo: int)
    requires n == j + 1 <= |calls| && c.ttl > 0 && c.maxSessions > 0 && Ordered(calls) && !TooMany(c, calls, j)
    requires recs == Records(c, calls, n) && lo == CutoffOn(c, calls, j)
    requires |PortsSince(recs, calls[j].addr, lo)| > c.maxSessions
    ensures VerdictOn(c, calls, j) == SessionDenied
  {
    PortsAreExact(c, calls, j);
  }

  lemma ThreePortsSince(recs: seq<Record>, a: Addr, p: seq<Port>, s: int, t: int, u: int)
    requires |p| == 3 && s < t < u && recs == [Record(a, p[0], s), Record(a, p[1], t), Record(a, p[2], u)]
    ensures PortsSince(recs, a, s) == {p[0], p[1], p[2]} && PortsSince(recs, a, s + 1) == {p[1], p[2]}
  {
    assert recs[0].port == p[0] && recs[1].port == p[1] && recs[2].port == p[2];
  }

  /** With a time-to-live of T whole seconds the bounds are exactly T and less than 2T seconds. */
  lemma WholeSecondBounds(c: Config, now: int, T: int)
    requires T > 0 && c.ttl == T * SECOND
    ensures Unix(now - c.ttl) == Unix(now) - T && Oldest(c.ttl, now) == Unix(now) - 2 * T + 1
  {
  }
}
