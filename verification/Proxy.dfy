/** The session table with its connection counts: forward, Delete and the reaper, each as one step
    (internal/session/session.go, forward in internal/frontend/frontend.go, Server in
    internal/backend/backend.go). */
module Proxy {
  import opened Basics
  import opened Sharding
  import Backend

  /** A server of a pool. Addresses are distinct within a pool, so the pair identifies the server. */
  datatype ServerId = ServerId(pool: Name, address: Name)

  /** A session's binding, and when it was last seen. The eviction callback is kept as data: the
      server whose connection count it lowers, if any. */
  datatype Session = Session(address: Name, onEvict: Option<ServerId>, lastSeen: int)

  datatype Frontend = Frontend(pool: Name, affinity: bool)

  /** One plain session map, and each server's health and connection count. */
  datatype World = World(sessions: map<Key, Session>, healthy: map<ServerId, bool>, conns: map<ServerId, int>)

  // ----- the steps, on a plain map -----

  /** The server a Pick returns is a healthy one of the pool. */
  ghost predicate ValidPick(w: World, pool: Name, p: Option<ServerId>) {
    p.Some? ==> p.value.pool == pool && p.value in w.conns && p.value in w.healthy && w.healthy[p.value]
  }

  /** What a Pick that nothing disturbs sees of a pool's servers, listed in order. */
  ghost predicate Shows(w: World, pool: Name, list: seq<ServerId>, up: seq<bool>, counts: seq<int>) {
    && |up| == |counts| == |list|
    && forall i | 0 <= i < |list| ::
         && list[i].pool == pool && list[i] in w.conns && list[i] in w.healthy
         && up[i] == w.healthy[list[i]] && counts[i] == w.conns[list[i]]
  }

  /** The answer of such a Pick is never nil, and is a valid pick of the world. */
  lemma SteadyPickIsValid(w: World, pool: Name, list: seq<ServerId>, up: seq<bool>, counts: seq<int>,
                          weights: seq<int>, algorithm: string, clientIP: seq<bv8>, rr: nat, draw: nat -> nat,
                          loads: Backend.Loads, server: Option<nat>)
    requires Shows(w, pool, list, up, counts) && |weights| == |list| && Backend.FairDraw(draw)
    requires Backend.SteadyHealth(loads, up) && Backend.Weighed(weights, loads) != []
    requires Backend.Answers(weights, algorithm, clientIP, rr, draw, loads, server)
    ensures server.Some? && server.value < |list| && ValidPick(w, pool, Some(list[server.value]))
  {
    Backend.AnswerIsSteady(weights, algorithm, clientIP, rr, draw, loads, server, up);
  }

  function Bump(conns: map<ServerId, int>, s: ServerId, d: int): map<ServerId, int> {
    if s in conns then conns[s := conns[s] + d] else conns
  }

  /** The effect of one eviction callback. */
  function Run(conns: map<ServerId, int>, callback: Option<ServerId>): map<ServerId, int> {
    if callback.Some? then Bump(conns, callback.value, -1) else conns
  }

  function Bind(w: World, k: Key, x: Session): World {
    w.(sessions := w.sessions[k := x])
  }

  predicate Serving(w: World, s: ServerId) {
    s in w.conns && s in w.healthy && w.healthy[s]
  }

  /** A session bound, and the counts that go with it. */
  function Rebound(w: World, k: Key, x: Session, conns: map<ServerId, int>): World {
    World(w.sessions[k := x], w.healthy, conns)
  }

  /** What the sticky path makes of a session x: a new one raises its server's count, and one whose
      server is not serving moves, with its count. The last part is the server to send to, or None. */
  function Settled(w: World, f: Frontend, x: Session, created: bool, second: Option<ServerId>, now: int)
    : (Session, map<ServerId, int>, Option<ServerId>)
  {
    var s := ServerId(f.pool, x.address);
    var wired := if created && s in w.conns then Some(s) else x.onEvict;
    var conns := if created then Bump(w.conns, s, 1) else w.conns;
    if Serving(w, s) then (Session(x.address, wired, now), conns, Some(s))
    else if second.None? then (Session(x.address, wired, now), conns, None)
    else (Session(second.value.address, second, now), Bump(Bump(conns, s, -1), second.value, 1), second)
  }

  /** The sticky path of forward. */
  function Sticky(w: World, f: Frontend, k: Key, first: Option<ServerId>, second: Option<ServerId>, now: int)
    : (World, Option<ServerId>)
  {
    if k !in w.sessions && first.None? then (w, None)
    else
      var x := if k in w.sessions then w.sessions[k] else Session(first.value.address, None, now);
      var (x', conns, to) := Settled(w, f, x, k !in w.sessions, second, now);
      (Rebound(w, k, x', conns), to)
  }

  /** The path without affinity: the session only records where the client was last sent. */
  function Loose(w: World, k: Key, first: Option<ServerId>, now: int): (World, Option<ServerId>) {
    if first.None? then (w, None)
    else
      var x := if k in w.sessions then w.sessions[k] else Session(first.value.address, None, now);
      var x' := if x.address != first.value.address then Session(first.value.address, None, now) else x;
      (Bind(w, k, x'.(lastSeen := now)), first)
  }

  function Forwarded(w: World, f: Frontend, k: Key, first: Option<ServerId>, second: Option<ServerId>, now: int)
    : (World, Option<ServerId>)
  {
    if f.affinity then Sticky(w, f, k, first, second, now) else Loose(w, k, first, now)
  }

  ghost predicate Aims(sessions: map<Key, Session>, k: Key, s: ServerId) {
    k in sessions && sessions[k].onEvict == Some(s)
  }

  /** How many of the sessions under ks would, on eviction, lower server s. */
  ghost function Hits(sessions: map<Key, Session>, ks: set<Key>, s: ServerId): nat {
    |set k | k in ks && Aims(sessions, k, s)|
  }

  /** The sessions under ks removed, each one's callback run once. */
  ghost function Removed(w: World, ks: set<Key>): World {
    w.(sessions := w.sessions - ks, conns := map s | s in w.conns :: w.conns[s] - Hits(w.sessions, ks, s))
  }

  /** Delete: one session removed, its callback run. */
  function Deleted(w: World, k: Key): World {
    if k !in w.sessions then w
    else
      w.(sessions := w.sessions - {k}, conns := Run(w.conns, w.sessions[k].onEvict))
  }

  ghost function Stale(w: World, cutoff: int): set<Key> {
    set k | k in w.sessions && w.sessions[k].lastSeen < cutoff
  }

  /** Left are the sessions seen within the timeout, as they were; the others' callbacks have run once
      each. */
  ghost predicate Evicts(w: World, after: World, now: int, timeout: int) {
    && (forall k :: k in after.sessions <==> k in w.sessions && now - w.sessions[k].lastSeen <= timeout)
    && after == Removed(w, w.sessions.Keys - after.sessions.Keys)
  }

  lemma StaleAreEvicted(w: World, cutoff: int, now: int, timeout: int)
    requires cutoff == now - timeout
    ensures Evicts(w, Removed(w, Stale(w, cutoff)), now, timeout)
  {
    var after := Removed(w, Stale(w, cutoff));
    assert w.sessions.Keys - after.sessions.Keys == Stale(w, cutoff);
  }

  /** Callbacks name existing servers. */
  ghost predicate Closed(w: World) {
    forall k | k in w.sessions && w.sessions[k].onEvict.Some? :: w.sessions[k].onEvict.value in w.conns
  }

  // ----- the object: 256 stripes and a separate counter -----

  lemma HitsAdd(sessions: map<Key, Session>, ks: set<Key>, k: Key, s: ServerId)
    requires k !in ks
    ensures Hits(sessions, ks + {k}, s) == Hits(sessions, ks, s) + if Aims(sessions, k, s) then 1 else 0
  {
    var before := set x | x in ks && Aims(sessions, x, s);
    var after := set x | x in ks + {k} && Aims(sessions, x, s);
    assert after == before + if Aims(sessions, k, s) then {k} else {};
  }

  lemma NoHits(sessions: map<Key, Session>, s: ServerId)
    ensures Hits(sessions, {}, s) == 0
  {
  }

  /** Each of the first n stripes holds its own part of a plain map. */
  ghost predicate Striped(home: Home, shards: seq<map<Key, Session>>, sessions: map<Key, Session>, n: nat)
    requires n <= |shards|
  {
    n == 0 ||
    (Striped(home, shards, sessions, n - 1)
     && shards[n - 1] == map k | k in sessions && home(k) == n - 1 :: sessions[k])
  }

  /** The stripes and the counter stand for a plain map. */
  ghost predicate Represents(home: Home, shards: Shards<Session>, count: int, sessions: map<Key, Session>) {
    Striped(home, shards, sessions, |shards|) && count == |sessions|
  }

  lemma {:induction false} StripeIsPart(
      home: Home, shards: Shards<Session>, sessions: map<Key, Session>, n: nat, i: nat)
    requires i < n <= NUM_SHARDS && Striped(home, shards, sessions, n)
    ensures shards[i] == map k | k in sessions && home(k) == i :: sessions[k]
  {
    if i < n - 1 {
      StripeIsPart(home, shards, sessions, n - 1, i);
    }
  }

  lemma StripedIsFlat(home: Home, shards: Shards<Session>, sessions: map<Key, Session>)
    requires Striped(home, shards, sessions, |shards|)
    ensures Homed(home, shards) && Flat(home, shards) == sessions
  {
    forall i | 0 <= i < NUM_SHARDS
      ensures shards[i] == map k | k in sessions && home(k) == i :: sessions[k]
    {
      StripeIsPart(home, shards, sessions, NUM_SHARDS, i);
    }
    SamePlainMap(home, shards, sessions);
  }

  lemma {:induction false} FlatIsStriped(home: Home, shards: Shards<Session>, sessions: map<Key, Session>, n: nat)
    requires Homed(home, shards) && Flat(home, shards) == sessions && n <= NUM_SHARDS
    ensures Striped(home, shards, sessions, n)
  {
    if n > 0 {
      FlatIsStriped(home, shards, sessions, n - 1);
      forall k
        ensures k in shards[n - 1] <==> k in sessions && home(k) == n - 1
        ensures k in shards[n - 1] ==> sessions[k] == shards[n - 1][k]
      {
        StripeKeys(home, shards, n - 1, k);
      }
    }
  }

  lemma PutRepresents(home: Home, shards: Shards<Session>, count: int, sessions: map<Key, Session>,
                      k: Key, x: Session, n: int)
    requires Represents(home, shards, count, sessions) && n == if k in shards[home(k)] then count else count + 1
    ensures Represents(home, shards[home(k) := shards[home(k)][k := x]], n, sessions[k := x])
  {
    StripedIsFlat(home, shards, sessions);
    PutIsPut(home, shards, k, x);
    Lookup(home, shards, k);
    SizeAfterPut(sessions, k, x);
    FlatIsStriped(home, Put(home, shards, k, x), sessions[k := x], NUM_SHARDS);
  }

  lemma ReboundIsClosed(w: World, k: Key, x: Session, conns: map<ServerId, int>)
    requires Closed(w) && conns.Keys == w.conns.Keys && (x.onEvict.Some? ==> x.onEvict.value in conns)
    ensures Closed(Rebound(w, k, x, conns))
  {
  }

  lemma DropRepresents(home: Home, shards: Shards<Session>, count: int, sessions: map<Key, Session>, k: Key, n: int)
    requires Represents(home, shards, count, sessions) && k in shards[home(k)] && n == count - 1
    ensures Represents(home, shards[home(k) := shards[home(k)] - {k}], n, sessions - {k})
  {
    StripedIsFlat(home, shards, sessions);
    DropIsDrop(home, shards, k);
    Lookup(home, shards, k);
    SizeAfterDrop(sessions, k);
    FlatIsStriped(home, Drop(home, shards, k), sessions - {k}, NUM_SHARDS);
  }

  lemma Stored(home: Home, shards: Shards<Session>, count: int, sessions: map<Key, Session>, k: Key)
    requires Represents(home, shards, count, sessions)
    ensures k in sessions <==> k in shards[home(k)]
    ensures k in sessions ==> sessions[k] == shards[home(k)][k]
  {
    StripedIsFlat(home, shards, sessions);
    Lookup(home, shards, k);
  }

  class Table {
    const home: Home
    var shards: Shards<Session>
    var count: int
    var healthy: map<ServerId, bool>
    var conns: map<ServerId, int>

    /** The plain map that the stripes stand for. */
    ghost var sessions: map<Key, Session>

    ghost function View(): World
      reads this
    {
      World(sessions, healthy, conns)
    }

    ghost predicate Valid()
      reads this
    {
      Represents(home, shards, count, sessions) && Closed(View())
    }

    constructor (home: Home, healthy: map<ServerId, bool>)
      ensures this.home == home && Valid() && View() == World(map[], healthy, map s | s in healthy :: 0)
    {
      this.home, shards, count, this.healthy := home, Empty(), 0, healthy;
      conns := map s | s in healthy :: 0;
      sessions := map[];
      EmptyIsEmpty<Session>(home);
      FlatIsStriped(home, Empty(), map[], NUM_SHARDS);
    }

    /** Len is exact. */
    method Len() returns (n: int)
      requires Valid()
      ensures n == |sessions|
    {
      n := count;
    }

    method Get(k: Key) returns (r: Option<Session>)
      requires Valid()
      ensures r == if k in sessions then Some(sessions[k]) else None
    {
      var i := home(k);
      Stored(home, shards, count, sessions, k);
      r := if k in shards[i] then Some(shards[i][k]) else None;
    }

    /** The stripes and the counter with a session stored under a key that may be new or not. */
    method Place(k: Key, x: Session) returns (placed: Shards<Session>, n: int)
      requires Valid()
      ensures Represents(home, placed, n, sessions[k := x])
    {
      var i := home(k);
      n := if k in shards[i] then count else count + 1;
      placed := shards[i := shards[i][k := x]];
      PutRepresents(home, shards, count, sessions, k, x, n);
    }

    /** Store a session, and the counts that go with it; used where the source writes through the
        session and server pointers it holds. */
    method Commit(k: Key, x: Session, counts: map<ServerId, int>)
      requires Valid() && counts.Keys == conns.Keys && (x.onEvict.Some? ==> x.onEvict.value in conns)
      modifies this`shards, this`count, this`conns, this`sessions
      ensures Valid() && View() == Rebound(old(View()), k, x, counts)
    {
      var placed, n := Place(k, x);
      ReboundIsClosed(View(), k, x, counts);
      shards, count, conns, sessions := placed, n, counts, sessions[k := x];
    }

    /** GetOrCreate: newFn's answer is used only when the key is absent. */
    method GetOrCreate(k: Key, made: Option<Session>) returns (r: Option<Session>, created: bool)
      requires Valid() && (made.Some? && made.value.onEvict.Some? ==> made.value.onEvict.value in conns)
      modifies this`shards, this`count, this`conns, this`sessions
      ensures Valid()
      ensures created <==> k !in old(View()).sessions && made.Some?
      ensures View() == if created then Bind(old(View()), k, made.value) else old(View())
      ensures r == if k in old(View()).sessions then Some(old(View()).sessions[k]) else made
    {
      r := Get(k);
      if r.Some? {
        return r, false;
      }
      if made.None? {
        return None, false;
      }
      Commit(k, made.value, conns);
      return made, true;
    }

    /** Delete removes one session and runs its callback. */
    method Delete(k: Key)
      requires Valid()
      modifies this`shards, this`count, this`conns, this`sessions
      ensures Valid() && View() == Deleted(old(View()), k)
    {
      DeletedIsClosed(View(), k);
      Stored(home, shards, count, sessions, k);
      var i := home(k);
      if k in shards[i] {
        var x, n := shards[i][k], count - 1;
        DropRepresents(home, shards, count, sessions, k, n);
        shards, count, conns, sessions := shards[i := shards[i] - {k}], n, Run(conns, x.onEvict), sessions - {k};
      }
    }

    /** The locked part of a sweep of one stripe: entries last seen before the cutoff go, each lowering
        the counter, and their callbacks are collected for later. */
    static method SweepEntries(entries: map<Key, Session>, cutoff: int)
      returns (kept: map<Key, Session>, removed: nat, callbacks: seq<Option<ServerId>>)
      ensures kept == entries - StaleIn(entries, cutoff) && removed == |StaleIn(entries, cutoff)|
      ensures Collects(entries, StaleIn(entries, cutoff), callbacks)
    {
      kept, removed, callbacks := entries, 0, [];
      ghost var gone: set<Key> := {};
      var todo := entries.Keys;
      NothingCollected(entries);
      while todo != {}
        invariant todo <= kept.Keys && kept == entries - gone
        invariant gone == set k | k in StaleIn(entries, cutoff) && k !in todo
        invariant removed == |gone| && Collects(entries, gone, callbacks)
        decreases todo
      {
        var k :| k in todo;
        if kept[k].lastSeen < cutoff {
          CollectOne(entries, gone, callbacks, k);
          callbacks := callbacks + [kept[k].onEvict];
          kept, removed, gone := kept - {k}, removed + 1, gone + {k};
        }
        todo := todo - {k};
      }
      assert gone == StaleIn(entries, cutoff);
    }

    /** The callbacks of one stripe, run after its lock is released. */
    static method RunAll(conns: map<ServerId, int>, callbacks: seq<Option<ServerId>>) returns (r: map<ServerId, int>)
      ensures r == Lowered(conns, callbacks)
    {
      r := conns;
      LoweredByNone(conns);
      for j := 0 to |callbacks|
        invariant r == Lowered(conns, callbacks[..j])
      {
        LoweredByOne(conns, callbacks[..j], callbacks[j]);
        assert callbacks[..j + 1] == callbacks[..j] + [callbacks[j]];
        r := Run(r, callbacks[j]);
      }
      assert callbacks[..|callbacks|] == callbacks;
    }

    /** The sweep of one stripe: the new stripes and counter, and the connection counts once the
        callbacks have run. */
    method SweepShard(i: nat, cutoff: int)
      returns (swept: Shards<Session>, left: int, lowered: map<ServerId, int>, ghost next: World)
      requires Valid() && i < NUM_SHARDS
      ensures next == Removed(View(), StaleAt(home, View(), cutoff, i))
      ensures Represents(home, swept, left, next.sessions) && Closed(next)
      ensures next.healthy == healthy && next.conns == lowered
    {
      var kept, removed, callbacks := SweepEntries(shards[i], cutoff);
      ghost var gone := StaleIn(shards[i], cutoff);
      left, swept := count - removed, shards[i := kept];
      SweepIsRemoval(home, shards, count, View(), i, cutoff, callbacks, gone, kept, left);
      next := Removed(View(), gone);
      lowered := RunAll(conns, callbacks);
    }

    /** One stripe of the reaper's sweep. */
    method EvictShard(i: nat, cutoff: int)
      requires Valid() && i < NUM_SHARDS
      modifies this`shards, this`count, this`conns, this`sessions
      ensures Valid() && View() == Removed(old(View()), StaleAt(home, old(View()), cutoff, i))
    {
      var swept, left, lowered, next := SweepShard(i, cutoff);
      shards, count, conns, sessions := swept, left, lowered, next.sessions;
      assert View() == next;
    }

    /** Stripe after stripe, the sessions last seen before the cutoff. */
    method EvictBefore(cutoff: int)
      requires Valid()
      modifies this`shards, this`count, this`conns, this`sessions
      ensures Valid() && View() == Removed(old(View()), Stale(old(View()), cutoff))
    {
      ghost var w := View();
      NoStripes(home, w, cutoff);
      for i := 0 to NUM_SHARDS
        invariant Valid() && View() == Removed(w, StaleBelow(home, w, cutoff, i))
      {
        EvictShard(i, cutoff);
        SweepNext(home, w, cutoff, i);
      }
      AllStripes(home, w, cutoff);
    }

    /** The reaper's sweep: a session survives if and only if it was seen within the timeout, with its
        binding as it was; the counter drops by the number of the others, and each one's callback runs
        exactly once. */
    method EvictExpired(now: int, timeout: int)
      requires Valid()
      modifies this`shards, this`count, this`conns, this`sessions
      ensures Valid() && Evicts(old(View()), View(), now, timeout)
    {
      var cutoff := now - timeout;
      StaleAreEvicted(View(), cutoff, now, timeout);
      EvictBefore(cutoff);
    }

    /** Pick on the servers of a pool, as they stand. */
    method PickServer(pool: Name, list: seq<ServerId>, weights: seq<int>, algorithm: string, clientIP: seq<bv8>,
                      rr: nat, draw: nat -> nat)
      returns (p: Option<ServerId>, next: nat, ghost up: seq<bool>, ghost counts: seq<int>)
      requires forall i | 0 <= i < |list| :: list[i].pool == pool && list[i] in conns && list[i] in healthy
      requires |weights| == |list| && rr < Backend.TWO64 && Backend.FairDraw(draw)
      ensures Shows(View(), pool, list, up, counts) && ValidPick(View(), pool, p)
      ensures p.None? <==> Backend.Expand(weights, up) == []
      ensures p.Some? && algorithm == "least_conn" ==>
        exists best: nat :: Backend.IsLeast(up, counts, best) && p.value == list[best]
    {
      var h, c := healthy, conns;
      up := seq(|list|, i requires 0 <= i < |list| => h[list[i]]);
      counts := seq(|list|, i requires 0 <= i < |list| => c[list[i]]);
      var loads: Backend.Loads := (_: Backend.Pass, i: nat) => i < |list| && list[i] in h && h[list[i]];
      var loaded: Backend.ConnLoads := (_: nat, j: nat) => if j < |list| && list[j] in c then c[list[j]] else 0;
      var r;
      r, next := Backend.PickAmong(weights, algorithm, clientIP, rr, draw, loads, loaded, counts);
      Backend.SteadyIsSeen(weights, loads, up, Backend.Weighing);
      Backend.SteadyIsSeen(weights, loads, up, Backend.Walking);
      p := None;
      if r.Chosen? {
        SteadyPickIsValid(View(), pool, list, up, counts, weights, algorithm, clientIP, rr, draw, loads, r.server);
        p := Some(list[r.server.value]);
      }
    }

    method Settle(f: Frontend, found: Session, created: bool, second: Option<ServerId>, now: int)
      returns (x: Session, counts: map<ServerId, int>, to: Option<ServerId>)
      ensures (x, counts, to) == Settled(View(), f, found, created, second, now)
    {
      x, counts := found, conns;
      var s := ServerId(f.pool, x.address);
      if created && s in counts {
        counts := counts[s := counts[s] + 1];
        x := x.(onEvict := Some(s));
      }
      x := x.(lastSeen := now);
      to := Some(s);
      if !(s in counts && s in healthy && healthy[s]) {
        if second.None? {
          return x, counts, None;
        }
        counts := Bump(Bump(counts, s, -1), second.value, 1);
        x := x.(address := second.value.address, onEvict := second);
        to := second;
      }
    }

    /** The sticky path of forward. */
    method ForwardSticky(f: Frontend, k: Key, first: Option<ServerId>, second: Option<ServerId>, now: int)
      returns (to: Option<ServerId>)
      requires Valid() && ValidPick(View(), f.pool, first) && ValidPick(View(), f.pool, second)
      modifies this`shards, this`count, this`conns, this`sessions
      ensures Valid() && (View(), to) == Sticky(old(View()), f, k, first, second, now)
    {
      ghost var before := sessions;
      var made := if first.Some? then Some(Session(first.value.address, None, now)) else None;
      var found, created := GetOrCreate(k, made);
      if found.None? {
        return None;
      }
      var x, counts, chosen := Settle(f, found.value, created, second, now);
      SettledIsClosed(View(), f, k, found.value, created, second, now);
      Rewrite(before, k, found.value, x);
      Commit(k, x, counts);
      to := chosen;
    }

    /** The path of forward without affinity. */
    method ForwardLoose(k: Key, first: Option<ServerId>, now: int) returns (to: Option<ServerId>)
      requires Valid()
      modifies this`shards, this`count, this`conns, this`sessions
      ensures Valid() && (View(), to) == Loose(old(View()), k, first, now)
    {
      if first.None? {
        return None;
      }
      ghost var before := sessions;
      var made := Session(first.value.address, None, now);
      var found, created := GetOrCreate(k, Some(made));
      var x := found.value;
      if !created && x.address != first.value.address {
        x := Session(first.value.address, None, x.lastSeen);
      }
      x := x.(lastSeen := now);
      Commit(k, x, conns);
      Rewrite(before, k, made, x);
      to := first;
    }

    /** forward up to the choice of server, without interference. first and second are what Pick
        returns if it is called for a new packet or session, and for a replacement. */
    method Forward(f: Frontend, k: Key, first: Option<ServerId>, second: Option<ServerId>, now: int)
      returns (to: Option<ServerId>)
      requires Valid() && ValidPick(View(), f.pool, first) && ValidPick(View(), f.pool, second)
      modifies this`shards, this`count, this`conns, this`sessions
      ensures Valid() && (View(), to) == Forwarded(old(View()), f, k, first, second, now)
    {
      if f.affinity {
        to := ForwardSticky(f, k, first, second, now);
      } else {
        to := ForwardLoose(k, first, now);
      }
    }
  }

  /** An empty table over the source's own stripes. */
  method NewTable(healthy: map<ServerId, bool>) returns (t: Table)
    ensures fresh(t) && t.Valid() && t.View() == World(map[], healthy, map s | s in healthy :: 0)
    ensures forall k :: t.home(k) == ShardFor(k)
  {
    var home: Home := (k: Key) => ShardFor(k);
    t := new Table(home, healthy);
  }

  lemma SettledIsClosed(w: World, f: Frontend, k: Key, x: Session, created: bool, second: Option<ServerId>, now: int)
    requires Closed(w) && k in w.sessions && w.sessions[k] == x && ValidPick(w, f.pool, second)
    ensures var (x', conns, _) := Settled(w, f, x, created, second, now);
      conns.Keys == w.conns.Keys && (x'.onEvict.Some? ==> x'.onEvict.value in conns)
  {
  }

  lemma Rewrite(m: map<Key, Session>, k: Key, x: Session, y: Session)
    ensures m[k := x][k := y] == m[k := y]
  {
  }

  /** The stale sessions of one stripe, and those of all stripes below one. */
  ghost function StaleIn(entries: map<Key, Session>, cutoff: int): set<Key> {
    set k | k in entries && entries[k].lastSeen < cutoff
  }

  ghost function StaleAt(home: Home, w: World, cutoff: int, i: nat): set<Key> {
    set k | k in Stale(w, cutoff) && home(k) == i
  }

  ghost function StaleBelow(home: Home, w: World, cutoff: int, i: nat): set<Key> {
    set k | k in Stale(w, cutoff) && home(k) < i
  }

  lemma DeletedIsClosed(w: World, k: Key)
    requires Closed(w)
    ensures Closed(Deleted(w, k))
  {
  }

  lemma StripeKeys(home: Home, shards: Shards<Session>, i: nat, k: Key)
    requires i < NUM_SHARDS && Homed(home, shards)
    ensures k in shards[i] <==> k in Flat(home, shards) && home(k) == i
    ensures k in shards[i] ==> Flat(home, shards)[k] == shards[i][k]
  {
  }

  lemma StripeIsOwnPart(home: Home, shards: Shards<Session>, sessions: map<Key, Session>, i: nat)
    requires i < NUM_SHARDS && Homed(home, shards) && Flat(home, shards) == sessions
    ensures forall k :: k in shards[i] <==> k in sessions && home(k) == i
    ensures forall k | k in shards[i] :: sessions[k] == shards[i][k]
  {
    forall k
      ensures k in shards[i] <==> k in sessions && home(k) == i
      ensures k in shards[i] ==> sessions[k] == shards[i][k]
    {
      StripeKeys(home, shards, i, k);
    }
  }

  lemma StaleOfStripe(home: Home, part: map<Key, Session>, w: World, i: nat, cutoff: int)
    requires forall k :: k in part <==> k in w.sessions && home(k) == i
    requires forall k | k in part :: w.sessions[k] == part[k]
    ensures StaleIn(part, cutoff) == StaleAt(home, w, cutoff, i)
  {
  }

  /** Sweeping one stripe keeps the representation and collects the right callbacks. */
  lemma SweepRepresents(home: Home, shards: Shards<Session>, count: int, w: World, i: nat, cutoff: int,
                        callbacks: seq<Option<ServerId>>)
    requires i < NUM_SHARDS && Represents(home, shards, count, w.sessions)
    requires Collects(shards[i], StaleIn(shards[i], cutoff), callbacks)
    ensures var gone := StaleIn(shards[i], cutoff);
      && Represents(home, shards[i := shards[i] - gone], count - |gone|, w.sessions - gone)
      && Collects(w.sessions, gone, callbacks)
      && gone == StaleAt(home, w, cutoff, i)
  {
    var gone := StaleIn(shards[i], cutoff);
    StripedIsFlat(home, shards, w.sessions);
    StripeIsOwnPart(home, shards, w.sessions, i);
    StaleOfStripe(home, shards[i], w, i, cutoff);
    SweepKeepsHomed(home, shards, i, gone);
    FlatIsStriped(home, shards[i := shards[i] - gone], w.sessions - gone, NUM_SHARDS);
    assert (w.sessions - gone).Keys == w.sessions.Keys - gone;
    SameHits(w.sessions, shards[i], gone);
  }

  lemma SweepKeepsHomed(home: Home, shards: Shards<Session>, i: nat, gone: set<Key>)
    requires i < NUM_SHARDS && Homed(home, shards) && forall k | k in gone :: home(k) == i
    ensures Homed(home, shards[i := shards[i] - gone])
    ensures Flat(home, shards[i := shards[i] - gone]) == Flat(home, shards) - gone
  {
    forall k
      ensures k in Flat(home, shards) <==> k in shards[home(k)]
      ensures k in Flat(home, shards) ==> Flat(home, shards)[k] == shards[home(k)][k]
    {
      Lookup(home, shards, k);
    }
    SamePlainMap(home, shards[i := shards[i] - gone], Flat(home, shards) - gone);
  }

  lemma SameHits(m: map<Key, Session>, part: map<Key, Session>, ks: set<Key>)
    requires forall k | k in ks :: k in part && k in m && part[k] == m[k]
    ensures forall s :: Hits(m, ks, s) == Hits(part, ks, s)
  {
    forall s
      ensures Hits(m, ks, s) == Hits(part, ks, s)
    {
      assert (set k | k in ks && Aims(m, k, s)) == (set k | k in ks && Aims(part, k, s));
    }
  }

  /** All that the sweep of one stripe does to the world. */
  lemma SweepIsRemoval(home: Home, shards: Shards<Session>, count: int, w: World, i: nat, cutoff: int,
                       callbacks: seq<Option<ServerId>>, gone: set<Key>, kept: map<Key, Session>, left: int)
    requires i < NUM_SHARDS && Represents(home, shards, count, w.sessions) && Closed(w)
    requires gone == StaleIn(shards[i], cutoff) && kept == shards[i] - gone && left == count - |gone|
    requires Collects(shards[i], gone, callbacks)
    ensures gone == StaleAt(home, w, cutoff, i)
    ensures Represents(home, shards[i := kept], left, Removed(w, gone).sessions)
    ensures Lowered(w.conns, callbacks) == Removed(w, gone).conns && Closed(Removed(w, gone))
  {
    SweepRepresents(home, shards, count, w, i, cutoff, callbacks);
    LoweredIsRemoved(w, gone, callbacks);
    RemovedIsClosed(w, gone);
  }

  lemma NoStripes(home: Home, w: World, cutoff: int)
    ensures w == Removed(w, StaleBelow(home, w, cutoff, 0))
  {
  }

  lemma AllStripes(home: Home, w: World, cutoff: int)
    ensures Removed(w, StaleBelow(home, w, cutoff, NUM_SHARDS)) == Removed(w, Stale(w, cutoff))
  {
    assert StaleBelow(home, w, cutoff, NUM_SHARDS) == Stale(w, cutoff);
  }

  /** One more stripe swept. */
  lemma SweepNext(home: Home, w: World, cutoff: int, i: nat)
    ensures var mid := Removed(w, StaleBelow(home, w, cutoff, i));
      Removed(mid, StaleAt(home, mid, cutoff, i)) == Removed(w, StaleBelow(home, w, cutoff, i + 1))
  {
    var gone := StaleBelow(home, w, cutoff, i);
    var more := StaleAt(home, Removed(w, gone), cutoff, i);
    RemovedTwice(w, gone, more);
    assert gone + more == StaleBelow(home, w, cutoff, i + 1);
  }

  /** The list holds the callbacks of the sessions under ks, each once. */
  ghost predicate Collects(sessions: map<Key, Session>, ks: set<Key>, callbacks: seq<Option<ServerId>>) {
    forall s :: multiset(callbacks)[Some(s)] == Hits(sessions, ks, s)
  }

  lemma NothingCollected(sessions: map<Key, Session>)
    ensures Collects(sessions, {}, [])
  {
  }

  lemma CollectOne(sessions: map<Key, Session>, ks: set<Key>, callbacks: seq<Option<ServerId>>, k: Key)
    requires Collects(sessions, ks, callbacks) && k !in ks && k in sessions
    ensures Collects(sessions, ks + {k}, callbacks + [sessions[k].onEvict])
  {
    forall s
      ensures multiset(callbacks + [sessions[k].onEvict])[Some(s)] == Hits(sessions, ks + {k}, s)
    {
      HitsAdd(sessions, ks, k, s);
    }
  }

  /** Every server lowered once per callback naming it. */
  ghost function Lowered(conns: map<ServerId, int>, callbacks: seq<Option<ServerId>>): map<ServerId, int> {
    map s | s in conns :: conns[s] - multiset(callbacks)[Some(s)]
  }

  lemma LoweredByNone(conns: map<ServerId, int>)
    ensures Lowered(conns, []) == conns
  {
  }

  lemma LoweredByOne(conns: map<ServerId, int>, callbacks: seq<Option<ServerId>>, c: Option<ServerId>)
    ensures Lowered(conns, callbacks + [c]) == Run(Lowered(conns, callbacks), c)
  {
  }

  lemma LoweredIsRemoved(w: World, ks: set<Key>, callbacks: seq<Option<ServerId>>)
    requires Collects(w.sessions, ks, callbacks)
    ensures Lowered(w.conns, callbacks) == Removed(w, ks).conns
  {
  }

  lemma RemovedIsClosed(w: World, ks: set<Key>)
    requires Closed(w)
    ensures Closed(Removed(w, ks))
  {
  }

  lemma HitsTwice(sessions: map<Key, Session>, a: set<Key>, b: set<Key>, s: ServerId)
    requires a !! b
    ensures Hits(sessions, a + b, s) == Hits(sessions, a, s) + Hits(sessions - a, b, s)
  {
    var x := set k | k in a && Aims(sessions, k, s);
    var y := set k | k in b && Aims(sessions - a, k, s);
    assert (set k | k in a + b && Aims(sessions, k, s)) == x + y;
  }

  lemma RemovedTwice(w: World, a: set<Key>, b: set<Key>)
    requires a !! b
    ensures Removed(Removed(w, a), b) == Removed(w, a + b)
  {
    forall s
      ensures Hits(w.sessions, a + b, s) == Hits(w.sessions, a, s) + Hits(w.sessions - a, b, s)
    {
      HitsTwice(w.sessions, a, b, s);
    }
    assert w.sessions - a - b == w.sessions - (a + b);
  }

  /** Removing one session lowers its callback's server by one and nothing else. */
  lemma RemoveOne(w: World, k: Key)
    ensures Removed(w, {k}) == Deleted(w, k)
  {
    forall s
      ensures Hits(w.sessions, {k}, s) == if Aims(w.sessions, k, s) then 1 else 0
    {
      OneHit(w.sessions, k, s);
    }
  }

  lemma OneHit(sessions: map<Key, Session>, k: Key, s: ServerId)
    ensures Hits(sessions, {k}, s) == if Aims(sessions, k, s) then 1 else 0
  {
    NoHits(sessions, s);
    HitsAdd(sessions, {}, k, s);
    assert {} + {k} == {k};
  }

  // ----- what forward promises the client -----

  /** The server a client's session is bound to, if it has one. */
  ghost function Own(w: World, f: Frontend, k: Key): Option<ServerId> {
    if k in w.sessions then Some(ServerId(f.pool, w.sessions[k].address)) else None
  }

  /** Where a packet is due: without affinity, or without a session, to the first pick; else to its own
      server while that serves, and to the second pick when it does not. */
  ghost function Due(w: World, f: Frontend, k: Key, first: Option<ServerId>, second: Option<ServerId>)
    : Option<ServerId>
  {
    if !f.affinity || k !in w.sessions then first
    else if Serving(w, Own(w, f, k).value) then Own(w, f, k)
    else second
  }

  /** A packet goes where it is due, so it is refused if and only if the pick it needs found nothing. */
  lemma ForwardGoesWhereDue(w: World, f: Frontend, k: Key, first: Option<ServerId>, second: Option<ServerId>, now: int)
    requires ValidPick(w, f.pool, first) && ValidPick(w, f.pool, second)
    ensures Forwarded(w, f, k, first, second, now).1 == Due(w, f, k, first, second)
    ensures Forwarded(w, f, k, first, second, now).1.None? <==>
      if !f.affinity || k !in w.sessions then first.None? else !Serving(w, Own(w, f, k).value) && second.None?
  {
  }

  /** How a server's count moves with a packet of a sticky client from its own server, if any, to where
      it goes: one up on arrival, one down on departure, nothing for a refused packet. */
  ghost function Moved(own: Option<ServerId>, to: Option<ServerId>, s: ServerId): int {
    if to.None? || to == own then 0
    else (if to == Some(s) then 1 else 0) - (if own == Some(s) then 1 else 0)
  }

  /** The counts follow the packet, where there is affinity. */
  lemma ForwardMovesCounts(w: World, f: Frontend, k: Key, first: Option<ServerId>, second: Option<ServerId>, now: int,
                           s: ServerId)
    requires ValidPick(w, f.pool, first) && ValidPick(w, f.pool, second) && s in w.conns
    ensures var (after, to) := Forwarded(w, f, k, first, second, now);
      && after.conns.Keys == w.conns.Keys
      && after.conns[s] == w.conns[s] + if f.affinity then Moved(Own(w, f, k), to, s) else 0
  {
  }

  /** The session a packet leaves behind: bound to where the packet went, seen now, and with the callback
      it had unless it is new or has moved. */
  lemma ForwardLeavesSession(w: World, f: Frontend, k: Key, first: Option<ServerId>, second: Option<ServerId>, now: int)
    requires ValidPick(w, f.pool, first) && ValidPick(w, f.pool, second)
    ensures var (after, to) := Forwarded(w, f, k, first, second, now);
      && after.sessions - {k} == w.sessions - {k} && after.healthy == w.healthy
      && (k in after.sessions <==> k in w.sessions || to.Some?)
      && (to.None? && (k !in w.sessions || !f.affinity) ==> after == w)
      && (to.Some? || (k in w.sessions && f.affinity) ==>
            var stays := to.None? || to == Own(w, f, k);
            && after.sessions[k].lastSeen == now
            && after.sessions[k].address == (if to.Some? then to.value.address else w.sessions[k].address)
            && after.sessions[k].onEvict
                 == if stays then w.sessions[k].onEvict else if f.affinity then to else None)
  {
  }

  /** A packet goes to a serving server of the pool. */
  lemma ForwardGoesToServing(w: World, f: Frontend, k: Key, first: Option<ServerId>, second: Option<ServerId>, now: int)
    requires ValidPick(w, f.pool, first) && ValidPick(w, f.pool, second)
    requires Forwarded(w, f, k, first, second, now).1.Some?
    ensures var to := Forwarded(w, f, k, first, second, now).1.value;
      to.pool == f.pool && Serving(w, to)
  {
    ForwardGoesWhereDue(w, f, k, first, second, now);
  }

  // ----- whole runs: connection counts are live sticky sessions -----

  /** Every session is wired as its frontend wants: a sticky one lowers, on eviction, exactly the
      server it is bound to, and any other lowers nothing. */
  ghost predicate Wired(cfg: map<Name, Frontend>, w: World, k: Key)
    requires k in w.sessions
  {
    && k.frontend in cfg
    && var f, x := cfg[k.frontend], w.sessions[k];
       if f.affinity then x.onEvict == Some(ServerId(f.pool, x.address)) && ServerId(f.pool, x.address) in w.conns
       else x.onEvict == None
  }

  /** The live sessions of sticky frontends on s's pool that are bound to s's address. */
  ghost function LiveOn(cfg: map<Name, Frontend>, w: World, s: ServerId): set<Key> {
    set k | k in w.sessions && k.frontend in cfg && cfg[k.frontend].affinity
         && s == ServerId(cfg[k.frontend].pool, w.sessions[k].address)
  }

  ghost function Targets(sessions: map<Key, Session>, s: ServerId): set<Key> {
    set k | k in sessions && sessions[k].onEvict == Some(s)
  }

  ghost function Load(sessions: map<Key, Session>, s: ServerId): nat {
    |Targets(sessions, s)|
  }

  ghost predicate Conserved(cfg: map<Name, Frontend>, w: World) {
    && w.healthy.Keys == w.conns.Keys
    && (forall k | k in w.sessions :: Wired(cfg, w, k))
    && (forall s | s in w.conns :: w.conns[s] == Load(w.sessions, s))
  }

  lemma LoadBind(sessions: map<Key, Session>, k: Key, x: Session, s: ServerId)
    ensures Load(sessions[k := x], s)
         == Load(sessions, s) - (if Aims(sessions, k, s) then 1 else 0) + (if x.onEvict == Some(s) then 1 else 0)
  {
    TargetsBind(sessions, k, x, s);
    var rest := Targets(sessions, s) - {k};
    if Aims(sessions, k, s) {
      assert Targets(sessions, s) == rest + {k};
    } else {
      assert Targets(sessions, s) == rest;
    }
    assert |rest + {k}| == |rest| + 1;
  }

  lemma TargetsBind(sessions: map<Key, Session>, k: Key, x: Session, s: ServerId)
    ensures Targets(sessions[k := x], s)
         == if x.onEvict == Some(s) then Targets(sessions, s) - {k} + {k} else Targets(sessions, s) - {k}
  {
  }

  lemma LoadRemoved(sessions: map<Key, Session>, ks: set<Key>, s: ServerId)
    ensures Load(sessions - ks, s) == Load(sessions, s) - Hits(sessions, ks, s)
  {
    var hit := set k | k in ks && Aims(sessions, k, s);
    assert Targets(sessions - ks, s) == Targets(sessions, s) - hit;
  }

  datatype Step =
    | Packet(k: Key, first: Option<ServerId>, second: Option<ServerId>, now: int)
    | Delete(k: Key)
    | Reap(cutoff: int)
    | Flip(s: ServerId, up: bool)

  ghost predicate Enabled(cfg: map<Name, Frontend>, w: World, step: Step) {
    match step
    case Packet(k, first, second, _) =>
      k.frontend in cfg
      && ValidPick(w, cfg[k.frontend].pool, first) && ValidPick(w, cfg[k.frontend].pool, second)
    case Flip(s, _) => s in w.healthy
    case _ => true
  }

  ghost function Apply(cfg: map<Name, Frontend>, w: World, step: Step): World
    requires Enabled(cfg, w, step)
  {
    match step
    case Packet(k, first, second, now) => Forwarded(w, cfg[k.frontend], k, first, second, now).0
    case Delete(k) => Deleted(w, k)
    case Reap(cutoff) => Removed(w, Stale(w, cutoff))
    case Flip(s, up) => w.(healthy := w.healthy[s := up])
  }

  /** Binding a session whose count has been moved along keeps the counts. */
  lemma BindConserves(cfg: map<Name, Frontend>, w: World, k: Key, x: Session, conns: map<ServerId, int>)
    requires Conserved(cfg, w) && conns.Keys == w.conns.Keys
    requires Wired(cfg, Rebound(w, k, x, conns), k)
    requires forall s | s in conns ::
      conns[s] == w.conns[s] - (if Aims(w.sessions, k, s) then 1 else 0) + (if x.onEvict == Some(s) then 1 else 0)
    ensures Conserved(cfg, Rebound(w, k, x, conns))
  {
    forall s | s in conns
      ensures conns[s] == Load(w.sessions[k := x], s)
    {
      LoadBind(w.sessions, k, x, s);
    }
    forall y | y in w.sessions && y != k
      ensures Wired(cfg, Rebound(w, k, x, conns), y)
    {
      assert Wired(cfg, w, y);
    }
  }

  lemma StickyConserves(cfg: map<Name, Frontend>, w: World, k: Key, first: Option<ServerId>, second: Option<ServerId>,
                        now: int)
    requires Conserved(cfg, w) && Enabled(cfg, w, Packet(k, first, second, now)) && cfg[k.frontend].affinity
    ensures Conserved(cfg, Sticky(w, cfg[k.frontend], k, first, second, now).0)
  {
    assert k in w.sessions ==> Wired(cfg, w, k);
    if k in w.sessions || first.Some? {
      var after := Sticky(w, cfg[k.frontend], k, first, second, now).0;
      BindConserves(cfg, w, k, after.sessions[k], after.conns);
    }
  }

  lemma LooseConserves(cfg: map<Name, Frontend>, w: World, k: Key, first: Option<ServerId>, second: Option<ServerId>,
                       now: int)
    requires Conserved(cfg, w) && Enabled(cfg, w, Packet(k, first, second, now)) && !cfg[k.frontend].affinity
    ensures Conserved(cfg, Loose(w, k, first, now).0)
  {
    if first.Some? {
      assert k in w.sessions ==> Wired(cfg, w, k);
      BindConserves(cfg, w, k, Loose(w, k, first, now).0.sessions[k], w.conns);
    }
  }

  lemma RemovalConserves(cfg: map<Name, Frontend>, w: World, ks: set<Key>)
    requires Conserved(cfg, w)
    ensures Conserved(cfg, Removed(w, ks))
  {
    forall s
      ensures Load(w.sessions - ks, s) == Load(w.sessions, s) - Hits(w.sessions, ks, s)
    {
      LoadRemoved(w.sessions, ks, s);
    }
    forall y | y in w.sessions - ks
      ensures Wired(cfg, Removed(w, ks), y)
    {
      assert Wired(cfg, w, y);
    }
  }

  lemma StepConserves(cfg: map<Name, Frontend>, w: World, step: Step)
    requires Conserved(cfg, w) && Enabled(cfg, w, step)
    ensures Conserved(cfg, Apply(cfg, w, step))
  {
    match step {
      case Packet(k, first, second, now) =>
        if cfg[k.frontend].affinity {
          StickyConserves(cfg, w, k, first, second, now);
        } else {
          LooseConserves(cfg, w, k, first, second, now);
        }
      case Delete(k) =>
        RemoveOne(w, k);
        RemovalConserves(cfg, w, {k});
      case Reap(cutoff) => RemovalConserves(cfg, w, Stale(w, cutoff));
      case Flip(s, up) =>
        forall y | y in w.sessions
          ensures Wired(cfg, w.(healthy := w.healthy[s := up]), y)
        {
          assert Wired(cfg, w, y);
        }
    }
  }

  lemma NoLoad(sessions: map<Key, Session>, s: ServerId)
    requires sessions == map[]
    ensures Load(sessions, s) == 0
  {
  }

  ghost function Exec(cfg: map<Name, Frontend>, servers: set<ServerId>, steps: seq<Step>): Option<World> {
    if steps == [] then Some(World(map[], map s | s in servers :: true, map s | s in servers :: 0))
    else
      match Exec(cfg, servers, steps[..|steps| - 1])
      case None => None
      case Some(w) =>
        var step := steps[|steps| - 1];
        if Enabled(cfg, w, step) then Some(Apply(cfg, w, step)) else None
  }

  lemma {:induction false} RunConserves(cfg: map<Name, Frontend>, servers: set<ServerId>, steps: seq<Step>)
    requires Exec(cfg, servers, steps).Some?
    ensures Conserved(cfg, Exec(cfg, servers, steps).value)
  {
    if steps == [] {
      forall s
        ensures Load(map[], s) == 0
      {
        NoLoad(map[], s);
      }
    } else {
      var n := |steps| - 1;
      RunConserves(cfg, servers, steps[..n]);
      StepConserves(cfg, Exec(cfg, servers, steps[..n]).value, steps[n]);
    }
  }

  lemma LoadIsLive(cfg: map<Name, Frontend>, w: World, s: ServerId)
    requires Conserved(cfg, w)
    ensures Load(w.sessions, s) == |LiveOn(cfg, w, s)|
  {
    forall k | k in w.sessions
      ensures k in Targets(w.sessions, s) <==> k in LiveOn(cfg, w, s)
    {
      assert Wired(cfg, w, k);
    }
    assert LiveOn(cfg, w, s) == Targets(w.sessions, s);
  }

  /** Over every run of forwards, deletions, sweeps and health changes, each server's connection count
      is the number of live sticky sessions bound to it, and each such session's callback lowers
      exactly that server. */
  lemma CountsAreLiveSessions(cfg: map<Name, Frontend>, servers: set<ServerId>, steps: seq<Step>)
    requires Exec(cfg, servers, steps).Some?
    ensures var w := Exec(cfg, servers, steps).value;
      && (forall s | s in w.conns :: w.conns[s] == |LiveOn(cfg, w, s)|)
      && (forall s, k | k in LiveOn(cfg, w, s) :: w.sessions[k].onEvict == Some(s) && s in w.conns)
  {
    RunConserves(cfg, servers, steps);
    var w := Exec(cfg, servers, steps).value;
    forall s
      ensures Load(w.sessions, s) == |LiveOn(cfg, w, s)|
    {
      LoadIsLive(cfg, w, s);
    }
    forall s, k | k in LiveOn(cfg, w, s)
      ensures w.sessions[k].onEvict == Some(s) && s in w.conns
    {
      assert Wired(cfg, w, k);
    }
  }

  /** Hence a least_conn pick, made in any state that a run reaches, is a serving server of the pool
      with fewest live sticky sessions, and a packet that opens a session adds it to that server. */
  lemma LeastConnHasFewestSessions(cfg: map<Name, Frontend>, servers: set<ServerId>, steps: seq<Step>, pool: Name,
                                   list: seq<ServerId>, up: seq<bool>, counts: seq<int>, best: nat)
    requires Exec(cfg, servers, steps).Some? && Shows(Exec(cfg, servers, steps).value, pool, list, up, counts)
    requires Backend.IsLeast(up, counts, best)
    ensures var w := Exec(cfg, servers, steps).value;
      && Serving(w, list[best]) && ValidPick(w, pool, Some(list[best]))
      && forall j | 0 <= j < |list| && Serving(w, list[j]) ::
           |LiveOn(cfg, w, list[best])| <= |LiveOn(cfg, w, list[j])|
  {
    CountsAreLiveSessions(cfg, servers, steps);
  }

  /** The step that such a pick leads to: the client's new session, bound to it and counted there. */
  lemma LeastConnIsUsed(cfg: map<Name, Frontend>, w: World, k: Key, list: seq<ServerId>, up: seq<bool>,
                        counts: seq<int>, best: nat, second: Option<ServerId>, now: int)
    requires k.frontend in cfg && cfg[k.frontend].affinity && k !in w.sessions
    requires Shows(w, cfg[k.frontend].pool, list, up, counts) && Backend.IsLeast(up, counts, best)
    requires ValidPick(w, cfg[k.frontend].pool, second)
    ensures Enabled(cfg, w, Packet(k, Some(list[best]), second, now))
    ensures var after := Apply(cfg, w, Packet(k, Some(list[best]), second, now));
      && LiveOn(cfg, after, list[best]) == LiveOn(cfg, w, list[best]) + {k}
      && after.conns == w.conns[list[best] := w.conns[list[best]] + 1]
  {
  }

  // ----- whole runs: a client keeps its server -----

  /** A step that neither removes a client's session nor takes its server down. */
  ghost predicate Spares(w: World, step: Step, k: Key, s: ServerId) {
    match step
    case Packet(_, _, _, _) => true
    case Delete(x) => x != k
    case Reap(cutoff) => k in w.sessions && w.sessions[k].lastSeen >= cutoff
    case Flip(x, up) => x == s ==> up
  }

  /** The client's session is bound to s, and s serves. */
  ghost predicate Sticks(cfg: map<Name, Frontend>, w: World, k: Key, s: ServerId) {
    && k.frontend in cfg && cfg[k.frontend].affinity && Own(w, cfg[k.frontend], k) == Some(s) && Serving(w, s)
  }

  lemma StepSticks(cfg: map<Name, Frontend>, w: World, step: Step, k: Key, s: ServerId)
    requires Enabled(cfg, w, step) && Sticks(cfg, w, k, s) && Spares(w, step, k, s)
    ensures Sticks(cfg, Apply(cfg, w, step), k, s)
  {
    if step.Packet? {
      var f := cfg[step.k.frontend];
      ForwardGoesWhereDue(w, f, step.k, step.first, step.second, step.now);
      ForwardLeavesSession(w, f, step.k, step.first, step.second, step.now);
      assert s in w.conns;
      ForwardMovesCounts(w, f, step.k, step.first, step.second, step.now, s);
      var after := Apply(cfg, w, step);
      assert k != step.k ==> k in after.sessions - {step.k} && k in w.sessions - {step.k};
    }
  }

  lemma {:induction false} ExecPrefix(cfg: map<Name, Frontend>, servers: set<ServerId>, steps: seq<Step>, n: nat)
    requires Exec(cfg, servers, steps).Some? && n < |steps|
    ensures Exec(cfg, servers, steps[..n]).Some? && Exec(cfg, servers, steps[..n + 1]).Some?
    ensures var w := Exec(cfg, servers, steps[..n]).value;
      Enabled(cfg, w, steps[n]) && Exec(cfg, servers, steps[..n + 1]) == Some(Apply(cfg, w, steps[n]))
  {
    var m := |steps| - 1;
    if n < m {
      ExecPrefix(cfg, servers, steps[..m], n);
      assert steps[..m][..n] == steps[..n] && steps[..m][..n + 1] == steps[..n + 1];
    } else {
      assert steps[..n + 1] == steps;
    }
  }

  /** From step i on, up to step j, nothing removes the client's session or takes its server down. */
  ghost predicate Undisturbed(cfg: map<Name, Frontend>, servers: set<ServerId>, steps: seq<Step>, i: nat, j: nat,
                              k: Key, s: ServerId)
    requires i <= j <= |steps|
  {
    forall n | i <= n < j ::
      Exec(cfg, servers, steps[..n]).Some? && Spares(Exec(cfg, servers, steps[..n]).value, steps[n], k, s)
  }

  lemma {:induction false} RunSticks(cfg: map<Name, Frontend>, servers: set<ServerId>, steps: seq<Step>,
                                     i: nat, j: nat, k: Key, s: ServerId)
    requires Exec(cfg, servers, steps).Some? && i <= j <= |steps| && Undisturbed(cfg, servers, steps, i, j, k, s)
    requires Exec(cfg, servers, steps[..i]).Some? && Sticks(cfg, Exec(cfg, servers, steps[..i]).value, k, s)
    ensures Exec(cfg, servers, steps[..j]).Some? && Sticks(cfg, Exec(cfg, servers, steps[..j]).value, k, s)
    decreases j
  {
    if i < j {
      var m := j - 1;
      RunSticks(cfg, servers, steps, i, m, k, s);
      ExecPrefix(cfg, servers, steps, m);
      StepSticks(cfg, Exec(cfg, servers, steps[..m]).value, steps[m], k, s);
    }
  }

  /** Stickiness over whole runs: from the moment a client's session is bound to a serving server, for as
      long as nothing removes the session and that server stays up, every packet of the client goes
      there, whatever all other clients, servers and sweeps do. */
  lemma ClientKeepsItsServer(cfg: map<Name, Frontend>, servers: set<ServerId>, steps: seq<Step>,
                             i: nat, j: nat, k: Key, s: ServerId)
    requires Exec(cfg, servers, steps).Some? && i <= j < |steps| && Undisturbed(cfg, servers, steps, i, j, k, s)
    requires Exec(cfg, servers, steps[..i]).Some? && Sticks(cfg, Exec(cfg, servers, steps[..i]).value, k, s)
    requires steps[j].Packet? && steps[j].k == k
    ensures Exec(cfg, servers, steps[..j]).Some?
    ensures Forwarded(Exec(cfg, servers, steps[..j]).value, cfg[k.frontend], k,
                      steps[j].first, steps[j].second, steps[j].now).1 == Some(s)
  {
    RunSticks(cfg, servers, steps, i, j, k, s);
    ExecPrefix(cfg, servers, steps, j);
    ForwardGoesWhereDue(Exec(cfg, servers, steps[..j]).value, cfg[k.frontend], k,
                        steps[j].first, steps[j].second, steps[j].now);
  }
}
