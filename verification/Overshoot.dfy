/** The session cap is exceeded: the overshoot bound of SessionCap is reached, for every size of queue and
    of goroutine pools, and the cap holds only where one of them is zero. */
module Overshoot {
  import opened Basics
  import opened Sharding
  import opened SessionCap
  import T = TableSteps

  // ----- clients -----

  /** The i-th of an endless supply of clients of a frontend. */
  function Nth(name: Name, i: nat): Key {
    Key(AddrValue(seq(16, _ => 0), seq(i, _ => 'z')), 0, name)
  }

  lemma NthIsNew(name: Name, i: nat, j: nat)
    ensures Nth(name, i) == Nth(name, j) <==> i == j
  {
    assert |Nth(name, i).addr.zone| == i && |Nth(name, j).addr.zone| == j;
  }

  ghost function First(name: Name, n: nat): set<Key> {
    set i: nat | i < n :: Nth(name, i)
  }

  lemma FirstStep(name: Name, n: nat)
    ensures Nth(name, n) !in First(name, n) && First(name, n + 1) == First(name, n) + {Nth(name, n)}
  {
    forall i: nat | i < n
      ensures Nth(name, i) != Nth(name, n)
    {
      NthIsNew(name, i, n);
    }
  }

  lemma {:induction false} FirstSize(name: Name, n: nat)
    ensures |First(name, n)| == n
  {
    if n > 0 {
      FirstSize(name, n - 1);
      FirstStep(name, n - 1);
    }
  }

  // ----- runs -----

  /** The fixed parts of a run. */
  datatype Setting = Setting(home: Home, lim: Limits, name: Name, init: State)

  ghost predicate Reachable(z: Setting, s: State) {
    exists steps :: Exec(z.home, z.lim, z.init, steps) == Some(s)
  }

  lemma ExecNext(z: Setting, steps: seq<Step>, s: State, step: Step, all: seq<Step>)
    requires Exec(z.home, z.lim, z.init, steps) == Some(s) && Enabled(s, step)
    requires all != [] && all[..|all| - 1] == steps && all[|all| - 1] == step
    ensures Exec(z.home, z.lim, z.init, all) == Some(Apply(z.home, z.lim, s, step))
  {
  }

  lemma Extend(z: Setting, s: State, step: Step)
    requires Reachable(z, s) && Enabled(s, step)
    ensures Reachable(z, Apply(z.home, z.lim, s, step))
  {
    var steps :| Exec(z.home, z.lim, z.init, steps) == Some(s);
    ExecNext(z, steps, s, step, steps + [step]);
  }

  lemma Then(z: Setting, s: State, step: Step) returns (next: State)
    requires Reachable(z, s) && Enabled(s, step)
    ensures Reachable(z, next) && next == Apply(z.home, z.lim, s, step)
  {
    Extend(z, s, step);
    next := Apply(z.home, z.lim, s, step);
  }

  /** The first n clients are in the table. */
  ghost predicate Holds(z: Setting, shards: Shards<nat>, n: nat) {
    Homed(z.home, shards) && Flat(z.home, shards).Keys == First(z.name, n)
  }

  /** The next q clients are queued. */
  ghost predicate Queues(z: Setting, queue: seq<Key>, n: nat, q: nat) {
    |queue| == q && forall i: nat | i < q :: queue[i] == Nth(z.name, n + i)
  }

  /** Readers a to b hold the clients from n on, past the cap test; the others wait. */
  ghost predicate Reads(z: Setting, readers: seq<Reader>, n: nat, a: nat, b: nat) {
    && a <= b <= |readers|
    && forall j: nat | j < |readers| :: readers[j] == if a <= j < b then Passed(Nth(z.name, n + j - a)) else Waiting
  }

  /** A reachable state in which the clients have got this far. */
  ghost predicate Shape(z: Setting, s: State, n: nat, q: nat, a: nat, b: nat) {
    && Reachable(z, s) && Holds(z, s.table.shards, n)
    && Queues(z, s.queue, n, q) && Reads(z, s.readers, n + q, a, b)
  }

  lemma Absent(z: Setting, shards: Shards<nat>, n: nat, i: nat)
    requires Holds(z, shards, n) && i >= n
    ensures Nth(z.name, i) !in shards[z.home(Nth(z.name, i))]
  {
    var k := Nth(z.name, i);
    Lookup(z.home, shards, k);
    forall j: nat | j < n
      ensures Nth(z.name, j) != k
    {
      NthIsNew(z.name, j, i);
    }
  }

  // ----- what goroutines do to such a state -----

  /** A packet of a client without a session passes the cap test. */
  lemma PassTest(z: Setting, s: State, r: nat, k: Key) returns (next: State)
    requires Reachable(z, s) && r < |s.readers| && s.readers[r].Waiting?
    requires k !in s.table.shards[z.home(k)] && s.table.count < z.lim.maxSessions
    ensures Reachable(z, next) && next == s.(readers := s.readers[r := Passed(k)])
  {
    next := Then(z, s, Receive(r, k));
    next := Then(z, next, Get(r));
    next := Then(z, next, Len(r));
  }

  /** The next client's packet passes the cap test. */
  lemma Admit(z: Setting, s: State, n: nat, q: nat, a: nat, b: nat) returns (next: State)
    requires Shape(z, s, n, q, a, b) && b < |s.readers| && s.table.count < z.lim.maxSessions
    ensures Shape(z, next, n, q, a, b + 1) && next.table == s.table && |next.readers| == |s.readers|
  {
    var i := n + q + b - a;
    Absent(z, s.table.shards, n, i);
    next := PassTest(z, s, b, Nth(z.name, i));
  }

  /** A reader queues its packet. */
  lemma Push(z: Setting, s: State, n: nat, q: nat, a: nat, b: nat) returns (next: State)
    requires Shape(z, s, n, q, a, b) && a < b && q < z.lim.capacity
    ensures Shape(z, next, n, q + 1, a + 1, b) && next.table == s.table && |next.readers| == |s.readers|
  {
    next := Then(z, s, Enqueue(a));
  }

  /** A worker that has taken up a packet of a client without a session inserts one. */
  lemma Insert(z: Setting, s: State, c: nat, k: Key) returns (next: State, sid: nat)
    requires Reachable(z, s) && k !in s.table.shards[z.home(k)]
    requires c < |s.table.callers| && s.table.callers[c] == T.Started(k)
    ensures Reachable(z, next) && next.queue == s.queue && next.readers == s.readers
    ensures next.table.shards == Put(z.home, s.table.shards, k, sid) && next.table.count == s.table.count
    ensures next.table.callers == s.table.callers[c := T.Inserted(k, sid)]
  {
    next := Then(z, s, Inner(T.Look(c)));
    next := Then(z, next, Inner(T.Build(c, true)));
    sid := |next.table.log|;
    assert next.table.shards == s.table.shards && next.table.callers == s.table.callers[c := T.Built(k)];
    next := Then(z, next, Inner(T.Lock(c)));
  }

  /** A worker takes the first queued packet, of a client without a session, and inserts one. */
  lemma TakeUp(z: Setting, s: State, c: nat, k: Key) returns (next: State, sid: nat)
    requires Reachable(z, s) && s.queue != [] && s.queue[0] == k && k !in s.table.shards[z.home(k)]
    requires c < |s.table.callers| && s.table.callers[c].Idle?
    ensures Reachable(z, next) && next.queue == s.queue[1..] && next.readers == s.readers
    ensures next.table.shards == Put(z.home, s.table.shards, k, sid) && next.table.count == s.table.count
    ensures next.table.callers == s.table.callers[c := T.Inserted(k, sid)]
  {
    next := Then(z, s, Dequeue(c));
    next, sid := Insert(z, next, c, k);
  }

  /** A reader hands its packet, of a client without a session, straight to a worker, which inserts one. */
  lemma HandOver(z: Setting, s: State, r: nat, c: nat, k: Key) returns (next: State, sid: nat)
    requires Reachable(z, s) && s.queue == [] && r < |s.readers| && s.readers[r] == Passed(k)
    requires c < |s.table.callers| && s.table.callers[c].Idle? && k !in s.table.shards[z.home(k)]
    ensures Reachable(z, next) && next.queue == [] && next.readers == s.readers[r := Waiting]
    ensures next.table.shards == Put(z.home, s.table.shards, k, sid) && next.table.count == s.table.count
    ensures next.table.callers == s.table.callers[c := T.Inserted(k, sid)]
  {
    next := Then(z, s, Handoff(r, c));
    next, sid := Insert(z, next, c, k);
  }

  lemma Work(z: Setting, s: State, n: nat, q: nat, a: nat, b: nat, c: nat) returns (next: State)
    requires Shape(z, s, n, q, a, b) && q > 0 && c < |s.table.callers| && s.table.callers[c].Idle?
    ensures Shape(z, next, n + 1, q - 1, a, b)
    ensures next.table.count == s.table.count && |next.readers| == |s.readers|
    ensures |next.table.callers| == |s.table.callers| && next.table.callers[c].Inserted?
    ensures forall d: nat | d < |s.table.callers| && d != c :: next.table.callers[d] == s.table.callers[d]
  {
    Absent(z, s.table.shards, n, n);
    var sid;
    next, sid := TakeUp(z, s, c, Nth(z.name, n));
    PutHolds(z, s.table.shards, n, sid);
  }

  /** The first reader past the cap test hands its packet to a worker, which inserts its session. */
  lemma Hand(z: Setting, s: State, n: nat, a: nat, b: nat, c: nat) returns (next: State)
    requires Shape(z, s, n, 0, a, b) && a < b && c < |s.table.callers| && s.table.callers[c].Idle?
    ensures Shape(z, next, n + 1, 0, a + 1, b)
    ensures next.table.count == s.table.count && |next.readers| == |s.readers|
    ensures |next.table.callers| == |s.table.callers| && next.table.callers[c].Inserted?
    ensures forall d: nat | d < |s.table.callers| && d != c :: next.table.callers[d] == s.table.callers[d]
  {
    Absent(z, s.table.shards, n, n);
    var sid;
    next, sid := HandOver(z, s, a, c, Nth(z.name, n));
    PutHolds(z, s.table.shards, n, sid);
  }

  lemma PutHolds(z: Setting, shards: Shards<nat>, n: nat, sid: nat)
    requires Holds(z, shards, n)
    ensures Holds(z, Put(z.home, shards, Nth(z.name, n), sid), n + 1)
  {
    PutIsPut(z.home, shards, Nth(z.name, n), sid);
    FirstStep(z.name, n);
  }

  /** A worker counts what it has inserted. */
  lemma Settle(z: Setting, s: State, n: nat, q: nat, a: nat, b: nat, c: nat) returns (next: State)
    requires Shape(z, s, n, q, a, b) && c < |s.table.callers| && s.table.callers[c].Inserted?
    ensures Shape(z, next, n, q, a, b)
    ensures next.table.count == s.table.count + 1 && |next.readers| == |s.readers|
    ensures next.table.callers == s.table.callers[c := T.Idle]
  {
    next := Then(z, s, Inner(T.Count(c)));
  }

  // ----- the run -----

  /** Sizes: at least one reader and one worker. */
  ghost predicate Sized(z: Setting, s: State) {
    s.readers != [] && s.table.callers != [] && z.lim.maxSessions > 0
  }

  /** The first w workers hold an insertion they have not counted, the others are idle. */
  ghost predicate Parked(callers: seq<T.Caller>, w: nat) {
    w <= |callers| && forall c: nat | c < |callers| :: if c < w then callers[c].Inserted? else callers[c].Idle?
  }

  /** One more client's session, inserted by worker c but not counted. */
  lemma InsertOne(z: Setting, s: State, n: nat, c: nat) returns (next: State)
    requires Shape(z, s, n, 0, 0, 0) && Sized(z, s) && s.table.count < z.lim.maxSessions
    requires c < |s.table.callers| && s.table.callers[c].Idle?
    ensures Shape(z, next, n + 1, 0, 0, 0) && next.table.count == s.table.count && |next.readers| == |s.readers|
    ensures |next.table.callers| == |s.table.callers| && next.table.callers[c].Inserted?
    ensures forall d: nat | d < |s.table.callers| && d != c :: next.table.callers[d] == s.table.callers[d]
  {
    next := Admit(z, s, n, 0, 0, 0);
    next := Hand(z, next, n, 0, 1, c);
  }

  /** The table is filled to one below the cap, and every insertion counted. */
  lemma Fill(z: Setting, s: State) returns (next: State)
    requires Shape(z, s, 0, 0, 0, 0) && Sized(z, s) && s.table.count == 0 && Parked(s.table.callers, 0)
    ensures Shape(z, next, z.lim.maxSessions - 1, 0, 0, 0) && next.table.count == z.lim.maxSessions - 1
    ensures |next.readers| == |s.readers| && |next.table.callers| == |s.table.callers|
    ensures Parked(next.table.callers, 0)
  {
    next := s;
    for i := 0 to z.lim.maxSessions - 1
      invariant Shape(z, next, i, 0, 0, 0) && next.table.count == i && Parked(next.table.callers, 0)
      invariant |next.readers| == |s.readers| && |next.table.callers| == |s.table.callers|
    {
      next := InsertOne(z, next, i, 0);
      next := Settle(z, next, i + 1, 0, 0, 0, 0);
    }
  }

  /** Every worker inserts one more and stops short of counting it. */
  lemma Park(z: Setting, s: State, n: nat) returns (next: State)
    requires Shape(z, s, n, 0, 0, 0) && Sized(z, s) && s.table.count < z.lim.maxSessions
    requires Parked(s.table.callers, 0)
    ensures Shape(z, next, n + |s.table.callers|, 0, 0, 0) && next.table.count == s.table.count
    ensures |next.readers| == |s.readers| && |next.table.callers| == |s.table.callers|
    ensures Parked(next.table.callers, |s.table.callers|)
  {
    next := s;
    for w := 0 to |s.table.callers|
      invariant Shape(z, next, n + w, 0, 0, 0) && next.table.count == s.table.count && Parked(next.table.callers, w)
      invariant |next.readers| == |s.readers| && |next.table.callers| == |s.table.callers|
    {
      next := InsertOne(z, next, n + w, w);
    }
  }

  /** The queue is filled, and then every reader gets past the cap test. */
  lemma Crowd(z: Setting, s: State, n: nat) returns (next: State)
    requires Shape(z, s, n, 0, 0, 0) && Sized(z, s) && s.table.count < z.lim.maxSessions
    ensures Shape(z, next, n, z.lim.capacity, 0, |s.readers|) && next.table == s.table
    ensures |next.readers| == |s.readers|
  {
    next := s;
    for q := 0 to z.lim.capacity
      invariant Shape(z, next, n, q, 0, 0) && next.table == s.table && |next.readers| == |s.readers|
    {
      next := Admit(z, next, n, q, 0, 0);
      next := Push(z, next, n, q, 0, 1);
    }
    for b := 0 to |s.readers|
      invariant Shape(z, next, n, z.lim.capacity, 0, b) && next.table == s.table && |next.readers| == |s.readers|
    {
      next := Admit(z, next, n, z.lim.capacity, 0, b);
    }
  }

  /** Worker 0 takes the first queued packet all the way. */
  lemma Clear(z: Setting, s: State, n: nat, q: nat, a: nat, b: nat) returns (next: State)
    requires Shape(z, s, n, q, a, b) && q > 0 && s.table.callers != [] && s.table.callers[0].Idle?
    ensures Shape(z, next, n + 1, q - 1, a, b) && |next.readers| == |s.readers|
    ensures next.table.callers != [] && next.table.callers[0].Idle?
  {
    var m, left := n + 1, q - 1;
    next := Work(z, s, n, q, a, b, 0);
    next := Settle(z, next, m, left, a, b, 0);
  }

  /** It works off the queue. */
  lemma {:induction false} DrainQueue(z: Setting, s: State, n: nat, q: nat, b: nat, end: nat) returns (next: State)
    requires Shape(z, s, n, q, 0, b) && s.table.callers != [] && s.table.callers[0].Idle? && end == n + q
    ensures Shape(z, next, end, 0, 0, b) && |next.readers| == |s.readers|
    ensures next.table.callers != [] && next.table.callers[0].Idle?
    decreases q
  {
    next := s;
    if q > 0 {
      next := Clear(z, s, n, q, 0, b);
      next := DrainQueue(z, next, n + 1, q - 1, b, end);
    }
  }

  /** Then the readers hand it their packets one by one, and it works those off too. */
  lemma {:induction false} DrainReaders(z: Setting, s: State, n: nat, a: nat, b: nat, end: nat) returns (next: State)
    requires Shape(z, s, n, 0, a, b) && s.table.callers != [] && s.table.callers[0].Idle? && end == n + b - a
    ensures Shape(z, next, end, 0, b, b)
    decreases b - a
  {
    next := s;
    if a < b {
      var c, m := a + 1, n + 1;
      next := Hand(z, s, n, a, b, 0);
      next := Settle(z, next, m, 0, c, b, 0);
      next := DrainReaders(z, next, m, c, b, end);
    }
  }

  lemma InitShape(z: Setting, readers: nat, workers: nat, removers: nat)
    requires z.init == Init(readers, workers, removers)
    ensures Shape(z, z.init, 0, 0, 0, 0) && z.init.table.count == 0 && Parked(z.init.table.callers, 0)
  {
    EmptyIsEmpty<nat>(z.home);
    assert Exec(z.home, z.lim, z.init, []) == Some(z.init);
    assert First(z.name, 0) == {};
  }

  /** Fill the table, park the workers, crowd queue and readers, then let one worker do the rest. */
  lemma Overfill(z: Setting, s0: State) returns (s: State)
    requires Shape(z, s0, 0, 0, 0, 0) && Sized(z, s0) && s0.table.count == 0 && Parked(s0.table.callers, 0)
    ensures Reachable(z, s)
    ensures Holds(z, s.table.shards,
                  z.lim.maxSessions - 1 + |s0.table.callers| + z.lim.capacity + |s0.readers|)
  {
    s := Fill(z, s0);
    s := Park(z, s, z.lim.maxSessions - 1);
    var n := z.lim.maxSessions - 1 + |s0.table.callers|;
    s := Crowd(z, s, n);
    s := Settle(z, s, n, z.lim.capacity, 0, |s0.readers|, 0);
    var m := n + z.lim.capacity;
    s := DrainQueue(z, s, n, z.lim.capacity, |s0.readers|, m);
    s := DrainReaders(z, s, m, 0, |s0.readers|, m + |s0.readers|);
  }

  lemma SizeWhenHolding(z: Setting, shards: Shards<nat>, n: nat)
    requires Holds(z, shards, n)
    ensures Size(shards) == n
  {
    SizeIsCount(z.home, shards);
    FirstSize(z.name, n);
    assert |Flat(z.home, shards).Keys| == |Flat(z.home, shards)|;
  }

  /** The overshoot bound is reached: for all sizes some run ends with this many sessions. */
  lemma BoundIsReached(home: Home, lim: Limits, readers: nat, workers: nat, removers: nat)
      returns (steps: seq<Step>, s: State)
    requires lim.maxSessions > 0 && readers > 0 && workers > 0
    ensures Exec(home, lim, Init(readers, workers, removers), steps) == Some(s)
    ensures Size(s.table.shards) == lim.maxSessions - 1 + lim.capacity + workers + readers
  {
    var z := Setting(home, lim, [], Init(readers, workers, removers));
    InitShape(z, readers, workers, removers);
    s := Overfill(z, z.init);
    SizeWhenHolding(z, s.table.shards, lim.maxSessions - 1 + workers + lim.capacity + readers);
    steps :| Exec(z.home, z.lim, z.init, steps) == Some(s);
  }

  // ----- exactly when the cap is exceeded -----

  /** Without a worker, or without a reader, nothing is ever inserted. */
  ghost predicate Dry(s: State) {
    && (forall i, k | 0 <= i < NUM_SHARDS :: k !in s.table.shards[i])
    && (forall c | 0 <= c < |s.table.callers| :: s.table.callers[c].Idle?)
    && ((s.queue == [] && s.readers == []) || s.table.callers == [])
  }

  lemma StepKeepsDry(home: Home, lim: Limits, s: State, step: Step)
    requires Dry(s) && Enabled(s, step)
    ensures Dry(Apply(home, lim, s, step))
  {
    match step {
      case Receive(_, _) =>
      case Get(_) =>
      case Len(_) =>
      case Enqueue(_) =>
      case Dequeue(_) =>
      case Handoff(_, _) =>
      case Inner(inner) =>
        if inner.Take? {
          assert inner.gone !in s.table.shards[home(inner.gone)];
        }
    }
  }

  lemma {:induction false} RunStaysDry(home: Home, lim: Limits, init: State, steps: seq<Step>)
    requires Dry(init) && Exec(home, lim, init, steps).Some?
    ensures Dry(Exec(home, lim, init, steps).value)
  {
    if steps != [] {
      var n := |steps| - 1;
      RunStaysDry(home, lim, init, steps[..n]);
      StepKeepsDry(home, lim, Exec(home, lim, init, steps[..n]).value, steps[n]);
    }
  }

  lemma DryIsEmpty(s: State)
    requires Dry(s)
    ensures Size(s.table.shards) == 0
  {
    forall i | 0 <= i < NUM_SHARDS
      ensures |s.table.shards[i]| == 0
    {
      assert s.table.shards[i] == map[];
    }
    SumIsZero(s.table.shards, (m: map<Key, nat>) => |m|);
  }

  ghost predicate Exceeds(home: Home, lim: Limits, init: State, steps: seq<Step>) {
    && Exec(home, lim, init, steps).Some?
    && Size(Exec(home, lim, init, steps).value.table.shards) > lim.maxSessions
  }

  /** Whatever the queue holds, the cap can be exceeded if and only if there is a worker and a reader at
      all. */
  lemma CapIsExceededIff(home: Home, lim: Limits, readers: nat, workers: nat, removers: nat)
    requires lim.maxSessions > 0
    ensures (exists steps :: Exceeds(home, lim, Init(readers, workers, removers), steps))
       <==> workers > 0 && readers > 0
  {
    var init := Init(readers, workers, removers);
    if workers > 0 && readers > 0 {
      var steps, s := BoundIsReached(home, lim, readers, workers, removers);
      assert Exceeds(home, lim, init, steps);
    } else {
      forall steps
        ensures !Exceeds(home, lim, init, steps)
      {
        if Exec(home, lim, init, steps).Some? {
          RunStaysDry(home, lim, init, steps);
          DryIsEmpty(Exec(home, lim, init, steps).value);
        }
      }
    }
  }

  /** With the sizes Start chooses the bound of ConfiguredOvershoot is reached, whatever is configured. */
  lemma ConfiguredIsReached(home: Home, maxSessions: nat, workerCount: int, removers: nat)
      returns (steps: seq<Step>, s: State)
    requires maxSessions > 0
    ensures Exec(home, Limits(maxSessions, 2 * Workers(workerCount)),
                 Init(Max(workerCount, 1), Workers(workerCount), removers), steps) == Some(s)
    ensures Size(s.table.shards) == maxSessions - 1 + (if workerCount < 2 then 25 else 13 * workerCount)
  {
    steps, s := BoundIsReached(home, Limits(maxSessions, 2 * Workers(workerCount)),
                               Max(workerCount, 1), Workers(workerCount), removers);
  }
}
