/** The session cap: readers that test it, the work queue, and workers that insert, interleaved with the
    reaper (readLoop, forwardWorker and Start in internal/frontend/frontend.go). One frontend uses the
    table. */
module SessionCap {
  import opened Basics
  import opened Sharding
  import T = TableSteps

  /** A reader between receiving a packet and handing it on. Missed: Get found no session, Len has
      not been read yet. Passed: the packet has passed the cap test. */
  datatype Reader = Waiting | Received(key: Key) | Missed(key: Key) | Passed(key: Key)

  datatype State = State(table: T.State, readers: seq<Reader>, queue: seq<Key>)

  /** MaxSessions and the capacity of the work queue. */
  datatype Limits = Limits(maxSessions: nat, capacity: nat)

  /** Handoff: with nothing queued, a send on the channel goes straight to a worker that waits; where the
      queue has no capacity that is the only way. */
  datatype Step =
    | Receive(r: nat, key: Key)
    | Get(r: nat)
    | Len(r: nat)
    | Enqueue(r: nat)
    | Dequeue(c: nat)
    | Handoff(r: nat, c: nat)
    | Inner(step: T.Step)

  ghost predicate Enabled(s: State, step: Step) {
    match step
    case Receive(r, _) => r < |s.readers| && s.readers[r].Waiting?
    case Get(r) => r < |s.readers| && s.readers[r].Received?
    case Len(r) => r < |s.readers| && s.readers[r].Missed?
    case Enqueue(r) => r < |s.readers| && s.readers[r].Passed?
    case Dequeue(c) => s.queue != [] && T.Enabled(s.table, T.Start(c, s.queue[0]))
    case Handoff(r, c) =>
      r < |s.readers| && s.readers[r].Passed? && s.queue == [] && T.Enabled(s.table, T.Start(c, s.readers[r].key))
    case Inner(step) => !step.Start? && T.Enabled(s.table, step)
  }

  function Reading(s: State, r: nat, pc: Reader): State
    requires r < |s.readers|
  {
    s.(readers := s.readers[r := pc])
  }

  function Apply(home: Home, lim: Limits, s: State, step: Step): State
    requires Enabled(s, step)
  {
    match step
    case Receive(r, k) => Reading(s, r, Received(k))
    case Get(r) =>
      var k := s.readers[r].key;
      Reading(s, r, if k in s.table.shards[home(k)] then Passed(k) else Missed(k))
    case Len(r) =>
      Reading(s, r, if s.table.count >= lim.maxSessions then Waiting else Passed(s.readers[r].key))
    case Enqueue(r) =>
      var k := s.readers[r].key;
      Reading(s, r, Waiting).(queue := if |s.queue| < lim.capacity then s.queue + [k] else s.queue)
    case Dequeue(c) =>
      s.(table := T.Apply(home, s.table, T.Start(c, s.queue[0])), queue := s.queue[1..])
    case Handoff(r, c) =>
      Reading(s, r, Waiting).(table := T.Apply(home, s.table, T.Start(c, s.readers[r].key)))
    case Inner(step) => s.(table := T.Apply(home, s.table, step))
  }

  // ----- keys that may still be inserted -----

  ghost function Queued(queue: seq<Key>): set<Key> {
    set i | 0 <= i < |queue| :: queue[i]
  }

  ghost function Reads(readers: seq<Reader>): set<Key> {
    set i | 0 <= i < |readers| && readers[i].Passed? :: readers[i].key
  }

  predicate Inserting(c: T.Caller) {
    c.Started? || c.Missed? || c.Built?
  }

  ghost function Works(callers: seq<T.Caller>): set<Key> {
    set i | 0 <= i < |callers| && Inserting(callers[i]) :: callers[i].key
  }

  /** The keys in the table, and those of all packets past the cap test that may still insert. */
  ghost function Reach(home: Home, s: State): set<Key> {
    Flat(home, s.table.shards).Keys + Queued(s.queue) + Reads(s.readers) + Works(s.table.callers)
  }

  ghost function Bound(lim: Limits, s: State): int {
    lim.maxSessions - 1 + lim.capacity + |s.table.callers| + |s.readers|
  }

  ghost predicate Inv(home: Home, lim: Limits, s: State) {
    && T.Inv(home, s.table) && |s.queue| <= lim.capacity
    && |Reach(home, s)| <= Bound(lim, s)
  }

  // ----- counting -----

  lemma UnionSize(a: set<Key>, b: set<Key>)
    ensures |a + b| <= |a| + |b|
  {
  }

  lemma {:induction false} QueuedSize(queue: seq<Key>)
    ensures |Queued(queue)| <= |queue|
  {
    if queue != [] {
      var n := |queue| - 1;
      QueuedSize(queue[..n]);
      assert Queued(queue) <= Queued(queue[..n]) + {queue[n]} by {
        forall i | 0 <= i < n ensures queue[i] in Queued(queue[..n]) { assert queue[..n][i] == queue[i]; }
      }
      SubsetSize(Queued(queue), Queued(queue[..n]) + {queue[n]});
      UnionSize(Queued(queue[..n]), {queue[n]});
    }
  }

  lemma {:induction false} ReadsSize(readers: seq<Reader>)
    ensures |Reads(readers)| <= |readers|
  {
    if readers != [] {
      var n := |readers| - 1;
      ReadsSize(readers[..n]);
      var last := if readers[n].Passed? then {readers[n].key} else {};
      forall i | 0 <= i < n && readers[i].Passed?
        ensures readers[i].key in Reads(readers[..n])
      {
        assert readers[..n][i] == readers[i];
      }
      SubsetSize(Reads(readers), Reads(readers[..n]) + last);
      UnionSize(Reads(readers[..n]), last);
    }
  }

  /** A worker either may still insert or has an increment outstanding, not both. */
  lemma {:induction false} WorksSize(callers: seq<T.Caller>)
    ensures |Works(callers)| + Sum(callers, T.Pending()) <= |callers|
  {
    if callers != [] {
      var n := |callers| - 1;
      WorksSize(callers[..n]);
      var last := if Inserting(callers[n]) then {callers[n].key} else {};
      forall i | 0 <= i < n && Inserting(callers[i])
        ensures callers[i].key in Works(callers[..n])
      {
        assert callers[..n][i] == callers[i];
      }
      SubsetSize(Works(callers), Works(callers[..n]) + last);
      UnionSize(Works(callers[..n]), last);
    }
  }

  lemma TakenIsPositive(removers: seq<bool>)
    ensures Sum(removers, T.Taken()) >= 0
  {
  }

  /** Passing the test on Len bounds everything in reach, however far the counter lags behind. */
  lemma LenBounds(home: Home, lim: Limits, s: State)
    requires T.Inv(home, s.table) && |s.queue| <= lim.capacity && s.table.count < lim.maxSessions
    ensures |Reach(home, s)| <= Bound(lim, s)
  {
    var m, q, r, w := Flat(home, s.table.shards).Keys, Queued(s.queue), Reads(s.readers), Works(s.table.callers);
    QueuedSize(s.queue);
    ReadsSize(s.readers);
    WorksSize(s.table.callers);
    TakenIsPositive(s.table.removers);
    UnionSize(m, q);
    UnionSize(m + q, r);
    UnionSize(m + q + r, w);
  }

  // ----- no other step reaches further -----

  lemma WorksUpdate(callers: seq<T.Caller>, c: nat, pc: T.Caller)
    requires c < |callers|
    ensures Works(callers[c := pc]) <= Works(callers) + if Inserting(pc) then {pc.key} else {}
  {
  }

  lemma ReadsUpdate(readers: seq<Reader>, r: nat, pc: Reader)
    requires r < |readers|
    ensures Reads(readers[r := pc]) <= Reads(readers) + if pc.Passed? then {pc.key} else {}
  {
  }

  lemma LookShrinks(home: Home, t: T.State, c: nat)
    requires T.Enabled(t, T.Look(c))
    ensures Works(T.Apply(home, t, T.Look(c)).callers) <= Works(t.callers)
  {
  }

  lemma LockShrinks(home: Home, t: T.State, c: nat)
    requires T.Enabled(t, T.Lock(c)) && Homed(home, t.shards)
    ensures var after := T.Apply(home, t, T.Lock(c));
      Flat(home, after.shards).Keys + Works(after.callers) <= Flat(home, t.shards).Keys + Works(t.callers)
  {
    var k, sid := t.callers[c].key, |t.log|;
    assert k in Works(t.callers);
    WorksUpdate(t.callers, c, T.Idle);
    WorksUpdate(t.callers, c, T.Inserted(k, sid));
    PutIsPut(home, t.shards, k, sid);
    assert Flat(home, Put(home, t.shards, k, sid)).Keys == Flat(home, t.shards).Keys + {k};
  }

  lemma TakeShrinks(home: Home, t: T.State, r: nat, k: Key)
    requires T.Enabled(t, T.Take(r, k)) && Homed(home, t.shards)
    ensures Flat(home, T.Apply(home, t, T.Take(r, k)).shards).Keys <= Flat(home, t.shards).Keys
  {
  }

  /** Inserting moves a key from the workers to the table; no table step adds one. */
  lemma InnerShrinks(home: Home, t: T.State, step: T.Step)
    requires Homed(home, t.shards) && T.Enabled(t, step) && !step.Start?
    ensures var after := T.Apply(home, t, step);
      Flat(home, after.shards).Keys + Works(after.callers) <= Flat(home, t.shards).Keys + Works(t.callers)
  {
    match step {
      case Look(c) => LookShrinks(home, t, c);
      case Build(c, ok) =>
        assert t.callers[c].key in Works(t.callers);
        WorksUpdate(t.callers, c, if ok then T.Built(t.callers[c].key) else T.Idle);
      case Lock(c) => LockShrinks(home, t, c);
      case Count(c) => WorksUpdate(t.callers, c, T.Idle);
      case Take(r, k) => TakeShrinks(home, t, r, k);
      case Lower(r) =>
    }
  }

  lemma DequeueShrinks(home: Home, s: State, c: nat)
    requires Enabled(s, Dequeue(c))
    ensures var after := Apply(home, Limits(0, 0), s, Dequeue(c));
      Queued(after.queue) + Works(after.table.callers) <= Queued(s.queue) + Works(s.table.callers)
  {
  }

  lemma EnqueueShrinks(home: Home, lim: Limits, s: State, r: nat)
    requires Enabled(s, Enqueue(r))
    ensures var after := Apply(home, lim, s, Enqueue(r));
      Queued(after.queue) + Reads(after.readers) <= Queued(s.queue) + Reads(s.readers)
  {
  }

  lemma HandoffShrinks(home: Home, lim: Limits, s: State, r: nat, c: nat)
    requires Enabled(s, Handoff(r, c))
    ensures var after := Apply(home, lim, s, Handoff(r, c));
      Reads(after.readers) + Works(after.table.callers) <= Reads(s.readers) + Works(s.table.callers)
  {
    var k := s.readers[r].key;
    assert k in Reads(s.readers);
    ReadsUpdate(s.readers, r, Waiting);
    WorksUpdate(s.table.callers, c, T.Started(k));
  }

  /** A packet whose key Get finds is already in reach. */
  lemma GetShrinks(home: Home, lim: Limits, s: State, r: nat)
    requires Enabled(s, Get(r)) && Homed(home, s.table.shards)
    ensures Reach(home, Apply(home, lim, s, Get(r))) <= Reach(home, s)
  {
  }

  ghost predicate PassesLen(lim: Limits, s: State, step: Step) {
    step.Len? && s.table.count < lim.maxSessions
  }

  lemma ReachShrinks(home: Home, lim: Limits, s: State, step: Step)
    requires Homed(home, s.table.shards) && Enabled(s, step) && !PassesLen(lim, s, step)
    ensures Reach(home, Apply(home, lim, s, step)) <= Reach(home, s)
  {
    match step {
      case Receive(r, k) => ReadsUpdate(s.readers, r, Received(k));
      case Get(r) => GetShrinks(home, lim, s, r);
      case Len(r) => ReadsUpdate(s.readers, r, Waiting);
      case Enqueue(r) => EnqueueShrinks(home, lim, s, r);
      case Dequeue(c) => DequeueShrinks(home, s, c);
      case Handoff(r, c) => HandoffShrinks(home, lim, s, r, c);
      case Inner(inner) => InnerShrinks(home, s.table, inner);
    }
  }

  lemma TableKeepsInv(home: Home, lim: Limits, s: State, step: Step)
    requires T.Inv(home, s.table) && Enabled(s, step)
    ensures T.Inv(home, Apply(home, lim, s, step).table)
  {
    match step {
      case Dequeue(c) => T.StepKeepsInv(home, s.table, T.Start(c, s.queue[0]));
      case Handoff(r, c) => T.StepKeepsInv(home, s.table, T.Start(c, s.readers[r].key));
      case Inner(inner) => T.StepKeepsInv(home, s.table, inner);
      case Receive(_, _) =>
      case Get(_) =>
      case Len(_) =>
      case Enqueue(_) =>
    }
  }

  lemma SizesStay(home: Home, lim: Limits, s: State, step: Step)
    requires Enabled(s, step)
    ensures var after := Apply(home, lim, s, step);
      && |after.table.callers| == |s.table.callers| && |after.readers| == |s.readers|
      && (|s.queue| <= lim.capacity ==> |after.queue| <= lim.capacity)
  {
  }

  lemma StepKeepsInv(home: Home, lim: Limits, s: State, step: Step)
    requires lim.maxSessions > 0 && Inv(home, lim, s) && Enabled(s, step)
    ensures Inv(home, lim, Apply(home, lim, s, step))
  {
    var after := Apply(home, lim, s, step);
    TableKeepsInv(home, lim, s, step);
    SizesStay(home, lim, s, step);
    if PassesLen(lim, s, step) {
      assert after.table == s.table;
      LenBounds(home, lim, after);
    } else {
      ReachShrinks(home, lim, s, step);
      SubsetSize(Reach(home, after), Reach(home, s));
    }
  }

  function Init(readers: nat, workers: nat, removers: nat): State {
    State(T.Init(workers, removers), seq(readers, _ => Waiting), [])
  }

  ghost function Exec(home: Home, lim: Limits, init: State, steps: seq<Step>): Option<State> {
    if steps == [] then Some(init)
    else
      match Exec(home, lim, init, steps[..|steps| - 1])
      case None => None
      case Some(s) =>
        var step := steps[|steps| - 1];
        if Enabled(s, step) then Some(Apply(home, lim, s, step)) else None
  }

  lemma {:induction false} RunKeepsInv(
      home: Home, lim: Limits, readers: nat, workers: nat, removers: nat, steps: seq<Step>)
    requires lim.maxSessions > 0 && Exec(home, lim, Init(readers, workers, removers), steps).Some?
    ensures var s := Exec(home, lim, Init(readers, workers, removers), steps).value;
      Inv(home, lim, s) && |s.table.callers| == workers && |s.readers| == readers
  {
    var init := Init(readers, workers, removers);
    if steps == [] {
      T.InitInv(home, workers, removers);
      EmptyIsEmpty<nat>(home);
      assert Reach(home, init) == {};
    } else {
      var n := |steps| - 1;
      RunKeepsInv(home, lim, readers, workers, removers, steps[..n]);
      StepKeepsInv(home, lim, Exec(home, lim, init, steps[..n]).value, steps[n]);
      SizesStay(home, lim, Exec(home, lim, init, steps[..n]).value, steps[n]);
    }
  }

  /** The overshoot bound: in every interleaving the table never holds more than
      maxSessions - 1 + capacity + workers + readers sessions. */
  lemma OvershootIsBounded(home: Home, lim: Limits, readers: nat, workers: nat, removers: nat, steps: seq<Step>)
    requires lim.maxSessions > 0 && Exec(home, lim, Init(readers, workers, removers), steps).Some?
    ensures var s := Exec(home, lim, Init(readers, workers, removers), steps).value;
      Size(s.table.shards) <= lim.maxSessions - 1 + lim.capacity + workers + readers
  {
    RunKeepsInv(home, lim, readers, workers, removers, steps);
    var s := Exec(home, lim, Init(readers, workers, removers), steps).value;
    SizeIsCount(home, s.table.shards);
    SubsetSize(Flat(home, s.table.shards).Keys, Reach(home, s));
  }

  /** How many forwarding workers Start launches. */
  function Workers(workerCount: int): nat {
    Max(Max(workerCount, 1) * 4, 8)
  }

  /** With the sizes Start chooses, the excess over the cap stays below thirteen per configured
      worker, or twenty-five where fewer than two are configured. */
  lemma ConfiguredOvershoot(home: Home, maxSessions: nat, workerCount: int, removers: nat, steps: seq<Step>)
    requires maxSessions > 0
    requires Exec(home, Limits(maxSessions, 2 * Workers(workerCount)),
                  Init(Max(workerCount, 1), Workers(workerCount), removers), steps).Some?
    ensures var s := Exec(home, Limits(maxSessions, 2 * Workers(workerCount)),
                          Init(Max(workerCount, 1), Workers(workerCount), removers), steps).value;
      Size(s.table.shards) < maxSessions + (if workerCount < 2 then 25 else 13 * workerCount)
  {
    OvershootIsBounded(home, Limits(maxSessions, 2 * Workers(workerCount)),
                       Max(workerCount, 1), Workers(workerCount), removers, steps);
  }

  // ----- whom the cap refuses -----

  lemma {:induction false} PrefixRuns(home: Home, lim: Limits, init: State, steps: seq<Step>, n: nat)
    requires Exec(home, lim, init, steps).Some? && n <= |steps|
    ensures Exec(home, lim, init, steps[..n]).Some?
  {
    var m := |steps| - 1;
    if n <= m {
      PrefixRuns(home, lim, init, steps[..m], n);
      assert steps[..m][..n] == steps[..n];
    } else {
      assert steps[..n] == steps;
    }
  }

  /** The state in which step n of a run is taken, or in which the run ends. */
  ghost function At(home: Home, lim: Limits, init: State, steps: seq<Step>, n: nat): State
    requires Exec(home, lim, init, steps).Some? && n <= |steps|
  {
    PrefixRuns(home, lim, init, steps, n);
    Exec(home, lim, init, steps[..n]).value
  }

  lemma AtNext(home: Home, lim: Limits, init: State, steps: seq<Step>, n: nat)
    requires Exec(home, lim, init, steps).Some? && n < |steps|
    ensures var s := At(home, lim, init, steps, n);
      Enabled(s, steps[n]) && At(home, lim, init, steps, n + 1) == Apply(home, lim, s, steps[n])
  {
    PrefixRuns(home, lim, init, steps, n + 1);
    assert steps[..n + 1][..n] == steps[..n];
  }

  /** A step of reader r. */
  ghost predicate Moves(step: Step, r: nat) {
    (step.Receive? || step.Get? || step.Len? || step.Enqueue? || step.Handoff?) && step.r == r
  }

  /** Reader r gives its packet up: it waits for the next one, and neither queue nor workers have this one. */
  ghost predicate GivesUp(home: Home, lim: Limits, s: State, step: Step, r: nat)
    requires Enabled(s, step)
  {
    var after := Apply(home, lim, s, step);
    && r < |s.readers| == |after.readers| && !s.readers[r].Waiting? && after.readers[r].Waiting?
    && after.queue == s.queue && after.table.callers == s.table.callers
  }

  lemma OthersLeaveReader(home: Home, lim: Limits, s: State, step: Step, r: nat)
    requires Enabled(s, step) && r < |s.readers| && !Moves(step, r)
    ensures var after := Apply(home, lim, s, step);
      |after.readers| == |s.readers| && after.readers[r] == s.readers[r]
  {
  }

  /** Step g is where reader r looked its packet up, and step n the first it takes after that. */
  ghost predicate Looked(steps: seq<Step>, g: nat, n: nat, r: nat) {
    g < n <= |steps| && steps[g] == Get(r) && forall i | g < i < n :: !Moves(steps[i], r)
  }

  lemma {:induction false} ReaderStays(home: Home, lim: Limits, init: State, steps: seq<Step>, m: nat, n: nat, r: nat)
    requires Exec(home, lim, init, steps).Some? && m <= n <= |steps|
    requires r < |At(home, lim, init, steps, m).readers| && forall i | m <= i < n :: !Moves(steps[i], r)
    ensures var s := At(home, lim, init, steps, n);
      r < |s.readers| && s.readers[r] == At(home, lim, init, steps, m).readers[r]
    decreases n
  {
    if m < n {
      ReaderStays(home, lim, init, steps, m, n - 1, r);
      AtNext(home, lim, init, steps, n - 1);
      OthersLeaveReader(home, lim, At(home, lim, init, steps, n - 1), steps[n - 1], r);
    }
  }

  /** In every run, what follows a reader's look at the table: a packet whose session it found goes on to
      the queue or a worker without being tested against the cap; any other is tested, and is given up
      if and only if the counter then stands at the cap or above. */
  lemma LookDecides(home: Home, lim: Limits, init: State, steps: seq<Step>, g: nat, n: nat, r: nat)
    requires Exec(home, lim, init, steps).Some? && Looked(steps, g, n, r) && n < |steps| && Moves(steps[n], r)
    ensures var look, s := At(home, lim, init, steps, g), At(home, lim, init, steps, n);
      && Enabled(look, steps[g]) && Enabled(s, steps[n])
      && var k := look.readers[r].key;
         if k in Flat(home, look.table.shards)
         then s.readers[r] == Passed(k) && (steps[n].Enqueue? || steps[n].Handoff?)
         else
           && s.readers[r] == Missed(k) && steps[n] == Len(r)
           && (GivesUp(home, lim, s, steps[n], r) <==> s.table.count >= lim.maxSessions)
  {
    AtNext(home, lim, init, steps, g);
    AtNext(home, lim, init, steps, n);
    ReaderStays(home, lim, init, steps, g + 1, n, r);
    Lookup(home, At(home, lim, init, steps, g).table.shards, At(home, lim, init, steps, g).readers[r].key);
  }

  /** A packet under test was looked up and not found. */
  lemma {:induction false} TestedWasLooked(
      home: Home, lim: Limits, init: State, steps: seq<Step>, n: nat, r: nat) returns (g: nat)
    requires Exec(home, lim, init, steps).Some? && n <= |steps|
    requires r < |init.readers| && init.readers[r].Waiting?
    requires r < |At(home, lim, init, steps, n).readers| && At(home, lim, init, steps, n).readers[r].Missed?
    ensures Looked(steps, g, n, r)
  {
    assert steps[..0] == [];
    AtNext(home, lim, init, steps, n - 1);
    var s := At(home, lim, init, steps, n - 1);
    if Moves(steps[n - 1], r) {
      g := n - 1;
    } else {
      ReaderBack(home, lim, s, steps[n - 1], r);
      g := TestedWasLooked(home, lim, init, steps, n - 1, r);
    }
  }

  lemma ReaderBack(home: Home, lim: Limits, s: State, step: Step, r: nat)
    requires Enabled(s, step) && !Moves(step, r) && r < |Apply(home, lim, s, step).readers|
    ensures r < |s.readers| && s.readers[r] == Apply(home, lim, s, step).readers[r]
  {
    SizesStay(home, lim, s, step);
    OthersLeaveReader(home, lim, s, step, r);
  }

  /** The cap refuses a packet at step n of a run. */
  ghost predicate Refused(home: Home, lim: Limits, init: State, steps: seq<Step>, n: nat, r: nat)
    requires Exec(home, lim, init, steps).Some? && n < |steps|
  {
    var s := At(home, lim, init, steps, n);
    Enabled(s, steps[n]) && GivesUp(home, lim, s, steps[n], r) && !(steps[n].Enqueue? && |s.queue| >= lim.capacity)
  }

  /** The cap, exactly: in every interleaving a reader gives a packet up for any other reason than a full
      queue if and only if it is testing it, the counter stands at the cap or above, and the packet's
      key was absent from the table when it looked. */
  lemma CapRefusesIff(home: Home, lim: Limits, readers: nat, workers: nat, removers: nat, steps: seq<Step>,
                      n: nat, r: nat)
    requires lim.maxSessions > 0 && r < readers && n < |steps|
    requires Exec(home, lim, Init(readers, workers, removers), steps).Some?
    ensures var init := Init(readers, workers, removers);
      Refused(home, lim, init, steps, n, r) <==>
        && steps[n] == Len(r) && At(home, lim, init, steps, n).table.count >= lim.maxSessions
        && exists g: nat :: Looked(steps, g, n, r) && Absent(home, lim, init, steps, g, r)
  {
    var init := Init(readers, workers, removers);
    if steps[n] == Len(r) {
      var g := TestRefusesIff(home, lim, init, steps, n, r);
    } else if Refused(home, lim, init, steps, n, r) {
      OnlyTestRefuses(home, lim, At(home, lim, init, steps, n), steps[n], r);
    }
  }

  lemma TestRefusesIff(home: Home, lim: Limits, init: State, steps: seq<Step>, n: nat, r: nat) returns (g: nat)
    requires Exec(home, lim, init, steps).Some? && n < |steps| && steps[n] == Len(r)
    requires r < |init.readers| && init.readers[r].Waiting?
    ensures Refused(home, lim, init, steps, n, r) <==> At(home, lim, init, steps, n).table.count >= lim.maxSessions
    ensures Looked(steps, g, n, r) && Absent(home, lim, init, steps, g, r)
  {
    AtNext(home, lim, init, steps, n);
    g := TestedWasLooked(home, lim, init, steps, n, r);
    LookDecides(home, lim, init, steps, g, n, r);
  }

  ghost predicate Absent(home: Home, lim: Limits, init: State, steps: seq<Step>, g: nat, r: nat)
    requires Exec(home, lim, init, steps).Some? && g <= |steps|
  {
    var s := At(home, lim, init, steps, g);
    r < |s.readers| && s.readers[r].Received? && s.readers[r].key !in Flat(home, s.table.shards)
  }

  lemma OnlyTestRefuses(home: Home, lim: Limits, s: State, step: Step, r: nat)
    requires Enabled(s, step) && step != Len(r) && GivesUp(home, lim, s, step, r)
    ensures step.Enqueue? && |s.queue| >= lim.capacity
  {
    if !Moves(step, r) {
      OthersLeaveReader(home, lim, s, step, r);
    }
  }
}
