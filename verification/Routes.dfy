/** Pending response routes: bounded per-backend queues that decide which client gets a backend's
    reply (internal/frontend/frontend.go). */
module Routes {
  import opened Basics

  const ROUTE_TTL: int := 30 * SECOND
  const MAX_PENDING: nat := 1024

  datatype Backend = Backend(address: string)
  datatype Client = Client(addr: Addr, port: int)
  datatype Route = Route(id: nat, client: Client, connIndex: int, queuedAt: int)
  type Queue = seq<Route>

  predicate Expired(r: Route, now: int) {
    r.queuedAt < now - ROUTE_TTL
  }

  // ----- the four operations as functions -----

  /** The queue without its longest prefix of expired routes. */
  function Pruned(q: Queue, now: int): Queue {
    if q != [] && Expired(q[0], now) then Pruned(q[1..], now) else q
  }

  datatype State = State(queues: map<Backend, Queue>, issued: nat)

  function QueueOf(queues: map<Backend, Queue>, b: Backend): Queue {
    if b in queues then queues[b] else []
  }

  /** Store a queue, or delete the backend's key when it is empty. */
  function Stored(queues: map<Backend, Queue>, b: Backend, q: Queue): map<Backend, Queue> {
    if q == [] then queues - {b} else queues[b := q]
  }

  function Enqueue(s: State, b: Backend, client: Client, connIndex: int, now: int): (State, Option<nat>) {
    var q := Pruned(QueueOf(s.queues, b), now);
    if |q| >= MAX_PENDING then (s.(queues := s.queues[b := q]), None)
    else
      var id := s.issued + 1;
      (State(s.queues[b := q + [Route(id, client, connIndex, now)]], id), Some(id))
  }

  /** The queue with the first route carrying an id spliced out. */
  function Without(q: Queue, id: nat): Queue {
    if q == [] then [] else if q[0].id == id then q[1..] else [q[0]] + Without(q[1..], id)
  }

  function Cancel(s: State, b: Backend, id: nat, now: int): State {
    s.(queues := Stored(s.queues, b, Without(Pruned(QueueOf(s.queues, b), now), id)))
  }

  function Dequeue(s: State, b: Backend, now: int): (State, Option<Route>) {
    var q := Pruned(QueueOf(s.queues, b), now);
    if q == [] then (s.(queues := s.queues - {b}), None)
    else (s.(queues := Stored(s.queues, b, q[1..])), Some(q[0]))
  }

  // ----- the object -----

  method PruneExpired(q: Queue, now: int) returns (r: Queue)
    ensures r == Pruned(q, now)
  {
    var cutoff := now - ROUTE_TTL;
    var firstValid := 0;
    while firstValid < |q| && q[firstValid].queuedAt < cutoff
      invariant firstValid <= |q|
      invariant Pruned(q[firstValid..], now) == Pruned(q, now)
    {
      firstValid := firstValid + 1;
    }
    r := q[firstValid..];
  }

  lemma {:induction false} WithoutSplits(q: Queue, i: nat)
    requires i < |q| && forall j | 0 <= j < i :: q[j].id != q[i].id
    ensures Without(q, q[i].id) == q[..i] + q[i + 1..]
  {
    if i > 0 {
      WithoutSplits(q[1..], i - 1);
      assert q[..i] + q[i + 1..] == [q[0]] + (q[1..][..i - 1] + q[1..][i..]);
    }
  }

  lemma {:induction false} WithoutAbsent(q: Queue, id: nat)
    requires forall j | 0 <= j < |q| :: q[j].id != id
    ensures Without(q, id) == q
  {
    if q != [] {
      WithoutAbsent(q[1..], id);
    }
  }

  lemma WithoutCases(q: Queue, id: nat) returns (i: nat)
    ensures i <= |q| && Without(q, id) == if i < |q| then q[..i] + q[i + 1..] else q
  {
    i := 0;
    while i < |q| && q[i].id != id
      invariant i <= |q| && forall j | 0 <= j < i :: q[j].id != id
    {
      i := i + 1;
    }
    if i < |q| {
      WithoutSplits(q, i);
    } else {
      WithoutAbsent(q, id);
    }
  }

  class PendingRoutes {
    var queues: map<Backend, Queue>
    var issued: nat

    function View(): State
      reads this
    {
      State(queues, issued)
    }

    constructor ()
      ensures View() == State(map[], 0)
    {
      queues, issued := map[], 0;
    }

    method EnqueuePending(b: Backend, client: Client, connIndex: int, now: int) returns (id: nat, ok: bool)
      modifies this
      ensures var r := Enqueue(old(View()), b, client, connIndex, now);
        View() == r.0 && ok == r.1.Some? && (ok ==> id == r.1.value)
    {
      var queue := PruneExpired(if b in queues then queues[b] else [], now);
      if |queue| >= MAX_PENDING {
        queues := queues[b := queue];
        return 0, false;
      }
      issued := issued + 1;
      queue := queue + [Route(issued, client, connIndex, now)];
      queues := queues[b := queue];
      return issued, true;
    }

    method CancelPending(b: Backend, id: nat, now: int)
      modifies this
      ensures View() == Cancel(old(View()), b, id, now)
    {
      var queue := PruneExpired(if b in queues then queues[b] else [], now);
      ghost var pruned := queue;
      var i := 0;
      while i < |queue| && queue[i].id != id
        invariant i <= |queue| && forall j | 0 <= j < i :: queue[j].id != id
      {
        i := i + 1;
      }
      if i < |queue| {
        WithoutSplits(queue, i);
        queue := queue[..i] + queue[i + 1..];
      } else {
        WithoutAbsent(queue, id);
      }
      assert queue == Without(pruned, id);
      if |queue| == 0 {
        queues := queues - {b};
        return;
      }
      queues := queues[b := queue];
    }

    method DequeuePending(b: Backend, now: int) returns (r: Option<Route>)
      modifies this
      ensures (View(), r) == Dequeue(old(View()), b, now)
    {
      var queue := PruneExpired(if b in queues then queues[b] else [], now);
      if |queue| == 0 {
        queues := queues - {b};
        return None;
      }
      r := Some(queue[0]);
      queue := queue[1..];
      if |queue| == 0 {
        queues := queues - {b};
      } else {
        queues := queues[b := queue];
      }
    }
  }

  // ----- pruning -----

  lemma {:induction false} PrunedIsSuffix(q: Queue, now: int)
    ensures |Pruned(q, now)| <= |q|
    ensures Pruned(q, now) == q[|q| - |Pruned(q, now)|..]
    ensures forall i | 0 <= i < |q| - |Pruned(q, now)| :: Expired(q[i], now)
  {
    if q != [] && Expired(q[0], now) {
      PrunedIsSuffix(q[1..], now);
    }
  }

  ghost function Live(q: Queue, now: int): Queue {
    if q == [] then [] else (if Expired(q[0], now) then [] else [q[0]]) + Live(q[1..], now)
  }

  ghost predicate TimeSorted(q: Queue) {
    forall i, j | 0 <= i < j < |q| :: q[i].queuedAt <= q[j].queuedAt
  }

  lemma {:induction false} AllLive(q: Queue, now: int)
    requires forall i | 0 <= i < |q| :: !Expired(q[i], now)
    ensures Live(q, now) == q
  {
    if q != [] {
      AllLive(q[1..], now);
    }
  }

  /** In any state, whatever the times in it, no delivered route is older than 30 s. */
  lemma DeliveredIsFresh(s: State, b: Backend, now: int)
    requires Dequeue(s, b, now).1.Some?
    ensures now - Dequeue(s, b, now).1.value.queuedAt <= 30_000_000_000
  {
    PrunedHead(QueueOf(s.queues, b), now);
  }

  lemma {:induction false} PrunedHead(q: Queue, now: int)
    ensures Pruned(q, now) != [] ==> !Expired(Pruned(q, now)[0], now)
  {
    if q != [] && Expired(q[0], now) {
      PrunedHead(q[1..], now);
    }
  }

  // ----- whole runs -----

  datatype Op =
    | OpEnqueue(b: Backend, client: Client, connIndex: int, now: int)
    | OpCancel(b: Backend, id: nat, now: int)
    | OpDequeue(b: Backend, now: int)

  /** What became of an issued id. */
  datatype Fate = Pending(b: Backend) | Delivered(b: Backend) | Dropped | TimedOut

  /** The queues, with the history of every id ever issued and the routes delivered per backend. */
  datatype Ledger = Ledger(s: State, fates: map<nat, Fate>, delivered: map<Backend, Queue>)

  ghost function Ids(q: Queue): set<nat> {
    set i | 0 <= i < |q| :: q[i].id
  }

  /** The ids of a given fate. */
  ghost function With(fates: map<nat, Fate>, f: Fate): set<nat> {
    set id | id in fates && fates[id] == f
  }

  /** Fates once the ids in gone have met their end. */
  ghost function Ended(fates: map<nat, Fate>, gone: set<nat>, end: Fate): map<nat, Fate> {
    map id | id in fates :: if id in gone then end else fates[id]
  }

  ghost function Step(l: Ledger, op: Op): Ledger {
    var q := QueueOf(l.s.queues, op.b);
    var live := Pruned(q, op.now);
    var fates := Ended(l.fates, Ids(q) - Ids(live), TimedOut);
    match op
    case OpEnqueue(b, client, connIndex, now) =>
      var (s, r) := Enqueue(l.s, b, client, connIndex, now);
      l.(s := s, fates := if r.Some? then fates[r.value := Pending(b)] else fates)
    case OpCancel(b, id, now) =>
      l.(s := Cancel(l.s, b, id, now), fates := Ended(fates, Ids(live) - Ids(Without(live, id)), Dropped))
    case OpDequeue(b, now) =>
      var (s, r) := Dequeue(l.s, b, now);
      if r.None? then l.(s := s, fates := fates)
      else Ledger(s, fates[r.value.id := Delivered(b)],
                  l.delivered[b := QueueOf(l.delivered, b) + [r.value]])
  }

  ghost function Run(ops: seq<Op>): Ledger {
    if ops == [] then Ledger(State(map[], 0), map[], map[])
    else Step(Run(ops[..|ops| - 1]), ops[|ops| - 1])
  }

  ghost predicate Increasing(q: Queue) {
    forall i, j | 0 <= i < j < |q| :: q[i].id < q[j].id
  }

  ghost predicate Below(d: Queue, q: Queue) {
    forall i, j | 0 <= i < |d| && 0 <= j < |q| :: d[i].id < q[j].id
  }

  /** What holds of one backend: its delivered routes d followed by its queue q form one strictly
      increasing list of ids, and those are exactly the ids whose fate names this backend. */
  ghost predicate Accounted(fates: map<nat, Fate>, b: Backend, d: Queue, q: Queue) {
    && Increasing(d) && Increasing(q) && Below(d, q)
    && Ids(q) == With(fates, Pending(b)) && Ids(d) == With(fates, Delivered(b))
  }

  ghost predicate BackendSound(l: Ledger, b: Backend) {
    && |QueueOf(l.s.queues, b)| <= MAX_PENDING
    && Accounted(l.fates, b, QueueOf(l.delivered, b), QueueOf(l.s.queues, b))
  }

  ghost predicate Sound(l: Ledger) {
    && (forall b | b in l.s.queues :: l.s.queues[b] != [])
    && (forall id :: id in l.fates <==> 1 <= id <= l.s.issued)
    && (forall b :: BackendSound(l, b))
  }

  lemma WithEnded(fates: map<nat, Fate>, gone: set<nat>, end: Fate, f: Fate)
    requires f != end
    ensures With(Ended(fates, gone, end), f) == With(fates, f) - gone
  {
  }

  lemma WithUpdate(fates: map<nat, Fate>, id: nat, g: Fate, f: Fate)
    ensures With(fates[id := g], f) == With(fates, f) - {id} + if f == g then {id} else {}
  {
  }

  lemma IdsAppend(q: Queue, r: Route)
    ensures Ids(q + [r]) == Ids(q) + {r.id}
  {
    assert (q + [r])[|q|] == r;
    forall id | id in Ids(q)
      ensures id in Ids(q + [r])
    {
      var i :| 0 <= i < |q| && q[i].id == id;
      assert (q + [r])[i] == q[i];
    }
  }

  lemma IdsTail(q: Queue)
    requires q != [] && Increasing(q)
    ensures Ids(q[1..]) == Ids(q) - {q[0].id}
  {
  }

  lemma ShrinkIds(q: Queue, less: Queue)
    requires Shrinks(q, less)
    ensures Ids(less) <= Ids(q)
  {
  }

  ghost predicate Shrinks(q: Queue, less: Queue) {
    |less| <= |q| && Increasing(less) && forall i | 0 <= i < |less| :: less[i] in q
  }

  /** Taking routes out of the queue and recording their end keeps the account. */
  lemma ShrinkKeeps(fates: map<nat, Fate>, b: Backend, d: Queue, q: Queue, less: Queue, end: Fate)
    requires Accounted(fates, b, d, q) && (end == Dropped || end == TimedOut) && Shrinks(q, less)
    ensures Accounted(Ended(fates, Ids(q) - Ids(less), end), b, d, less)
  {
    ShrinkIds(q, less);
    WithEnded(fates, Ids(q) - Ids(less), end, Pending(b));
    WithEnded(fates, Ids(q) - Ids(less), end, Delivered(b));
  }

  lemma ShrinkKeepsOthers(fates: map<nat, Fate>, b: Backend, gone: set<nat>, end: Fate,
                          b': Backend, d': Queue, q': Queue)
    requires b != b' && (end == Dropped || end == TimedOut) && Accounted(fates, b', d', q')
    requires gone <= With(fates, Pending(b))
    ensures Accounted(Ended(fates, gone, end), b', d', q')
  {
  }

  lemma AppendKeeps(fates: map<nat, Fate>, b: Backend, d: Queue, q: Queue, r: Route)
    requires Accounted(fates, b, d, q) && forall id | id in fates :: id < r.id
    ensures Accounted(fates[r.id := Pending(b)], b, d, q + [r])
  {
    assert forall i | 0 <= i < |d| :: d[i].id in Ids(d);
    assert forall i | 0 <= i < |q| :: q[i].id in Ids(q);
    IdsAppend(q, r);
    WithUpdate(fates, r.id, Pending(b), Pending(b));
    WithUpdate(fates, r.id, Pending(b), Delivered(b));
  }

  lemma DeliverKeeps(fates: map<nat, Fate>, b: Backend, d: Queue, q: Queue)
    requires q != [] && Accounted(fates, b, d, q)
    ensures Accounted(fates[q[0].id := Delivered(b)], b, d + [q[0]], q[1..])
  {
    assert q[0].id in Ids(q);
    IdsTail(q);
    IdsAppend(d, q[0]);
    WithUpdate(fates, q[0].id, Delivered(b), Pending(b));
    WithUpdate(fates, q[0].id, Delivered(b), Delivered(b));
  }

  /** A fate changed from or to this backend's is invisible to the others. */
  lemma ReassignKeepsOthers(fates: map<nat, Fate>, id: nat, f: Fate, b: Backend, b': Backend, d': Queue, q': Queue)
    requires b != b' && (f == Pending(b) || f == Delivered(b)) && Accounted(fates, b', d', q')
    requires id in fates ==> fates[id] == Pending(b)
    ensures Accounted(fates[id := f], b', d', q')
  {
  }

  // ----- each operation keeps the ledger sound -----

  lemma WithoutShrinks(q: Queue, id: nat)
    requires Increasing(q)
    ensures Shrinks(q, Without(q, id))
  {
  }

  lemma PruneShrinks(q: Queue, now: int)
    requires Increasing(q)
    ensures Shrinks(q, Pruned(q, now))
  {
  }

  /** The queue of the operation's backend once pruned, and the fates brought up to date. */
  ghost function Current(l: Ledger, op: Op): Queue {
    Pruned(QueueOf(l.s.queues, op.b), op.now)
  }

  ghost function CurrentFates(l: Ledger, op: Op): map<nat, Fate> {
    Ended(l.fates, Ids(QueueOf(l.s.queues, op.b)) - Ids(Current(l, op)), TimedOut)
  }

  lemma PruneKeeps(l: Ledger, op: Op, b: Backend)
    requires BackendSound(l, op.b) && BackendSound(l, b)
    ensures Accounted(CurrentFates(l, op), b, QueueOf(l.delivered, b),
              if b == op.b then Current(l, op) else QueueOf(l.s.queues, b))
    ensures |Current(l, op)| <= MAX_PENDING
  {
    var q := QueueOf(l.s.queues, op.b);
    PruneShrinks(q, op.now);
    if b == op.b {
      ShrinkKeeps(l.fates, b, QueueOf(l.delivered, b), q, Current(l, op), TimedOut);
    } else {
      ShrinkKeepsOthers(l.fates, op.b, Ids(q) - Ids(Current(l, op)), TimedOut,
                        b, QueueOf(l.delivered, b), QueueOf(l.s.queues, b));
    }
  }

  /** What an operation leaves in its own backend's queue, once that is pruned. */
  ghost function NextQueue(live: Queue, op: Op, issued: nat): Queue {
    match op
    case OpEnqueue(b, client, connIndex, now) =>
      if |live| < MAX_PENDING then live + [Route(issued + 1, client, connIndex, now)] else live
    case OpCancel(_, id, _) => Without(live, id)
    case OpDequeue(b, _) => if live == [] then [] else live[1..]
  }

  /** What it leaves in its own backend's queue and list of deliveries, and the fates. */
  ghost function Next(l: Ledger, op: Op): (Queue, Queue, map<nat, Fate>) {
    var live, fates, d := Current(l, op), CurrentFates(l, op), QueueOf(l.delivered, op.b);
    var q := NextQueue(live, op, l.s.issued);
    match op
    case OpEnqueue(b, client, connIndex, now) =>
      (q, d, if |live| < MAX_PENDING then fates[l.s.issued + 1 := Pending(b)] else fates)
    case OpCancel(_, id, _) =>
      (q, d, Ended(fates, Ids(live) - Ids(q), Dropped))
    case OpDequeue(b, _) =>
      if live == [] then (q, d, fates) else (q, d + [live[0]], fates[live[0].id := Delivered(b)])
  }

  lemma StepShape(l: Ledger, op: Op, b: Backend)
    ensures var (q, d, fates) := Next(l, op);
      && Step(l, op).fates == fates
      && QueueOf(Step(l, op).s.queues, b) == (if b == op.b then q else QueueOf(l.s.queues, b))
      && QueueOf(Step(l, op).delivered, b) == (if b == op.b then d else QueueOf(l.delivered, b))
  {
  }

  lemma OwnKeeps(l: Ledger, op: Op)
    requires BackendSound(l, op.b) && forall id :: id in l.fates <==> 1 <= id <= l.s.issued
    ensures var (q, d, fates) := Next(l, op);
      |q| <= MAX_PENDING && Accounted(fates, op.b, d, q)
  {
    PruneKeeps(l, op, op.b);
    var live, fates, d := Current(l, op), CurrentFates(l, op), QueueOf(l.delivered, op.b);
    match op {
      case OpEnqueue(b, client, connIndex, now) =>
        if |live| < MAX_PENDING {
          AppendKeeps(fates, b, d, live, Route(l.s.issued + 1, client, connIndex, now));
        }
      case OpCancel(b, id, _) =>
        WithoutShrinks(live, id);
        ShrinkKeeps(fates, b, d, live, Without(live, id), Dropped);
      case OpDequeue(b, _) =>
        if live != [] {
          DeliverKeeps(fates, b, d, live);
        }
    }
  }

  lemma OthersKeep(l: Ledger, op: Op, b: Backend)
    requires b != op.b && BackendSound(l, op.b) && BackendSound(l, b)
    requires forall id :: id in l.fates <==> 1 <= id <= l.s.issued
    ensures Accounted(Next(l, op).2, b, QueueOf(l.delivered, b), QueueOf(l.s.queues, b))
  {
    PruneKeeps(l, op, op.b);
    PruneKeeps(l, op, b);
    var live, fates, d, q := Current(l, op), CurrentFates(l, op), QueueOf(l.delivered, b), QueueOf(l.s.queues, b);
    match op {
      case OpEnqueue(_, _, _, _) =>
        ReassignKeepsOthers(fates, l.s.issued + 1, Pending(op.b), op.b, b, d, q);
      case OpCancel(_, id, _) =>
        ShrinkKeepsOthers(fates, op.b, Ids(live) - Ids(Without(live, id)), Dropped, b, d, q);
      case OpDequeue(_, _) =>
        if live != [] {
          assert live[0].id in Ids(live);
          ReassignKeepsOthers(fates, live[0].id, Delivered(op.b), op.b, b, d, q);
        }
    }
  }

  /** No operation touches the fate of an id that is not pending, and only enqueueing adds an id. */
  lemma StepKeepsFates(l: Ledger, op: Op)
    requires BackendSound(l, op.b) && forall id :: id in l.fates <==> 1 <= id <= l.s.issued
    ensures forall id :: id in Step(l, op).fates <==> 1 <= id <= Step(l, op).s.issued
    ensures forall id | id in l.fates && !l.fates[id].Pending? ::
      id in Step(l, op).fates && Step(l, op).fates[id] == l.fates[id]
  {
    PruneKeeps(l, op, op.b);
    var live := Current(l, op);
    assert Ids(QueueOf(l.s.queues, op.b)) <= With(l.fates, Pending(op.b));
    assert Ids(live) <= With(CurrentFates(l, op), Pending(op.b));
    if op.OpDequeue? && live != [] {
      assert live[0].id in Ids(live);
    }
  }

  /** One operation keeps the ledger sound, and an id that has met its end keeps it. */
  lemma StepKeepsSound(l: Ledger, op: Op)
    requires Sound(l)
    ensures Sound(Step(l, op))
    ensures forall id | id in l.fates && !l.fates[id].Pending? ::
      id in Step(l, op).fates && Step(l, op).fates[id] == l.fates[id]
  {
    assert BackendSound(l, op.b);
    forall b
      ensures BackendSound(Step(l, op), b)
    {
      assert BackendSound(l, b);
      StepShape(l, op, b);
      if b == op.b {
        OwnKeeps(l, op);
      } else {
        OthersKeep(l, op, b);
      }
    }
    StepKeepsFates(l, op);
    StepStoresNonEmpty(l, op);
  }

  lemma StepStoresNonEmpty(l: Ledger, op: Op)
    requires forall b | b in l.s.queues :: l.s.queues[b] != []
    ensures forall b | b in Step(l, op).s.queues :: Step(l, op).s.queues[b] != []
  {
  }

  /** In every reachable state: stored queues are non-empty and hold at most 1024 routes; ids rise
      along each queue and occur in no other; every id ever issued has exactly one fate, pending and
      delivered meaning just that; and each backend's deliveries are in enqueue order. */
  lemma {:induction false} EveryRunIsSound(ops: seq<Op>)
    ensures Sound(Run(ops))
  {
    if ops == [] {
      assert forall b :: QueueOf(Run(ops).s.queues, b) == [] && QueueOf(Run(ops).delivered, b) == [];
    } else {
      EveryRunIsSound(ops[..|ops| - 1]);
      StepKeepsSound(Run(ops[..|ops| - 1]), ops[|ops| - 1]);
    }
  }

  /** No id stands in two queues or twice in one. */
  lemma IdsAreUnique(ops: seq<Op>, b: Backend, i: nat, b': Backend, j: nat)
    requires var q := Run(ops).s.queues;
      b in q && i < |q[b]| && b' in q && j < |q[b']| && q[b][i].id == q[b'][j].id
    ensures b == b' && i == j
  {
    EveryRunIsSound(ops);
    var l := Run(ops);
    assert BackendSound(l, b) && BackendSound(l, b');
    assert l.s.queues[b][i].id in Ids(l.s.queues[b]) && l.s.queues[b'][j].id in Ids(l.s.queues[b']);
  }

  // ----- queue times that follow lock order -----

  ghost predicate LockOrdered(ops: seq<Op>) {
    forall i, j | 0 <= i < j < |ops| && ops[i].OpEnqueue? && ops[j].OpEnqueue? :: ops[i].now <= ops[j].now
  }

  ghost predicate SortedBy(s: State, t: int) {
    forall b :: Within(QueueOf(s.queues, b), t)
  }

  lemma StepKeepsSorted(l: Ledger, op: Op, t: int)
    requires SortedBy(l.s, t) && (op.OpEnqueue? ==> t <= op.now)
    ensures SortedBy(Step(l, op).s, if op.OpEnqueue? then op.now else t)
  {
    var u := if op.OpEnqueue? then op.now else t;
    var q, live := QueueOf(l.s.queues, op.b), Current(l, op);
    PrunedIsSuffix(q, op.now);
    SliceWithin(q, |q| - |live|, |q|, t, u);
    NextWithin(live, op, l.s.issued, u);
    forall b
      ensures Within(QueueOf(Step(l, op).s.queues, b), u)
    {
      StepShape(l, op, b);
      if b != op.b {
        SliceWithin(QueueOf(l.s.queues, b), 0, |QueueOf(l.s.queues, b)|, t, u);
      }
    }
  }

  lemma NextWithin(live: Queue, op: Op, issued: nat, u: int)
    requires Within(live, u) && (op.OpEnqueue? ==> op.now == u)
    ensures Within(NextQueue(live, op, issued), u)
  {
    if op.OpCancel? {
      var i := WithoutCases(live, op.id);
      if i < |live| {
        SpliceWithin(live, i, u);
      }
    }
  }

  lemma SpliceWithin(q: Queue, i: nat, t: int)
    requires i < |q| && Within(q, t)
    ensures Within(q[..i] + q[i + 1..], t)
  {
    var r := q[..i] + q[i + 1..];
    assert forall k | 0 <= k < |r| :: r[k] == q[if k < i then k else k + 1];
  }

  lemma SliceWithin(q: Queue, lo: nat, hi: nat, t: int, u: int)
    requires lo <= hi <= |q| && Within(q, t) && t <= u
    ensures Within(q[lo..hi], u)
  {
  }

  ghost predicate Within(q: Queue, t: int) {
    TimeSorted(q) && forall i | 0 <= i < |q| :: q[i].queuedAt <= t
  }

  lemma {:induction false} RunKeepsSorted(ops: seq<Op>, t: int)
    requires LockOrdered(ops) && forall i | 0 <= i < |ops| && ops[i].OpEnqueue? :: ops[i].now <= t
    ensures SortedBy(Run(ops).s, t)
  {
    if ops != [] {
      var n := |ops| - 1;
      var op := ops[n];
      RunKeepsSorted(ops[..n], if op.OpEnqueue? then op.now else t);
      EveryRunIsSound(ops[..n]);
      StepKeepsSorted(Run(ops[..n]), op, if op.OpEnqueue? then op.now else t);
    }
  }

  /** No expired route stands behind an unexpired one. */
  ghost predicate NoneBehind(q: Queue, now: int) {
    forall i, j | 0 <= i < j < |q| && Expired(q[j], now) :: Expired(q[i], now)
  }

  lemma {:induction false} LiveAreUnexpired(q: Queue, now: int)
    ensures forall i | 0 <= i < |Live(q, now)| :: !Expired(Live(q, now)[i], now)
  {
    if q != [] {
      LiveAreUnexpired(q[1..], now);
    }
  }

  lemma NoneBehindTail(q: Queue, now: int)
    requires q != [] && Expired(q[0], now)
    ensures NoneBehind(q[1..], now) <==> NoneBehind(q, now)
  {
    if NoneBehind(q[1..], now) {
      forall i, j | 0 <= i < j < |q| && Expired(q[j], now)
        ensures Expired(q[i], now)
      {
        if i > 0 {
          assert q[1..][i - 1] == q[i] && q[1..][j - 1] == q[j];
        }
      }
    }
  }

  /** Pruning any queue at any instant removes the expired routes, all of them and nothing else, if and
      only if none of them stands behind an unexpired one. */
  lemma {:induction false} PruneIsExactIff(q: Queue, now: int)
    ensures Pruned(q, now) == Live(q, now) <==> NoneBehind(q, now)
  {
    if q != [] {
      if Expired(q[0], now) {
        PruneIsExactIff(q[1..], now);
        NoneBehindTail(q, now);
      } else if NoneBehind(q, now) {
        AllLive(q, now);
      } else {
        LiveAreUnexpired(q, now);
      }
    }
  }

  /** So it is on every run whose queue times follow lock order. */
  lemma PruneIsExact(ops: seq<Op>, b: Backend, now: int)
    requires LockOrdered(ops)
    ensures NoneBehind(QueueOf(Run(ops).s.queues, b), now)
    ensures Pruned(QueueOf(Run(ops).s.queues, b), now) == Live(QueueOf(Run(ops).s.queues, b), now)
  {
    var t := LatestEnqueue(ops);
    RunKeepsSorted(ops, t);
    PruneIsExactIff(QueueOf(Run(ops).s.queues, b), now);
  }

  /** A worker that reads the clock before another takes the lock breaks that order, and pruning then
      leaves an expired route behind an unexpired one. */
  lemma LateLockLeavesExpired(b: Backend, c1: Client, c2: Client, i1: int, i2: int, t: int)
    ensures var ops := [OpEnqueue(b, c1, i1, t + 1), OpEnqueue(b, c2, i2, t)];
      var q, now := QueueOf(Run(ops).s.queues, b), t + ROUTE_TTL + 1;
      Pruned(q, now) == [Route(1, c1, i1, t + 1), Route(2, c2, i2, t)] && !NoneBehind(q, now)
  {
    var ops := [OpEnqueue(b, c1, i1, t + 1), OpEnqueue(b, c2, i2, t)];
    var r1, r2 := Route(1, c1, i1, t + 1), Route(2, c2, i2, t);
    assert ops[..1] == [ops[0]] && ops[..1][..0] == [];
    assert [] + [r1] == [r1] && [r1] + [r2] == [r1, r2];
    assert QueueOf(Run(ops[..1]).s.queues, b) == [r1];
    assert QueueOf(Run(ops).s.queues, b) == [r1, r2];
    var q := [r1, r2];
    assert Expired(q[1], t + ROUTE_TTL + 1) && !Expired(q[0], t + ROUTE_TTL + 1);
  }

  lemma {:induction false} LatestEnqueue(ops: seq<Op>) returns (t: int)
    ensures forall i | 0 <= i < |ops| && ops[i].OpEnqueue? :: ops[i].now <= t
  {
    t := 0;
    for k := 0 to |ops|
      invariant forall i | 0 <= i < k && ops[i].OpEnqueue? :: ops[i].now <= t
    {
      t := Max(t, ops[k].now);
    }
  }

  lemma HeadIsOldestLive(q: Queue, now: int, r: Route)
    requires Increasing(q)
    ensures Pruned(q, now) != [] && Pruned(q, now)[0] == r <==>
            r in q && !Expired(r, now) && forall x | x in q && x.id < r.id :: Expired(x, now)
  {
    PrunedIsSuffix(q, now);
    PrunedHead(q, now);
    var i := |q| - |Pruned(q, now)|;
    if i < |q| {
      assert Pruned(q, now)[0] == q[i];
      assert forall j | 0 <= j < |q| && q[j].id < q[i].id :: j < i;
    }
  }

  /** Which route a reply takes, on every run and whatever the backends and the clocks do: the reply
      takes route r if and only if r is pending, for at most 30 s, and every route queued before it at
      that backend and still pending there has been so for longer. */
  lemma ReplyTakesOldestLive(ops: seq<Op>, b: Backend, now: int, r: Route)
    ensures var q := QueueOf(Run(ops).s.queues, b);
      Dequeue(Run(ops).s, b, now).1 == Some(r) <==>
        && r in q && now - r.queuedAt <= 30_000_000_000
        && forall x | x in q && x.id < r.id :: now - x.queuedAt > 30_000_000_000
  {
    EveryRunIsSound(ops);
    assert BackendSound(Run(ops), b);
    HeadIsOldestLive(QueueOf(Run(ops).s.queues, b), now, r);
  }

  lemma StaysFullIff(q: Queue, now: int)
    requires |q| <= MAX_PENDING
    ensures |Pruned(q, now)| >= MAX_PENDING <==> |q| == 1024 && now - q[0].queuedAt <= 30_000_000_000
  {
    PrunedIsSuffix(q, now);
    PrunedHead(q, now);
  }

  lemma RefusedIffNoRoom(s: State, b: Backend, client: Client, connIndex: int, now: int)
    ensures Enqueue(s, b, client, connIndex, now).1.None? <==> |Pruned(QueueOf(s.queues, b), now)| >= MAX_PENDING
  {
  }

  /** On every run a packet is refused a route if and only if 1024 are stored there, the first of them for
      at most 30 s. */
  lemma RefusedIffFull(ops: seq<Op>, b: Backend, client: Client, connIndex: int, now: int)
    ensures var q := QueueOf(Run(ops).s.queues, b);
      Enqueue(Run(ops).s, b, client, connIndex, now).1.None? <==>
        |q| == 1024 && now - q[0].queuedAt <= 30_000_000_000
  {
    QueueIsBounded(ops, b);
    RefusedIffNoRoom(Run(ops).s, b, client, connIndex, now);
    StaysFullIff(QueueOf(Run(ops).s.queues, b), now);
  }

  /** Where queue times follow lock order, those 1024 are all live. */
  lemma RefusedIffAllLive(ops: seq<Op>, b: Backend, client: Client, connIndex: int, now: int)
    requires LockOrdered(ops)
    ensures Enqueue(Run(ops).s, b, client, connIndex, now).1.None?
       <==> |Live(QueueOf(Run(ops).s.queues, b), now)| == 1024
  {
    QueueIsBounded(ops, b);
    PrunedIsSuffix(QueueOf(Run(ops).s.queues, b), now);
    PruneIsExact(ops, b, now);
  }

  lemma QueueIsBounded(ops: seq<Op>, b: Backend)
    ensures |QueueOf(Run(ops).s.queues, b)| <= MAX_PENDING
  {
    EveryRunIsSound(ops);
    assert BackendSound(Run(ops), b);
  }
}
