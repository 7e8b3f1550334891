/** Which client a backend's reply reaches: forwarding workers, the pending routes and the backends
    together (forward and backendReadLoop in internal/frontend/frontend.go). */
module Replies {
  import opened Basics
  import opened Routes

  /** A reply: the request it answers, and the pending route the proxy took for it. */
  datatype Reply = Reply(asked: Route, routed: Option<Route>)

  /** The routes and the history of operations on them, the requests of each backend that a worker has
      queued but not yet sent, those the backend has yet to answer, and all replies so far. */
  datatype Net = Net(s: State, ops: seq<Op>, unsent: map<Backend, Queue>, inFlight: map<Backend, Queue>,
                     replies: seq<Reply>)

  /** Workers queue, then send or abort (shaper refusal or send error), in any order among themselves;
      backends answer, in any order, or never, and may send what nobody asked for. */
  datatype Event =
    | Arrive(b: Backend, client: Client, connIndex: int, now: int)
    | Send(b: Backend, i: nat)
    | Abort(b: Backend, i: nat, now: int)
    | Answer(b: Backend, i: nat, now: int)
    | Lose(b: Backend, i: nat)
    | Stray(b: Backend, now: int)

  ghost predicate Enabled(n: Net, e: Event) {
    match e
    case Arrive(_, _, _, _) => true
    case Send(b, i) => i < |QueueOf(n.unsent, b)|
    case Abort(b, i, _) => i < |QueueOf(n.unsent, b)|
    case Answer(b, i, _) => i < |QueueOf(n.inFlight, b)|
    case Lose(b, i) => i < |QueueOf(n.inFlight, b)|
    case Stray(_, _) => true
  }

  function Cut(q: Queue, i: nat): Queue
    requires i < |q|
  {
    q[..i] + q[i + 1..]
  }

  ghost function Apply(n: Net, e: Event): Net
    requires Enabled(n, e)
  {
    match e
    case Arrive(b, client, connIndex, now) =>
      var (s, id) := Enqueue(n.s, b, client, connIndex, now);
      n.(s := s, ops := n.ops + [OpEnqueue(b, client, connIndex, now)],
         unsent := if id.None? then n.unsent
                   else n.unsent[b := QueueOf(n.unsent, b) + [Route(id.value, client, connIndex, now)]])
    case Send(b, i) =>
      var u := QueueOf(n.unsent, b);
      n.(unsent := n.unsent[b := Cut(u, i)], inFlight := n.inFlight[b := QueueOf(n.inFlight, b) + [u[i]]])
    case Abort(b, i, now) =>
      var u := QueueOf(n.unsent, b);
      n.(s := Cancel(n.s, b, u[i].id, now), ops := n.ops + [OpCancel(b, u[i].id, now)],
         unsent := n.unsent[b := Cut(u, i)])
    case Answer(b, i, now) =>
      var f := QueueOf(n.inFlight, b);
      var (s, r) := Dequeue(n.s, b, now);
      n.(s := s, ops := n.ops + [OpDequeue(b, now)], inFlight := n.inFlight[b := Cut(f, i)],
         replies := n.replies + [Reply(f[i], r)])
    case Lose(b, i) => n.(inFlight := n.inFlight[b := Cut(QueueOf(n.inFlight, b), i)])
    case Stray(b, now) => n.(s := Dequeue(n.s, b, now).0, ops := n.ops + [OpDequeue(b, now)])
  }

  ghost function Init(): Net {
    Net(State(map[], 0), [], map[], map[], [])
  }

  /** The state a sequence of events leads to, if each is enabled in turn. */
  ghost function Exec(events: seq<Event>): Option<Net> {
    if events == [] then Some(Init())
    else
      match Exec(events[..|events| - 1])
      case None => None
      case Some(n) => var e := events[|events| - 1]; if Enabled(n, e) then Some(Apply(n, e)) else None
  }

  // ----- whatever workers and backends do -----

  /** What one operation leaves of the routes. */
  ghost function Left(s: State, op: Op): State {
    match op
    case OpEnqueue(b, client, connIndex, now) => Enqueue(s, b, client, connIndex, now).0
    case OpCancel(b, id, now) => Cancel(s, b, id, now)
    case OpDequeue(b, now) => Dequeue(s, b, now).0
  }

  lemma RunNext(ops: seq<Op>, op: Op)
    ensures Run(ops + [op]).s == Left(Run(ops).s, op)
  {
    assert (ops + [op])[..|ops|] == ops;
  }

  /** The operation on the routes that an event amounts to. */
  ghost function OpOf(n: Net, e: Event): Option<Op>
    requires Enabled(n, e)
  {
    match e
    case Arrive(b, client, connIndex, now) => Some(OpEnqueue(b, client, connIndex, now))
    case Abort(b, i, now) => Some(OpCancel(b, QueueOf(n.unsent, b)[i].id, now))
    case Answer(b, _, now) => Some(OpDequeue(b, now))
    case Stray(b, now) => Some(OpDequeue(b, now))
    case Send(_, _) => None
    case Lose(_, _) => None
  }

  lemma EventIsOp(n: Net, e: Event)
    requires Enabled(n, e)
    ensures var op := OpOf(n, e);
      && Apply(n, e).ops == (if op.Some? then n.ops + [op.value] else n.ops)
      && Apply(n, e).s == if op.Some? then Left(n.s, op.value) else n.s
  {
  }

  lemma {:induction false} RoutesAreRun(events: seq<Event>)
    requires Exec(events).Some?
    ensures Exec(events).value.s == Run(Exec(events).value.ops).s
  {
    if events != [] {
      RoutesAreRun(events[..|events| - 1]);
      var n, e := Exec(events[..|events| - 1]).value, events[|events| - 1];
      EventIsOp(n, e);
      if OpOf(n, e).Some? {
        RunNext(n.ops, OpOf(n, e).value);
      }
    }
  }

  /** Order is all the proxy has. In any run, whatever workers, backends and clocks do, a reply takes the
      route of the request it answers if and only if that route is pending, for at most 30 s, and every
      route queued before it and still pending there has been so for longer. */
  lemma ReplyIsRightIff(events: seq<Event>, b: Backend, i: nat, now: int)
    requires Exec(events).Some? && Enabled(Exec(events).value, Answer(b, i, now))
    ensures var n := Exec(events).value;
      var q, asked := QueueOf(n.s.queues, b), QueueOf(n.inFlight, b)[i];
      && Apply(n, Answer(b, i, now)).replies == n.replies + [Reply(asked, Dequeue(n.s, b, now).1)]
      && (Dequeue(n.s, b, now).1 == Some(asked) <==>
            && asked in q && now - asked.queuedAt <= 30_000_000_000
            && forall x | x in q && x.id < asked.id :: now - x.queuedAt > 30_000_000_000)
  {
    var n := Exec(events).value;
    RoutesAreRun(events);
    ReplyTakesOldestLive(n.ops, b, now, QueueOf(n.inFlight, b)[i]);
  }

  lemma Then(events: seq<Event>, n: Net, e: Event) returns (more: seq<Event>, next: Net)
    requires Exec(events) == Some(n) && Enabled(n, e)
    ensures more == events + [e] && next == Apply(n, e) && Exec(more) == Some(next)
  {
    more, next := events + [e], Apply(n, e);
    assert more[..|events|] == events;
  }

  /** Two clients' requests queued for one backend. */
  lemma TwoQueued(b: Backend, c1: Client, c2: Client, i1: int, i2: int, t: int) returns (events: seq<Event>, n: Net)
    ensures events == [Arrive(b, c1, i1, t), Arrive(b, c2, i2, t)] && Exec(events) == Some(n)
    ensures var q := [Route(1, c1, i1, t), Route(2, c2, i2, t)];
      n.s == State(map[b := q], 2) && n.unsent == map[b := q] && n.inFlight == map[] && n.replies == []
  {
    var r1, r2 := Route(1, c1, i1, t), Route(2, c2, i2, t);
    events, n := Then([], Init(), Arrive(b, c1, i1, t));
    assert [] + [r1] == [r1] && [r1] + [r2] == [r1, r2] && Pruned([r1], t) == [r1];
    assert n.s == State(map[b := [r1]], 1) && n.unsent == map[b := [r1]];
    events, n := Then(events, n, Arrive(b, c2, i2, t));
  }

  /** The second sent first. */
  lemma SecondSent(b: Backend, c1: Client, c2: Client, i1: int, i2: int, t: int)
      returns (events: seq<Event>, n: Net)
    ensures events == [Arrive(b, c1, i1, t), Arrive(b, c2, i2, t), Send(b, 1)] && Exec(events) == Some(n)
    ensures var r1, r2 := Route(1, c1, i1, t), Route(2, c2, i2, t);
      QueueOf(n.s.queues, b) == [r1, r2] && QueueOf(n.inFlight, b) == [r2] && n.replies == []
  {
    events, n := TwoQueued(b, c1, c2, i1, i2, t);
    events, n := Then(events, n, Send(b, 1));
  }

  /** So two workers that send in the other order than they queued are enough, even with a backend that
      answers in the order it was asked: the second client's reply goes to the first. */
  lemma OvertakingIsMisheard(b: Backend, c1: Client, c2: Client, i1: int, i2: int, t: int, now: int)
      returns (events: seq<Event>, n: Net)
    requires t <= now <= t + ROUTE_TTL
    ensures events == [Arrive(b, c1, i1, t), Arrive(b, c2, i2, t), Send(b, 1), Answer(b, 0, now)]
    ensures Exec(events) == Some(n) && n.replies == [Reply(Route(2, c2, i2, t), Some(Route(1, c1, i1, t)))]
  {
    events, n := SecondSent(b, c1, c2, i1, i2, t);
    events, n := Then(events, n, Answer(b, 0, now));
  }

  // ----- requests sent and answered in order -----

  /** No request of a backend is left unanswered past the time-to-live. */
  ghost predicate Timely(n: Net, b: Backend, now: int) {
    && (forall r | r in QueueOf(n.unsent, b) :: !Expired(r, now))
    && (forall r | r in QueueOf(n.inFlight, b) :: !Expired(r, now))
  }

  /** Requests of a backend go out in the order they were queued, and the backend answers each exactly
      once, in order, in time. */
  ghost predicate Orderly(n: Net, e: Event) {
    match e
    case Arrive(b, _, _, now) => Timely(n, b, now)
    case Send(_, i) => i == 0
    case Abort(b, _, now) => Timely(n, b, now)
    case Answer(b, i, now) => i == 0 && Timely(n, b, now)
    case Lose(_, _) => false
    case Stray(_, _) => false
  }

  ghost predicate InOrder(events: seq<Event>) {
    events == [] ||
    (var before := events[..|events| - 1];
     InOrder(before) && Exec(before).Some? && Orderly(Exec(before).value, events[|events| - 1]))
  }

  /** The queue of a backend is its unanswered requests in order, then its unsent ones. */
  ghost predicate Mirror(q: Queue, inFlight: Queue, unsent: Queue, issued: nat) {
    q == inFlight + unsent && Increasing(q) && forall i | 0 <= i < |q| :: q[i].id <= issued
  }

  ghost predicate Mirrors(n: Net, b: Backend) {
    Mirror(QueueOf(n.s.queues, b), QueueOf(n.inFlight, b), QueueOf(n.unsent, b), n.s.issued)
  }

  ghost predicate Matched(n: Net) {
    && (forall b :: Mirrors(n, b))
    && (forall i | 0 <= i < |n.replies| :: n.replies[i].routed == Some(n.replies[i].asked))
  }

  lemma NothingToPrune(n: Net, b: Backend, now: int)
    requires Mirrors(n, b) && Timely(n, b, now)
    ensures Pruned(QueueOf(n.s.queues, b), now) == QueueOf(n.s.queues, b)
  {
  }

  lemma SpliceMirrors(q: Queue, f: Queue, u: Queue, issued: nat, i: nat)
    requires Mirror(q, f, u, issued) && i < |u|
    ensures Mirror(Without(q, u[i].id), f, Cut(u, i), issued)
  {
    var at := |f| + i;
    assert q[at] == u[i];
    WithoutSplits(q, at);
    assert q[..at] + q[at + 1..] == f + (u[..i] + u[i + 1..]);
  }

  lemma AbortMirrors(n: Net, b: Backend, i: nat, now: int)
    requires Mirrors(n, b) && Enabled(n, Abort(b, i, now)) && Timely(n, b, now)
    ensures Mirrors(Apply(n, Abort(b, i, now)), b)
  {
    NothingToPrune(n, b, now);
    SpliceMirrors(QueueOf(n.s.queues, b), QueueOf(n.inFlight, b), QueueOf(n.unsent, b), n.s.issued, i);
  }

  lemma AnswerMirrors(n: Net, b: Backend, now: int)
    requires Mirrors(n, b) && Enabled(n, Answer(b, 0, now)) && Timely(n, b, now)
    ensures Mirrors(Apply(n, Answer(b, 0, now)), b)
    ensures Dequeue(n.s, b, now).1 == Some(QueueOf(n.inFlight, b)[0])
  {
    var q, f, u := QueueOf(n.s.queues, b), QueueOf(n.inFlight, b), QueueOf(n.unsent, b);
    NothingToPrune(n, b, now);
    TailMirrors(q, f, u, n.s.issued);
    assert Cut(f, 0) == f[1..];
  }

  lemma TailMirrors(q: Queue, f: Queue, u: Queue, issued: nat)
    requires Mirror(q, f, u, issued) && f != []
    ensures q[0] == f[0] && Mirror(q[1..], f[1..], u, issued)
  {
    assert q[1..] == f[1..] + u;
  }

  lemma SendMirrors(n: Net, b: Backend)
    requires Mirrors(n, b) && Enabled(n, Send(b, 0))
    ensures Mirrors(Apply(n, Send(b, 0)), b)
  {
  }

  lemma ArriveShape(n: Net, b: Backend, client: Client, connIndex: int, now: int)
    requires Pruned(QueueOf(n.s.queues, b), now) == QueueOf(n.s.queues, b)
    ensures var after := Apply(n, Arrive(b, client, connIndex, now));
      var full := |QueueOf(n.s.queues, b)| >= MAX_PENDING;
      var more := if full then [] else [Route(n.s.issued + 1, client, connIndex, now)];
      && QueueOf(after.s.queues, b) == QueueOf(n.s.queues, b) + more
      && QueueOf(after.unsent, b) == QueueOf(n.unsent, b) + more
      && after.inFlight == n.inFlight && after.s.issued == n.s.issued + |more|
  {
  }

  lemma ArriveMirrors(n: Net, b: Backend, client: Client, connIndex: int, now: int)
    requires Mirrors(n, b) && Timely(n, b, now)
    ensures Mirrors(Apply(n, Arrive(b, client, connIndex, now)), b)
  {
    NothingToPrune(n, b, now);
    ArriveShape(n, b, client, connIndex, now);
    var q, f, u := QueueOf(n.s.queues, b), QueueOf(n.inFlight, b), QueueOf(n.unsent, b);
    if |q| < MAX_PENDING {
      NewestIsLast(q, f, u, n.s.issued, Route(n.s.issued + 1, client, connIndex, now));
    } else {
      assert q + [] == q && u + [] == u;
    }
  }

  lemma NewestIsLast(q: Queue, f: Queue, u: Queue, issued: nat, r: Route)
    requires Mirror(q, f, u, issued) && r.id == issued + 1
    ensures Mirror(q + [r], f, u + [r], r.id)
  {
  }

  lemma OthersMirror(n: Net, e: Event, b: Backend)
    requires Enabled(n, e) && b != e.b && Mirrors(n, b)
    ensures Mirrors(Apply(n, e), b)
  {
    var after := Apply(n, e);
    assert QueueOf(after.s.queues, b) == QueueOf(n.s.queues, b);
    assert QueueOf(after.inFlight, b) == QueueOf(n.inFlight, b) && QueueOf(after.unsent, b) == QueueOf(n.unsent, b);
  }

  lemma StepKeepsMatched(n: Net, e: Event)
    requires Matched(n) && Enabled(n, e) && Orderly(n, e)
    ensures Matched(Apply(n, e))
  {
    assert Mirrors(n, e.b);
    match e {
      case Arrive(b, client, connIndex, now) => ArriveMirrors(n, b, client, connIndex, now);
      case Send(b, _) => SendMirrors(n, b);
      case Abort(b, i, now) => AbortMirrors(n, b, i, now);
      case Answer(b, _, now) => AnswerMirrors(n, b, now);
    }
    forall b | b != e.b
      ensures Mirrors(Apply(n, e), b)
    {
      OthersMirror(n, e, b);
    }
  }

  /** In every run whose events are orderly, every reply goes to the client whose request it answers, on
      the socket that request came in on, however refused, aborted and answered requests interleave. */
  lemma {:induction false} RepliesReachTheirClients(events: seq<Event>)
    requires Exec(events).Some? && InOrder(events)
    ensures Matched(Exec(events).value)
  {
    if events != [] {
      RepliesReachTheirClients(events[..|events| - 1]);
      StepKeepsMatched(Exec(events[..|events| - 1]).value, events[|events| - 1]);
    }
  }
}
