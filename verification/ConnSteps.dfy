/** Connection counts under concurrency: the sticky path of forward and the removal of sessions, split
    at every atomic operation on a session's binding or a server's count (forward in
    internal/frontend/frontend.go, UpdateServer and callEvict in internal/session/session.go).

    Health and the outcome of Pick are the environment's and touch nothing modelled here, so a worker
    that finds its server healthy, or gets no replacement, is taken to leave at once. Sessions of
    frontends without affinity carry no callback and never touch a count. */
module ConnSteps {
  import opened Basics
  import opened Sharding
  import Proxy

  type ServerId = Proxy.ServerId

  // ----- the steps -----

  /** How far a session has got: in the table; taken out of it, its callback still to be loaded; the
      callback loaded and about to run; done with. */
  datatype Stage = Live | Taken | Calling(loaded: Option<ServerId>) | Gone

  /** A session object. Its binding is one pointer: the address, and the server that the eviction
      callback would lower. A new session has no callback until its creator has wired it. */
  datatype Object = Object(key: Key, addr: ServerId, callback: Option<ServerId>, stage: Stage, creator: nat)

  /** Where a worker stands in the sticky path. Fresh, Named, Raised: it created the session, has looked
      up its server, has raised that server's count. Have: it holds the session. Moving: it has loaded
      a binding whose server it finds unhealthy. Lowered, Lifted: it has lowered the old server's
      count, and raised the new one's. */
  datatype Worker =
    | Idle
    | Fresh(sid: nat)
    | Named(sid: nat, to: ServerId)
    | Raised(sid: nat, to: ServerId)
    | Have(sid: nat)
    | Moving(sid: nat, from: ServerId)
    | Lowered(sid: nat, from: ServerId, to: ServerId)
    | Lifted(sid: nat, from: ServerId, to: ServerId)

  /** A store into a session's binding: the server whose count its worker lowered (none when wiring)
      and the one it raised, the callback that was overwritten, and whether the new callback was
      stored in time to be run. */
  datatype Write = Write(from: Option<ServerId>, to: ServerId, previous: Option<ServerId>, inTime: bool)

  datatype State = State(objects: seq<Object>, workers: seq<Worker>, conns: map<ServerId, int>, writes: seq<Write>)

  datatype Step =
    | Insert(w: nat, key: Key, server: ServerId)
    | Name(w: nat)
    | Raise(w: nat)
    | Wire(w: nat)
    | Find(w: nat, sid: nat)
    | Leave(w: nat)
    | Load(w: nat)
    | Lower(w: nat, server: ServerId)
    | Lift(w: nat)
    | Move(w: nat)
    | Take(sid: nat)
    | LoadCallback(sid: nat)
    | Call(sid: nat)

  function CountOf(conns: map<ServerId, int>, s: ServerId): int {
    if s in conns then conns[s] else 0
  }

  function Add(conns: map<ServerId, int>, s: ServerId, d: int): map<ServerId, int> {
    conns[s := CountOf(conns, s) + d]
  }

  /** Worker w is under way with a session; that it exists is part of Sane. */
  ghost predicate Holds(s: State, w: nat) {
    w < |s.workers| && !s.workers[w].Idle? && s.workers[w].sid < |s.objects|
  }

  ghost predicate Enabled(s: State, step: Step) {
    match step
    case Insert(w, k, _) =>
      w < |s.workers| && s.workers[w].Idle? && forall o | o in s.objects && o.stage.Live? :: o.key != k
    case Name(w) => Holds(s, w) && s.workers[w].Fresh?
    case Raise(w) => Holds(s, w) && s.workers[w].Named?
    case Wire(w) => Holds(s, w) && s.workers[w].Raised?
    case Find(w, sid) => w < |s.workers| && s.workers[w].Idle? && sid < |s.objects| && s.objects[sid].stage.Live?
    case Leave(w) => Holds(s, w) && s.workers[w].Have?
    case Load(w) => Holds(s, w) && s.workers[w].Have?
    case Lower(w, _) => Holds(s, w) && s.workers[w].Moving?
    case Lift(w) => Holds(s, w) && s.workers[w].Lowered?
    case Move(w) => Holds(s, w) && s.workers[w].Lifted?
    case Take(sid) => sid < |s.objects| && s.objects[sid].stage.Live?
    case LoadCallback(sid) => sid < |s.objects| && s.objects[sid].stage.Taken?
    case Call(sid) => sid < |s.objects| && s.objects[sid].stage.Calling?
  }

  function At(s: State, w: nat, pc: Worker): State
    requires w < |s.workers|
  {
    s.(workers := s.workers[w := pc])
  }

  function Staged(s: State, sid: nat, stage: Stage): State
    requires sid < |s.objects|
  {
    s.(objects := s.objects[sid := s.objects[sid].(stage := stage)])
  }

  /** The callback has not been loaded for running yet. */
  predicate InTime(o: Object) {
    o.stage.Live? || o.stage.Taken?
  }

  /** UpdateServer: one pointer store. */
  function Stored(s: State, sid: nat, from: Option<ServerId>, to: ServerId): State
    requires sid < |s.objects|
  {
    var o := s.objects[sid];
    s.(objects := s.objects[sid := o.(addr := to, callback := Some(to))],
       writes := s.writes + [Write(from, to, o.callback, InTime(o))])
  }

  function Apply(s: State, step: Step): State
    requires Enabled(s, step)
  {
    match step
    case Insert(w, k, a) => At(s, w, Fresh(|s.objects|)).(objects := s.objects + [Object(k, a, None, Live, w)])
    case Name(w) => At(s, w, Named(s.workers[w].sid, s.objects[s.workers[w].sid].addr))
    case Raise(w) =>
      var pc := s.workers[w];
      At(s, w, Raised(pc.sid, pc.to)).(conns := Add(s.conns, pc.to, 1))
    case Wire(w) =>
      var pc := s.workers[w];
      At(Stored(s, pc.sid, None, pc.to), w, Have(pc.sid))
    case Find(w, sid) => At(s, w, Have(sid))
    case Leave(w) => At(s, w, Idle)
    case Load(w) => At(s, w, Moving(s.workers[w].sid, s.objects[s.workers[w].sid].addr))
    case Lower(w, to) =>
      var pc := s.workers[w];
      At(s, w, Lowered(pc.sid, pc.from, to)).(conns := Add(s.conns, pc.from, -1))
    case Lift(w) =>
      var pc := s.workers[w];
      At(s, w, Lifted(pc.sid, pc.from, pc.to)).(conns := Add(s.conns, pc.to, 1))
    case Move(w) =>
      var pc := s.workers[w];
      At(Stored(s, pc.sid, Some(pc.from), pc.to), w, Idle)
    case Take(sid) => Staged(s, sid, Taken)
    case LoadCallback(sid) => Staged(s, sid, Calling(s.objects[sid].callback))
    case Call(sid) =>
      var loaded := s.objects[sid].stage.loaded;
      Staged(s, sid, Gone).(conns := if loaded.Some? then Add(s.conns, loaded.value, -1) else s.conns)
  }

  function Init(workers: nat): State {
    State([], seq(workers, _ => Idle), map[], [])
  }

  /** The state a sequence of steps leads to, if each is enabled in turn. */
  ghost function Exec(workers: nat, steps: seq<Step>): Option<State> {
    if steps == [] then Some(Init(workers))
    else
      match Exec(workers, steps[..|steps| - 1])
      case None => None
      case Some(s) =>
        var step := steps[|steps| - 1];
        if Enabled(s, step) then Some(Apply(s, step)) else None
  }

  // ----- the law of every interleaving -----

  function Is(a: Option<ServerId>, x: ServerId): int {
    if a == Some(x) then 1 else 0
  }

  /** The decrement of x that a session still has in store. */
  ghost function Claim(x: ServerId): Object -> int {
    (o: Object) => match o.stage
      case Live => Is(o.callback, x)
      case Taken => Is(o.callback, x)
      case Calling(loaded) => Is(loaded, x)
      case Gone => 0
  }

  /** How far x's count runs ahead because of what a worker has yet to store. */
  ghost function Due(x: ServerId): Worker -> int {
    (pc: Worker) => match pc
      case Raised(_, to) => Is(Some(to), x)
      case Lowered(_, from, _) => -Is(Some(from), x)
      case Lifted(_, from, to) => Is(Some(to), x) - Is(Some(from), x)
      case _ => 0
  }

  /** How far a store puts x's count off for good: what it overwrote, or itself if it came too late,
      will not be lowered; what its worker lowered was. */
  ghost function Skew(x: ServerId): Write -> int {
    (d: Write) => (if d.inTime then Is(d.previous, x) else Is(Some(d.to), x)) - Is(d.from, x)
  }

  ghost predicate Accounted(s: State, x: ServerId) {
    CountOf(s.conns, x) == Sum(s.objects, Claim(x)) + Sum(s.workers, Due(x)) + Sum(s.writes, Skew(x))
  }

  /** What a store adds to the claims, with its skew, is what its worker had outstanding. */
  lemma StoreBalances(o: Object, from: Option<ServerId>, to: ServerId, x: ServerId)
    ensures var d := Write(from, to, o.callback, InTime(o));
      Claim(x)(o.(addr := to, callback := Some(to))) - Claim(x)(o) + Skew(x)(d) == Is(Some(to), x) - Is(from, x)
  {
  }

  lemma StoreKeepsAccount(s: State, w: nat, from: Option<ServerId>, to: ServerId, pc: Worker, x: ServerId)
    requires Holds(s, w) && Accounted(s, x)
    requires Due(x)(s.workers[w]) == Is(Some(to), x) - Is(from, x) && Due(x)(pc) == 0
    ensures Accounted(At(Stored(s, s.workers[w].sid, from, to), w, pc), x)
  {
    var sid := s.workers[w].sid;
    var o := s.objects[sid];
    StoreBalances(o, from, to, x);
    SumUpdate(s.objects, sid, o.(addr := to, callback := Some(to)), Claim(x));
    SumUpdate(s.workers, w, pc, Due(x));
    SumAppend(s.writes, Write(from, to, o.callback, InTime(o)), Skew(x));
  }

  lemma WorkerKeepsAccount(s: State, w: nat, pc: Worker, conns: map<ServerId, int>, x: ServerId)
    requires w < |s.workers| && Accounted(s, x)
    requires CountOf(conns, x) - CountOf(s.conns, x) == Due(x)(pc) - Due(x)(s.workers[w])
    ensures Accounted(At(s, w, pc).(conns := conns), x)
  {
    SumUpdate(s.workers, w, pc, Due(x));
  }

  lemma StageKeepsAccount(s: State, sid: nat, stage: Stage, conns: map<ServerId, int>, x: ServerId)
    requires sid < |s.objects| && Accounted(s, x)
    requires CountOf(conns, x) - CountOf(s.conns, x) ==
             Claim(x)(s.objects[sid].(stage := stage)) - Claim(x)(s.objects[sid])
    ensures Accounted(Staged(s, sid, stage).(conns := conns), x)
  {
    SumUpdate(s.objects, sid, s.objects[sid].(stage := stage), Claim(x));
  }

  lemma InsertKeepsAccount(s: State, w: nat, o: Object, x: ServerId)
    requires w < |s.workers| && s.workers[w].Idle? && Accounted(s, x) && o.callback.None? && o.stage.Live?
    ensures Accounted(At(s, w, Fresh(|s.objects|)).(objects := s.objects + [o]), x)
  {
    SumUpdate(s.workers, w, Fresh(|s.objects|), Due(x));
    SumAppend(s.objects, o, Claim(x));
  }

  /** Steps that move one worker on and touch no session. */
  predicate MovesWorker(step: Step) {
    step.Name? || step.Raise? || step.Find? || step.Leave? || step.Load? || step.Lower? || step.Lift?
  }

  lemma WorkerStepKeepsAccount(s: State, step: Step, x: ServerId)
    requires Enabled(s, step) && Accounted(s, x) && MovesWorker(step)
    ensures Accounted(Apply(s, step), x)
  {
    var after := Apply(s, step);
    WorkerKeepsAccount(s, step.w, after.workers[step.w], after.conns, x);
  }

  lemma CallKeepsAccount(s: State, sid: nat, x: ServerId)
    requires Enabled(s, Call(sid)) && Accounted(s, x)
    ensures Accounted(Apply(s, Call(sid)), x)
  {
    StageKeepsAccount(s, sid, Gone, Apply(s, Call(sid)).conns, x);
  }

  lemma StepKeepsAccount(s: State, step: Step, x: ServerId)
    requires Enabled(s, step) && Accounted(s, x)
    ensures Accounted(Apply(s, step), x)
  {
    if MovesWorker(step) {
      WorkerStepKeepsAccount(s, step, x);
    } else {
      match step {
        case Insert(w, k, a) => InsertKeepsAccount(s, w, Object(k, a, None, Live, w), x);
        case Wire(w) => StoreKeepsAccount(s, w, None, s.workers[w].to, Have(s.workers[w].sid), x);
        case Move(w) => StoreKeepsAccount(s, w, Some(s.workers[w].from), s.workers[w].to, Idle, x);
        case Take(sid) => StageKeepsAccount(s, sid, Taken, s.conns, x);
        case LoadCallback(sid) => StageKeepsAccount(s, sid, Calling(s.objects[sid].callback), s.conns, x);
        case Call(sid) => CallKeepsAccount(s, sid, x);
      }
    }
  }

  /** In every interleaving, however windows overlap, each server's count is the decrements that
      sessions still have in store, plus what workers have yet to store, plus the skew of past stores. */
  lemma {:induction false} CountsAreAccounted(workers: nat, steps: seq<Step>, x: ServerId)
    requires Exec(workers, steps).Some?
    ensures Accounted(Exec(workers, steps).value, x)
  {
    if steps == [] {
      SumIsZero(Init(workers).workers, Due(x));
    } else {
      var n := |steps| - 1;
      CountsAreAccounted(workers, steps[..n], x);
      StepKeepsAccount(Exec(workers, steps[..n]).value, steps[n], x);
    }
  }

  // ----- bindings -----

  predicate Creating(pc: Worker) {
    pc.Fresh? || pc.Named? || pc.Raised?
  }

  ghost predicate Sane(s: State) {
    forall w | 0 <= w < |s.workers| && !s.workers[w].Idle? :: s.workers[w].sid < |s.objects|
  }

  /** A session's callback lowers the server it is bound to, unless its creator has yet to wire it. */
  ghost predicate Bound(s: State, i: nat)
    requires i < |s.objects|
  {
    var o := s.objects[i];
    if o.callback.Some? then o.callback.value == o.addr
    else o.creator < |s.workers| && Creating(s.workers[o.creator]) && s.workers[o.creator].sid == i
  }

  ghost predicate WellBound(s: State) {
    Sane(s) && forall i: nat | i < |s.objects| :: Bound(s, i)
  }

  lemma StepKeepsBound(s: State, step: Step, i: nat)
    requires WellBound(s) && Enabled(s, step) && i < |Apply(s, step).objects|
    ensures Bound(Apply(s, step), i)
  {
    if i < |s.objects| {
      assert Bound(s, i);
    }
  }

  lemma StepKeepsWellBound(s: State, step: Step)
    requires WellBound(s) && Enabled(s, step)
    ensures WellBound(Apply(s, step))
  {
    forall i: nat | i < |Apply(s, step).objects|
      ensures Bound(Apply(s, step), i)
    {
      StepKeepsBound(s, step, i);
    }
  }

  lemma {:induction false} RunIsWellBound(workers: nat, steps: seq<Step>)
    requires Exec(workers, steps).Some?
    ensures WellBound(Exec(workers, steps).value)
  {
    if steps != [] {
      var n := |steps| - 1;
      RunIsWellBound(workers, steps[..n]);
      StepKeepsWellBound(Exec(workers, steps[..n]).value, steps[n]);
    }
  }

  /** No worker is under way and no removal half done. */
  ghost predicate AtRest(s: State) {
    && (forall w | 0 <= w < |s.workers| :: s.workers[w].Idle?)
    && (forall i | 0 <= i < |s.objects| :: s.objects[i].stage.Live? || s.objects[i].stage.Gone?)
  }

  ghost predicate LiveAt(objects: seq<Object>, i: nat, x: ServerId) {
    i < |objects| && objects[i].stage.Live? && objects[i].addr == x
  }

  /** The sessions among the first n that are in the table and bound to x. */
  ghost function LiveBelow(objects: seq<Object>, n: nat, x: ServerId): set<nat> {
    set i: nat | i < n && LiveAt(objects, i, x)
  }

  /** The sessions in the table that are bound to x. */
  ghost function LiveOn(s: State, x: ServerId): set<nat> {
    LiveBelow(s.objects, |s.objects|, x)
  }

  /** A session that is out of the table for good, or in it and wired. */
  ghost predicate Settled(o: Object) {
    o.stage.Gone? || (o.stage.Live? && o.callback == Some(o.addr))
  }

  lemma LiveNext(objects: seq<Object>, n: nat, x: ServerId)
    ensures |LiveBelow(objects, n + 1, x)| == |LiveBelow(objects, n, x)| + if LiveAt(objects, n, x) then 1 else 0
  {
    assert LiveBelow(objects, n + 1, x) == LiveBelow(objects, n, x) + if LiveAt(objects, n, x) then {n} else {};
  }

  lemma {:induction false} ClaimsAreLive(objects: seq<Object>, n: nat, x: ServerId)
    requires n <= |objects| && forall i | 0 <= i < n :: Settled(objects[i])
    ensures Sum(objects[..n], Claim(x)) == |LiveBelow(objects, n, x)|
  {
    if n > 0 {
      ClaimsAreLive(objects, n - 1, x);
      LiveNext(objects, n - 1, x);
      assert objects[..n] == objects[..n - 1] + [objects[n - 1]];
      SumAppend(objects[..n - 1], objects[n - 1], Claim(x));
    }
  }

  /** At rest, after any interleaving, each server's count is off by exactly the skew of the stores. */
  lemma MiscountIsSkew(workers: nat, steps: seq<Step>, x: ServerId)
    requires Exec(workers, steps).Some? && AtRest(Exec(workers, steps).value)
    ensures var s := Exec(workers, steps).value;
      CountOf(s.conns, x) == |LiveOn(s, x)| + Sum(s.writes, Skew(x))
  {
    var s := Exec(workers, steps).value;
    CountsAreAccounted(workers, steps, x);
    RunIsWellBound(workers, steps);
    SumIsZero(s.workers, Due(x));
    forall i | 0 <= i < |s.objects|
      ensures Settled(s.objects[i])
    {
      assert Bound(s, i);
    }
    ClaimsAreLive(s.objects, |s.objects|, x);
    assert s.objects[..|s.objects|] == s.objects;
  }

  // ----- which stores skew -----

  /** The store overwrote the callback of the very server its worker had lowered (none, when wiring) and
      came in time, or it came too late and put back what was lowered. */
  ghost predicate Clean(d: Write) {
    if d.inTime then d.previous == d.from else d.from == Some(d.to)
  }

  lemma SkewsNothingIff(d: Write)
    ensures (forall x :: Skew(x)(d) == 0) <==> Clean(d)
  {
    if !Clean(d) {
      var x := if d.from.Some? then d.from.value else if d.inTime then d.previous.value else d.to;
      assert Skew(x)(d) != 0;
    }
  }

  lemma CleanSkewsNothing(writes: seq<Write>, x: ServerId)
    requires forall d | d in writes :: Clean(d)
    ensures Sum(writes, Skew(x)) == 0
  {
    forall i | 0 <= i < |writes|
      ensures Skew(x)(writes[i]) == 0
    {
      SkewsNothingIff(writes[i]);
    }
    SumIsZero(writes, Skew(x));
  }

  /** Inside its window, from insertion to wiring or from loading a binding to replacing it. */
  predicate Inside(pc: Worker) {
    !pc.Idle? && !pc.Have?
  }

  /** No other worker is inside a window on w's session, and its callback has not been loaded. */
  ghost predicate Alone(s: State, w: nat)
    requires w < |s.workers|
  {
    var pc := s.workers[w];
    Inside(pc) ==>
      && pc.sid < |s.objects| && InTime(s.objects[pc.sid])
      && forall v: nat | v < |s.workers| && v != w && Inside(s.workers[v]) :: s.workers[v].sid != pc.sid
  }

  /** No two goroutines are inside one session's window. */
  ghost predicate NoOverlap(s: State) {
    forall w: nat | w < |s.workers| :: Alone(s, w)
  }

  /** What a worker inside its window takes the session's callback to be. */
  function Expected(pc: Worker): Option<ServerId> {
    match pc
    case Moving(_, from) => Some(from)
    case Lowered(_, from, _) => Some(from)
    case Lifted(_, from, _) => Some(from)
    case _ => None
  }

  ghost predicate Trusts(s: State, w: nat)
    requires w < |s.workers|
  {
    var pc := s.workers[w];
    Inside(pc) ==> pc.sid < |s.objects| && s.objects[pc.sid].callback == Expected(pc)
  }

  ghost predicate Tidy(s: State) {
    && (forall w: nat | w < |s.workers| :: Trusts(s, w))
    && (forall d | d in s.writes :: Clean(d))
  }

  lemma StepKeepsTrust(s: State, step: Step, w: nat)
    requires WellBound(s) && Tidy(s) && NoOverlap(s) && Enabled(s, step) && NoOverlap(Apply(s, step))
    requires w < |s.workers|
    ensures Trusts(Apply(s, step), w)
  {
    assert Trusts(s, w) && Alone(s, w) && Alone(Apply(s, step), w);
    if step.Load? && step.w == w {
      var sid := s.workers[w].sid;
      var v := s.objects[sid].creator;
      assert Bound(s, sid);
      assert s.objects[sid].callback.None? ==> Inside(Apply(s, step).workers[v]);
    }
  }

  lemma StepKeepsClean(s: State, step: Step)
    requires Tidy(s) && NoOverlap(s) && Enabled(s, step)
    ensures forall d | d in Apply(s, step).writes :: Clean(d)
  {
    if step.Wire? || step.Move? {
      assert Trusts(s, step.w) && Alone(s, step.w);
    }
  }

  lemma StepKeepsTidy(s: State, step: Step)
    requires WellBound(s) && Tidy(s) && NoOverlap(s) && Enabled(s, step) && NoOverlap(Apply(s, step))
    ensures Tidy(Apply(s, step))
  {
    forall w: nat | w < |Apply(s, step).workers|
      ensures Trusts(Apply(s, step), w)
    {
      StepKeepsTrust(s, step, w);
    }
    StepKeepsClean(s, step);
  }

  /** A run in none of whose states two goroutines are inside one session's window. */
  ghost predicate Exclusive(workers: nat, steps: seq<Step>) {
    forall n: nat | n <= |steps| ::
      Exec(workers, steps[..n]).Some? && NoOverlap(Exec(workers, steps[..n]).value)
  }

  lemma {:induction false} ExclusiveIsTidy(workers: nat, steps: seq<Step>)
    requires Exclusive(workers, steps)
    ensures Exec(workers, steps).Some? && Tidy(Exec(workers, steps).value)
  {
    assert steps[..|steps|] == steps;
    if steps != [] {
      var n := |steps| - 1;
      forall m: nat | m <= n
        ensures steps[..n][..m] == steps[..m]
      {
      }
      ExclusiveIsTidy(workers, steps[..n]);
      RunIsWellBound(workers, steps[..n]);
      StepKeepsTidy(Exec(workers, steps[..n]).value, steps[n]);
    }
  }

  /** Where windows on one session never overlap, counts are exact: at any moment they are the decrements
      sessions have in store and what workers have yet to store, and at rest the live sessions. */
  lemma ExactWithoutOverlap(workers: nat, steps: seq<Step>, x: ServerId)
    requires Exclusive(workers, steps)
    ensures Exec(workers, steps).Some?
    ensures var s := Exec(workers, steps).value;
      && CountOf(s.conns, x) == Sum(s.objects, Claim(x)) + Sum(s.workers, Due(x))
      && (AtRest(s) ==> CountOf(s.conns, x) == |LiveOn(s, x)|)
  {
    ExclusiveIsTidy(workers, steps);
    var s := Exec(workers, steps).value;
    CountsAreAccounted(workers, steps, x);
    CleanSkewsNothing(s.writes, x);
    if AtRest(s) {
      MiscountIsSkew(workers, steps, x);
    }
  }

  // ----- overlapping windows do miscount -----

  /** A run extended by one more step. */
  lemma Then(workers: nat, steps: seq<Step>, s: State, step: Step) returns (more: seq<Step>, next: State)
    requires Exec(workers, steps) == Some(s) && Enabled(s, step)
    ensures Exec(workers, more) == Some(next) && next == Apply(s, step)
  {
    more, next := steps + [step], Apply(s, step);
    assert more[..|steps|] == steps;
  }

  /** A session created and wired by a worker that nobody disturbs. */
  lemma Create(n: nat, steps: seq<Step>, s: State, w: nat, k: Key, a: ServerId)
      returns (more: seq<Step>, next: State)
    requires Exec(n, steps) == Some(s) && Enabled(s, Insert(w, k, a))
    ensures Exec(n, more) == Some(next)
    ensures next == State(s.objects + [Object(k, a, Some(a), Live, w)], s.workers[w := Have(|s.objects|)],
                          Add(s.conns, a, 1), s.writes + [Write(None, a, None, true)])
  {
    more, next := Then(n, steps, s, Insert(w, k, a));
    more, next := Then(n, more, next, Name(w));
    more, next := Then(n, more, next, Raise(w));
    more, next := Then(n, more, next, Wire(w));
  }

  /** A worker finishes a move. */
  lemma Finish(n: nat, steps: seq<Step>, s: State, w: nat, to: ServerId) returns (more: seq<Step>, next: State)
    requires Exec(n, steps) == Some(s) && Holds(s, w) && s.workers[w].Moving?
    ensures Exec(n, more) == Some(next)
    ensures next == At(Stored(s, s.workers[w].sid, Some(s.workers[w].from), to), w, Idle)
                    .(conns := Add(Add(s.conns, s.workers[w].from, -1), to, 1))
  {
    more, next := Then(n, steps, s, Lower(w, to));
    more, next := Then(n, more, next, Lift(w));
    more, next := Then(n, more, next, Move(w));
  }

  /** Two workers have both loaded the binding of one session and found its server unhealthy. */
  lemma BothMoving(k: Key, a: ServerId) returns (steps: seq<Step>, s: State)
    ensures Exec(2, steps) == Some(s)
    ensures s.objects == [Object(k, a, Some(a), Live, 0)] && s.workers == [Moving(0, a), Moving(0, a)]
    ensures s.conns == map[a := 1]
  {
    steps, s := Create(2, [], Init(2), 0, k, a);
    steps, s := Then(2, steps, s, Find(1, 0));
    steps, s := Then(2, steps, s, Load(0));
    steps, s := Then(2, steps, s, Load(1));
  }

  /** They move it at once: the old server ends one below its sessions, and the one that the first
      worker chose one above. */
  lemma RacingMoves(k: Key, a: ServerId, b: ServerId, c: ServerId) returns (steps: seq<Step>, s: State)
    requires a != b && b != c && c != a
    ensures Exec(2, steps) == Some(s) && AtRest(s)
    ensures LiveOn(s, a) == {} && CountOf(s.conns, a) == -1
    ensures LiveOn(s, b) == {} && CountOf(s.conns, b) == 1
    ensures LiveOn(s, c) == {0} && CountOf(s.conns, c) == 1
  {
    steps, s := BothMoving(k, a);
    steps, s := Finish(2, steps, s, 0, b);
    steps, s := Finish(2, steps, s, 1, c);
    assert s.objects == [Object(k, c, Some(c), Live, 0)] && s.workers == [Idle, Idle];
  }

  /** A session reaped as soon as it is inserted. */
  lemma ReapFresh(n: nat, steps: seq<Step>, s: State, w: nat, k: Key, a: ServerId)
      returns (more: seq<Step>, next: State)
    requires Exec(n, steps) == Some(s) && Enabled(s, Insert(w, k, a))
    ensures Exec(n, more) == Some(next)
    ensures next == At(s, w, Fresh(|s.objects|)).(objects := s.objects + [Object(k, a, None, Gone, w)])
  {
    var sid := |s.objects|;
    more, next := Then(n, steps, s, Insert(w, k, a));
    more, next := Then(n, more, next, Take(sid));
    more, next := Then(n, more, next, LoadCallback(sid));
    more, next := Then(n, more, next, Call(sid));
  }

  /** A worker wires the session it created, whatever has become of it, and leaves. */
  lemma WireAndLeave(n: nat, steps: seq<Step>, s: State, w: nat) returns (more: seq<Step>, next: State)
    requires Exec(n, steps) == Some(s) && Holds(s, w) && s.workers[w].Fresh?
    ensures Exec(n, more) == Some(next)
    ensures var sid := s.workers[w].sid;
      var a := s.objects[sid].addr;
      next == At(Stored(s, sid, None, a), w, Idle).(conns := Add(s.conns, a, 1))
  {
    more, next := Then(n, steps, s, Name(w));
    more, next := Then(n, more, next, Raise(w));
    more, next := Then(n, more, next, Wire(w));
    more, next := Then(n, more, next, Leave(w));
  }

  /** The reaper removes a session between its insertion and its wiring: its server keeps the count. */
  lemma LeakOnce(steps: seq<Step>, s: State, k: Key, a: ServerId) returns (more: seq<Step>, next: State)
    requires Exec(1, steps) == Some(s) && s.workers == [Idle] && forall o | o in s.objects :: o.stage.Gone?
    ensures Exec(1, more) == Some(next) && next.workers == [Idle] && forall o | o in next.objects :: o.stage.Gone?
    ensures CountOf(next.conns, a) == CountOf(s.conns, a) + 1
  {
    more, next := ReapFresh(1, steps, s, 0, k, a);
    more, next := WireAndLeave(1, more, next, 0);
  }

  /** So the count of a server without sessions can be any number, given time. */
  lemma {:induction false} LeaksAddUp(k: Key, a: ServerId, n: nat) returns (steps: seq<Step>, s: State)
    ensures Exec(1, steps) == Some(s) && AtRest(s)
    ensures LiveOn(s, a) == {} && CountOf(s.conns, a) == n
  {
    steps, s := [], Init(1);
    for i := 0 to n
      invariant Exec(1, steps) == Some(s) && s.workers == [Idle] && forall o | o in s.objects :: o.stage.Gone?
      invariant CountOf(s.conns, a) == i
    {
      steps, s := LeakOnce(steps, s, k, a);
    }
  }
}
