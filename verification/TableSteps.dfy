/** The session table under concurrency: GetOrCreate, Delete and the reaper split at every point where
    another goroutine can run (internal/session/session.go). */
module TableSteps {
  import opened Basics
  import opened Sharding

  /** The sequential meaning of one table operation. A session is named by the position of its
      insertion in the history, so names are never reused. Miss is a lookup that finds nothing. */
  datatype Op =
    | Hit(key: Key, sid: nat)
    | Create(key: Key, sid: nat)
    | Remove(key: Key, sid: nat)
    | Miss(key: Key)

  /** The plain map after a history, if every operation in it answers as a sequential map would. */
  ghost function Replay(log: seq<Op>): Option<map<Key, nat>> {
    if log == [] then Some(map[])
    else
      match Replay(log[..|log| - 1])
      case None => None
      case Some(m) => Perform(m, log[|log| - 1], |log| - 1)
  }

  ghost function Perform(m: map<Key, nat>, op: Op, at: nat): Option<map<Key, nat>> {
    match op
    case Hit(k, s) => if k in m && m[k] == s then Some(m) else None
    case Create(k, s) => if k !in m && s == at then Some(m[k := s]) else None
    case Remove(k, s) => if k in m && m[k] == s then Some(m - {k}) else None
    case Miss(k) => if k !in m then Some(m) else None
  }

  // ----- the steps -----

  /** Where a caller of GetOrCreate stands. Missed is between the lookup that found nothing and newFn's
      answer; Inserted is between the insertion and the counter's increment, which happens after the
      lock is released. */
  datatype Caller =
    | Idle
    | Started(key: Key)
    | Missed(key: Key, at: nat)
    | Built(key: Key)
    | Inserted(key: Key, at: nat)

  /** What a caller got back, a session or nil, and the operation of the history that answered it. */
  datatype Return = Got(key: Key, sid: nat, created: bool, at: nat) | Nil(key: Key, at: nat)

  /** removers[r] tells that remover r (a Delete, or the reaper) has taken an entry out and not yet
      lowered the counter. */
  datatype State = State(shards: Shards<nat>, count: int, callers: seq<Caller>, removers: seq<bool>,
                         log: seq<Op>, answers: seq<Return>)

  datatype Step =
    | Start(c: nat, key: Key)
    | Look(c: nat)
    | Build(c: nat, ok: bool)
    | Lock(c: nat)
    | Count(c: nat)
    | Take(r: nat, gone: Key)
    | Lower(r: nat)

  ghost predicate Enabled(s: State, step: Step) {
    match step
    case Start(c, _) => c < |s.callers| && s.callers[c].Idle?
    case Look(c) => c < |s.callers| && s.callers[c].Started?
    case Build(c, _) => c < |s.callers| && s.callers[c].Missed?
    case Lock(c) => c < |s.callers| && s.callers[c].Built?
    case Count(c) => c < |s.callers| && s.callers[c].Inserted?
    case Take(r, _) => r < |s.removers| && !s.removers[r]
    case Lower(r) => r < |s.removers| && s.removers[r]
  }

  function At(s: State, c: nat, pc: Caller): State
    requires c < |s.callers|
  {
    s.(callers := s.callers[c := pc])
  }

  /** A caller finds the key present and leaves with that session. */
  function Found(home: Home, s: State, c: nat, k: Key): State
    requires c < |s.callers| && k in s.shards[home(k)]
  {
    var sid := s.shards[home(k)][k];
    At(s, c, Idle).(log := s.log + [Hit(k, sid)], answers := s.answers + [Got(k, sid, false, |s.log|)])
  }

  function Apply(home: Home, s: State, step: Step): State
    requires Enabled(s, step)
  {
    match step
    case Start(c, k) => At(s, c, Started(k))
    case Look(c) =>
      var k := s.callers[c].key;
      if k in s.shards[home(k)] then Found(home, s, c, k)
      else At(s, c, Missed(k, |s.log|)).(log := s.log + [Miss(k)])
    case Build(c, ok) =>
      var pc := s.callers[c];
      if ok then At(s, c, Built(pc.key))
      else At(s, c, Idle).(answers := s.answers + [Nil(pc.key, pc.at)])
    case Lock(c) =>
      var k := s.callers[c].key;
      if k in s.shards[home(k)] then Found(home, s, c, k)
      else
        At(s, c, Inserted(k, |s.log|)).(shards := Put(home, s.shards, k, |s.log|), log := s.log + [Create(k, |s.log|)])
    case Count(c) =>
      var pc := s.callers[c];
      At(s, c, Idle).(count := s.count + 1, answers := s.answers + [Got(pc.key, pc.at, true, pc.at)])
    case Take(r, k) =>
      if k !in s.shards[home(k)] then s
      else s.(shards := Drop(home, s.shards, k), log := s.log + [Remove(k, s.shards[home(k)][k])],
              removers := s.removers[r := true])
    case Lower(r) =>
      s.(count := s.count - 1, removers := s.removers[r := false])
  }

  function Init(callers: nat, removers: nat): State {
    State(Empty(), 0, seq(callers, _ => Idle), seq(removers, _ => false), [], [])
  }

  ghost function Exec(home: Home, callers: nat, removers: nat, steps: seq<Step>): Option<State> {
    if steps == [] then Some(Init(callers, removers))
    else
      match Exec(home, callers, removers, steps[..|steps| - 1])
      case None => None
      case Some(s) =>
        var step := steps[|steps| - 1];
        if Enabled(s, step) then Some(Apply(home, s, step)) else None
  }

  // ----- the invariant -----

  ghost function Pending(): Caller -> int {
    (c: Caller) => if c.Inserted? then 1 else 0
  }

  ghost function Taken(): bool -> int {
    (b: bool) => if b then 1 else 0
  }

  /** A caller whose answer may be an operation already in the history. */
  predicate Awaits(c: Caller) {
    c.Inserted? || c.Missed?
  }

  ghost function HolderOf(i: nat): Caller -> int {
    (c: Caller) => if Awaits(c) && c.at == i then 1 else 0
  }

  ghost function AnswerOf(i: nat): Return -> int {
    (r: Return) => if r.at == i then 1 else 0
  }

  /** The counter, corrected by the increments and decrements still to come, is the table's size. */
  ghost predicate Counted(home: Home, s: State) {
    s.count + Sum(s.callers, Pending()) - Sum(s.removers, Taken()) == |Flat(home, s.shards)|
  }

  /** Operation i, if it found or created a session, has exactly one caller that got or will get its
      answer; if it found nothing, at most one caller leaves with nil for it, the other lookups that
      miss going on to insert. */
  ghost predicate AnsweredOnce(s: State, i: nat) {
    var answered := Sum(s.answers, AnswerOf(i)) + Sum(s.callers, HolderOf(i));
    if i < |s.log| && s.log[i].Miss? then answered <= 1
    else answered == if i < |s.log| && !s.log[i].Remove? then 1 else 0
  }

  /** The operation whose answer a caller got. */
  function Answering(r: Return): Op {
    match r
    case Got(k, sid, created, _) => if created then Create(k, sid) else Hit(k, sid)
    case Nil(k, _) => Miss(k)
  }

  ghost predicate Honest(s: State) {
    && (forall r | r in s.answers :: r.at < |s.log| && s.log[r.at] == Answering(r))
    && (forall c | c in s.callers && Awaits(c) ::
          c.at < |s.log| && s.log[c.at] == if c.Inserted? then Create(c.key, c.at) else Miss(c.key))
  }

  ghost predicate Inv(home: Home, s: State) {
    && Homed(home, s.shards)
    && Replay(s.log) == Some(Flat(home, s.shards))
    && Counted(home, s)
    && Honest(s)
    && forall i :: AnsweredOnce(s, i)
  }

  /** Moving a caller between states that hold no insertion changes no count. */
  lemma MoveCaller(s: State, c: nat, pc: Caller)
    requires c < |s.callers|
    ensures Sum(At(s, c, pc).callers, Pending()) == Sum(s.callers, Pending()) - Pending()(s.callers[c]) + Pending()(pc)
    ensures forall i: nat ::
      Sum(At(s, c, pc).callers, HolderOf(i))
        == Sum(s.callers, HolderOf(i)) - HolderOf(i)(s.callers[c]) + HolderOf(i)(pc)
  {
    SumUpdate(s.callers, c, pc, Pending());
    forall i: nat
      ensures Sum(At(s, c, pc).callers, HolderOf(i))
        == Sum(s.callers, HolderOf(i)) - HolderOf(i)(s.callers[c]) + HolderOf(i)(pc)
    {
      SumUpdate(s.callers, c, pc, HolderOf(i));
    }
  }

  lemma AddReturn(s: State, r: Return)
    ensures forall i: nat :: Sum(s.answers + [r], AnswerOf(i)) == Sum(s.answers, AnswerOf(i)) + AnswerOf(i)(r)
  {
  }

  lemma LogHit(log: seq<Op>, m: map<Key, nat>, k: Key)
    requires Replay(log) == Some(m) && k in m
    ensures Replay(log + [Hit(k, m[k])]) == Some(m)
  {
  }

  /** The callers' part of a lookup that succeeds. */
  lemma FoundKeepsAnswers(s: State, c: nat, k: Key, sid: nat, after: State)
    requires c < |s.callers| && !Awaits(s.callers[c])
    requires Honest(s) && forall i :: AnsweredOnce(s, i)
    requires after.callers == s.callers[c := Idle] && after.log == s.log + [Hit(k, sid)]
    requires after.answers == s.answers + [Got(k, sid, false, |s.log|)]
    ensures Honest(after) && forall i :: AnsweredOnce(after, i)
  {
    MoveCaller(s, c, Idle);
    AddReturn(s, Got(k, sid, false, |s.log|));
    forall i
      ensures AnsweredOnce(after, i)
    {
      assert AnsweredOnce(s, i);
    }
  }

  lemma FoundKeepsInv(home: Home, s: State, c: nat, k: Key)
    requires Inv(home, s) && c < |s.callers| && !Awaits(s.callers[c]) && k in s.shards[home(k)]
    ensures Inv(home, Found(home, s, c, k))
  {
    Lookup(home, s.shards, k);
    LogHit(s.log, Flat(home, s.shards), k);
    FoundKeepsAnswers(s, c, k, s.shards[home(k)][k], Found(home, s, c, k));
    SumUpdate(s.callers, c, Idle, Pending());
  }

  lemma LogCreate(log: seq<Op>, m: map<Key, nat>, k: Key, sid: nat)
    requires Replay(log) == Some(m) && k !in m && sid == |log|
    ensures Replay(log + [Create(k, sid)]) == Some(m[k := sid])
  {
  }

  /** The table's part of an insertion. */
  lemma InsertKeepsTable(home: Home, shards: Shards<nat>, log: seq<Op>, k: Key, sid: nat)
    requires Homed(home, shards) && Replay(log) == Some(Flat(home, shards)) && k !in shards[home(k)] && sid == |log|
    ensures Homed(home, Put(home, shards, k, sid))
    ensures Replay(log + [Create(k, sid)]) == Some(Flat(home, Put(home, shards, k, sid)))
    ensures |Flat(home, Put(home, shards, k, sid))| == |Flat(home, shards)| + 1
  {
    var m := Flat(home, shards);
    Lookup(home, shards, k);
    LogCreate(log, m, k, sid);
    SizeAfterPut(m, k, sid);
    PutIsPut(home, shards, k, sid);
  }

  /** The callers' part of an insertion. */
  lemma InsertKeepsAnswers(s: State, c: nat, k: Key, sid: nat, after: State)
    requires c < |s.callers| && !Awaits(s.callers[c]) && sid == |s.log|
    requires Honest(s) && forall i :: AnsweredOnce(s, i)
    requires after.callers == s.callers[c := Inserted(k, sid)]
    requires after.log == s.log + [Create(k, sid)] && after.answers == s.answers
    ensures Honest(after) && forall i :: AnsweredOnce(after, i)
  {
    MoveCaller(s, c, Inserted(k, sid));
    forall i
      ensures AnsweredOnce(after, i)
    {
      assert AnsweredOnce(s, i);
    }
  }

  lemma InsertKeepsInv(home: Home, s: State, c: nat)
    requires Inv(home, s) && Enabled(s, Lock(c)) && s.callers[c].key !in s.shards[home(s.callers[c].key)]
    ensures Inv(home, Apply(home, s, Lock(c)))
  {
    var k, sid, after := s.callers[c].key, |s.log|, Apply(home, s, Lock(c));
    InsertKeepsTable(home, s.shards, s.log, k, sid);
    InsertKeepsAnswers(s, c, k, sid, after);
    SumUpdate(s.callers, c, Inserted(k, sid), Pending());
    assert after.shards == Put(home, s.shards, k, sid) && after.log == s.log + [Create(k, sid)];
  }

  /** A caller that was waiting to return leaves with the answer it waited for. */
  lemma ReturnKeepsAnswers(s: State, c: nat, r: Return, after: State)
    requires c < |s.callers| && Awaits(s.callers[c]) && s.callers[c].at == r.at
    requires r.at < |s.log| && s.log[r.at] == Answering(r)
    requires Honest(s) && forall i :: AnsweredOnce(s, i)
    requires after.callers == s.callers[c := Idle] && after.log == s.log && after.answers == s.answers + [r]
    ensures Honest(after) && forall i :: AnsweredOnce(after, i)
  {
    MoveCaller(s, c, Idle);
    AddReturn(s, r);
    forall i
      ensures AnsweredOnce(after, i)
    {
      assert AnsweredOnce(s, i);
    }
  }

  lemma CountKeepsInv(home: Home, s: State, c: nat)
    requires Inv(home, s) && Enabled(s, Count(c))
    ensures Inv(home, Apply(home, s, Count(c)))
  {
    var pc := s.callers[c];
    ReturnKeepsAnswers(s, c, Got(pc.key, pc.at, true, pc.at), Apply(home, s, Count(c)));
    SumUpdate(s.callers, c, Idle, Pending());
  }

  lemma LogRemove(log: seq<Op>, m: map<Key, nat>, k: Key)
    requires Replay(log) == Some(m) && k in m
    ensures Replay(log + [Remove(k, m[k])]) == Some(m - {k})
  {
  }

  /** The table's part of a removal. */
  lemma RemoveKeepsTable(home: Home, shards: Shards<nat>, log: seq<Op>, k: Key)
    requires Homed(home, shards) && Replay(log) == Some(Flat(home, shards)) && k in shards[home(k)]
    ensures Homed(home, Drop(home, shards, k))
    ensures Replay(log + [Remove(k, shards[home(k)][k])]) == Some(Flat(home, Drop(home, shards, k)))
    ensures |Flat(home, Drop(home, shards, k))| == |Flat(home, shards)| - 1
  {
    Lookup(home, shards, k);
    DropIsDrop(home, shards, k);
    SizeAfterDrop(Flat(home, shards), k);
    LogRemove(log, Flat(home, shards), k);
  }

  /** The callers' part of a removal: none. */
  lemma RemoveKeepsAnswers(s: State, k: Key, sid: nat, after: State)
    requires Honest(s) && forall i :: AnsweredOnce(s, i)
    requires after.callers == s.callers && after.answers == s.answers && after.log == s.log + [Remove(k, sid)]
    ensures Honest(after) && forall i :: AnsweredOnce(after, i)
  {
    forall i
      ensures AnsweredOnce(after, i)
    {
      assert AnsweredOnce(s, i);
    }
  }

  lemma TakeKeepsInv(home: Home, s: State, r: nat, k: Key)
    requires Inv(home, s) && Enabled(s, Take(r, k)) && k in s.shards[home(k)]
    ensures Inv(home, Apply(home, s, Take(r, k)))
  {
    RemoveKeepsTable(home, s.shards, s.log, k);
    RemoveKeepsAnswers(s, k, s.shards[home(k)][k], Apply(home, s, Take(r, k)));
    SumUpdate(s.removers, r, true, Taken());
  }

  /** Steps that only move a caller on. */
  lemma MoveKeepsInv(home: Home, s: State, c: nat, pc: Caller)
    requires Inv(home, s) && c < |s.callers| && !s.callers[c].Inserted? && !Awaits(pc)
    ensures Inv(home, At(s, c, pc))
  {
    MoveCaller(s, c, pc);
    forall i
      ensures AnsweredOnce(At(s, c, pc), i)
    {
      assert AnsweredOnce(s, i);
    }
  }

  lemma LogMiss(log: seq<Op>, m: map<Key, nat>, k: Key)
    requires Replay(log) == Some(m) && k !in m
    ensures Replay(log + [Miss(k)]) == Some(m)
  {
  }

  /** The callers' part of a lookup that finds nothing. */
  lemma MissKeepsAnswers(s: State, c: nat, k: Key, at: nat, after: State)
    requires c < |s.callers| && !Awaits(s.callers[c]) && at == |s.log|
    requires Honest(s) && forall i :: AnsweredOnce(s, i)
    requires after.callers == s.callers[c := Missed(k, at)] && after.log == s.log + [Miss(k)]
    requires after.answers == s.answers
    ensures Honest(after) && forall i :: AnsweredOnce(after, i)
  {
    MoveCaller(s, c, Missed(k, at));
    forall i
      ensures AnsweredOnce(after, i)
    {
      assert AnsweredOnce(s, i);
    }
  }

  lemma MissKeepsInv(home: Home, s: State, c: nat, k: Key)
    requires Inv(home, s) && c < |s.callers| && !Awaits(s.callers[c]) && k !in s.shards[home(k)]
    ensures Inv(home, At(s, c, Missed(k, |s.log|)).(log := s.log + [Miss(k)]))
  {
    Lookup(home, s.shards, k);
    LogMiss(s.log, Flat(home, s.shards), k);
    MissKeepsAnswers(s, c, k, |s.log|, At(s, c, Missed(k, |s.log|)).(log := s.log + [Miss(k)]));
    SumUpdate(s.callers, c, Missed(k, |s.log|), Pending());
  }

  /** A caller that leaves with nil. */
  lemma NilKeepsInv(home: Home, s: State, c: nat)
    requires Inv(home, s) && Enabled(s, Build(c, false))
    ensures Inv(home, Apply(home, s, Build(c, false)))
  {
    var pc := s.callers[c];
    ReturnKeepsAnswers(s, c, Nil(pc.key, pc.at), Apply(home, s, Build(c, false)));
    SumUpdate(s.callers, c, Idle, Pending());
  }

  lemma StepKeepsInv(home: Home, s: State, step: Step)
    requires Inv(home, s) && Enabled(s, step)
    ensures Inv(home, Apply(home, s, step))
  {
    match step {
      case Start(c, k) => MoveKeepsInv(home, s, c, Started(k));
      case Look(c) =>
        var k := s.callers[c].key;
        if k in s.shards[home(k)] {
          FoundKeepsInv(home, s, c, k);
        } else {
          MissKeepsInv(home, s, c, k);
        }
      case Build(c, ok) =>
        if ok {
          MoveKeepsInv(home, s, c, Built(s.callers[c].key));
        } else {
          NilKeepsInv(home, s, c);
        }
      case Lock(c) =>
        var k := s.callers[c].key;
        if k in s.shards[home(k)] {
          FoundKeepsInv(home, s, c, k);
        } else {
          InsertKeepsInv(home, s, c);
        }
      case Count(c) => CountKeepsInv(home, s, c);
      case Take(r, k) =>
        if k in s.shards[home(k)] {
          TakeKeepsInv(home, s, r, k);
        }
      case Lower(r) =>
        SumUpdate(s.removers, r, false, Taken());
        forall i
          ensures AnsweredOnce(Apply(home, s, step), i)
        {
          assert AnsweredOnce(s, i);
        }
    }
  }

  lemma InitInv(home: Home, callers: nat, removers: nat)
    ensures Inv(home, Init(callers, removers))
  {
    var s := Init(callers, removers);
    EmptyIsEmpty<nat>(home);
    SumIsZero(s.callers, Pending());
    SumIsZero(s.removers, Taken());
    forall i
      ensures AnsweredOnce(s, i)
    {
      SumIsZero(s.callers, HolderOf(i));
    }
  }

  lemma {:induction false} RunKeepsInv(home: Home, callers: nat, removers: nat, steps: seq<Step>)
    requires Exec(home, callers, removers, steps).Some?
    ensures Inv(home, Exec(home, callers, removers, steps).value)
  {
    if steps == [] {
      InitInv(home, callers, removers);
    } else {
      var n := |steps| - 1;
      RunKeepsInv(home, callers, removers, steps[..n]);
      StepKeepsInv(home, Exec(home, callers, removers, steps[..n]).value, steps[n]);
    }
  }

  // ----- what it means -----

  ghost predicate Quiet(s: State) {
    && (forall i | 0 <= i < |s.callers| :: !s.callers[i].Inserted?)
    && (forall i | 0 <= i < |s.removers| :: !s.removers[i])
  }

  /** Linearisation, in every interleaving: the stripes hold the plain map that the history of
      operations leads to; every answer given, a session or nil, is the one its operation has in that
      history, where nil is the answer of a lookup that finds nothing; every insertion answers created
      to exactly one caller, at once or when it has counted; and the
      counter, corrected by the updates still to come, is the sum of the stripe sizes, so Len is
      exact whenever no update is outstanding. */
  lemma Linearised(home: Home, callers: nat, removers: nat, steps: seq<Step>)
    requires Exec(home, callers, removers, steps).Some?
    ensures var s := Exec(home, callers, removers, steps).value;
      && Homed(home, s.shards) && Replay(s.log) == Some(Flat(home, s.shards))
      && Honest(s) && (forall i :: AnsweredOnce(s, i))
      && s.count + Sum(s.callers, Pending()) - Sum(s.removers, Taken()) == Size(s.shards)
      && (Quiet(s) ==> s.count == Size(s.shards) == |Flat(home, s.shards)|)
  {
    RunKeepsInv(home, callers, removers, steps);
    var s := Exec(home, callers, removers, steps).value;
    SizeIsCount(home, s.shards);
    if Quiet(s) {
      SumIsZero(s.callers, Pending());
      SumIsZero(s.removers, Taken());
    }
  }

  // ----- histories -----

  lemma {:induction false} ReplayPrefix(log: seq<Op>, n: nat)
    requires n <= |log| && Replay(log).Some?
    ensures Replay(log[..n]).Some?
  {
    if n == |log| {
      assert log[..n] == log;
    } else {
      ReplayPrefix(log[..|log| - 1], n);
      assert log[..|log| - 1][..n] == log[..n];
    }
  }

  lemma ReplayNext(log: seq<Op>, n: nat)
    requires n < |log| && Replay(log).Some?
    ensures Replay(log[..n]).Some? && Replay(log[..n + 1]) == Perform(Replay(log[..n]).value, log[n], n)
    ensures Replay(log[..n + 1]).Some?
  {
    ReplayPrefix(log, n);
    ReplayPrefix(log, n + 1);
    assert log[..n + 1][..n] == log[..n];
  }

  lemma {:induction false} StaysBound(log: seq<Op>, i: nat, j: nat)
    requires Replay(log).Some? && i < j <= |log| && log[i].Create?
    requires forall m | i < m < j :: !(log[m].Remove? && log[m].key == log[i].key)
    ensures Replay(log[..j]).Some? && log[i].key in Replay(log[..j]).value
    ensures Replay(log[..j]).value[log[i].key] == log[i].sid
  {
    ReplayNext(log, j - 1);
    if j > i + 1 {
      StaysBound(log, i, j - 1);
    }
  }

  /** From an insertion until its removal, every caller that reaches the key gets that session, and
      none gets created or nil. */
  lemma OneSessionUntilRemoval(log: seq<Op>, i: nat, j: nat)
    requires Replay(log).Some? && i < j < |log| && log[i].Create? && log[j].key == log[i].key
    requires forall m | i < m < j :: !(log[m].Remove? && log[m].key == log[i].key)
    ensures !log[j].Miss? && !log[j].Create? && log[j].sid == log[i].sid
  {
    StaysBound(log, i, j);
    ReplayNext(log, j);
  }

  lemma {:induction false} NamesAreOld(log: seq<Op>)
    requires Replay(log).Some?
    ensures forall k | k in Replay(log).value :: Replay(log).value[k] < |log|
  {
    if log != [] {
      NamesAreOld(log[..|log| - 1]);
    }
  }

  lemma {:induction false} NamesAreDistinct(log: seq<Op>, k: Key, k': Key)
    requires Replay(log).Some? && k in Replay(log).value && k' in Replay(log).value
    requires Replay(log).value[k] == Replay(log).value[k']
    ensures k == k'
  {
    if log != [] {
      var before := log[..|log| - 1];
      NamesAreOld(before);
      var m := Replay(before).value;
      if k in m && k' in m && m[k] == m[k'] {
        NamesAreDistinct(before, k, k');
      }
    }
  }

  lemma {:induction false} GoneForGood(log: seq<Op>, i: nat, j: nat)
    requires Replay(log).Some? && i < j <= |log| && log[i].Remove?
    ensures Replay(log[..j]).Some? && log[i].sid < j
    ensures forall k | k in Replay(log[..j]).value :: Replay(log[..j]).value[k] != log[i].sid
  {
    ReplayNext(log, j - 1);
    NamesAreOld(log[..j - 1]);
    if j == i + 1 {
      forall k | k in Replay(log[..j]).value
        ensures Replay(log[..j]).value[k] != log[i].sid
      {
        if Replay(log[..i]).value[k] == log[i].sid {
          NamesAreDistinct(log[..i], k, log[i].key);
        }
      }
    } else {
      GoneForGood(log, i, j - 1);
    }
  }

  /** No insertion is removed twice, by whatever mix of deletions and sweeps. */
  lemma RemovedOnce(log: seq<Op>, i: nat, j: nat)
    requires Replay(log).Some? && i < j < |log| && log[i].Remove? && log[j].Remove?
    ensures log[i].sid != log[j].sid
  {
    GoneForGood(log, i, j);
    ReplayNext(log, j);
  }
}
