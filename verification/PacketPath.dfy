/** The packet path at the grain of single atomic operations: who owns each buffer, and what the
    counters add up to (readLoop, forwardWorker, forward and backendReadLoop in
    internal/frontend/frontend.go). */
module PacketPath {
  import opened Basics

  type Bytes = seq<bv8>
  type Buffer = nat

  /** A work item: a buffer, how many of its bytes are valid, and for the record what was read. */
  datatype Packet = Packet(buf: Buffer, n: nat, data: Bytes)

  datatype Counter = Received | BytesIn | Dropped | Fragment | Shaped | RateLimit | Abuse | Forwarded | BytesOut

  datatype Counters = Counters(received: int, bytesIn: int, dropped: int, fragment: int, shaped: int,
                               rateLimit: int, abuse: int, forwarded: int, bytesOut: int)

  function Bumped(c: Counters, x: Counter, n: nat): Counters {
    match x
    case Received => c.(received := c.received + 1)
    case BytesIn => c.(bytesIn := c.bytesIn + n)
    case Dropped => c.(dropped := c.dropped + 1)
    case Fragment => c.(fragment := c.fragment + 1)
    case Shaped => c.(shaped := c.shaped + 1)
    case RateLimit => c.(rateLimit := c.rateLimit + 1)
    case Abuse => c.(abuse := c.abuse + 1)
    case Forwarded => c.(forwarded := c.forwarded + 1)
    case BytesOut => c.(bytesOut := c.bytesOut + n)
  }

  /** Counter updates a goroutine has yet to make, in order; each is a separate atomic addition. */
  datatype Todo = Done | Then(first: Counter, rest: Todo)

  /** Why a packet is given up. Unwanted: too large, over the session cap, work queue full, no
      backend, full route queue, or send error. */
  datatype Reason = Unwanted | Fragmented | OverRate | Abusive

  function DropPlan(why: Reason): Todo {
    match why
    case Unwanted => Then(Dropped, Done)
    case Fragmented => Then(Dropped, Then(Fragment, Done))
    case OverRate => Then(Dropped, Then(Shaped, Then(RateLimit, Done)))
    case Abusive => Then(Dropped, Then(Abuse, Done))
  }

  function ReadPlan(): Todo {
    Then(Received, Then(BytesIn, Done))
  }

  function SendPlan(): Todo {
    Then(Forwarded, Then(BytesOut, Done))
  }

  /** Where a goroutine stands. Filling: inside a socket read into its buffer. Counting: a reader
      has a packet and counts it. Holding: a reader or worker decides about a packet. Answering:
      the backend reader has a reply and its route. Leaving: the packet's fate is settled, counters
      and the return of the buffer remain. */
  datatype Thread =
    | Idle
    | Filling(buf: Buffer)
    | Counting(pkt: Packet, todo: Todo)
    | Holding(pkt: Packet)
    | Answering(pkt: Packet)
    | Leaving(pkt: Packet, todo: Todo)

  datatype Role = Reader | Worker | BackendReader

  /** A datagram as read and as written. */
  datatype Relay = Relay(read: Bytes, written: Bytes)

  datatype State = State(mem: map<Buffer, Bytes>, pool: multiset<Buffer>, threads: seq<Thread>, queue: seq<Packet>,
                         counters: Counters, orphans: nat, drained: nat, relayed: seq<Relay>)

  datatype Reply = Unknown | Orphan | Routed

  datatype Step =
    | Fetch(i: nat, buf: Buffer, content: Bytes)      // from the pool, or newly allocated
    | Fill(i: nat, content: Bytes)                    // the kernel writes into the buffer
    | ReadFails(i: nat)
    | ReadPacket(i: nat, n: nat)
    | ReadReply(i: nat, n: nat, kind: Reply)
    | Bump(i: nat)
    | Decide(i: nat)
    | GiveUp(i: nat, why: Reason)
    | Enqueue(i: nat)
    | Dequeue(i: nat)
    | Drain(i: nat)
    | Send(i: nat)
    | Deliver(i: nat)
    | Release(i: nat)
    | Collect(b: Buffer)                              // the runtime may empty the pool

  ghost predicate Enabled(roles: seq<Role>, capacity: nat, s: State, step: Step)
    requires |roles| == |s.threads|
  {
    if step.Collect? then step.b in s.pool
    else
      step.i < |s.threads|
      && var t, role := s.threads[step.i], roles[step.i];
         match step
         case Fetch(_, buf, _) => t.Idle? && role != Worker && (buf in s.pool || buf !in s.mem)
         case Fill(_, _) => t.Filling? && t.buf in s.mem
         case ReadFails(_) => t.Filling?
         case ReadPacket(_, n) => t.Filling? && role == Reader && t.buf in s.mem && n <= |s.mem[t.buf]|
         case ReadReply(_, n, _) => t.Filling? && role == BackendReader && t.buf in s.mem && n <= |s.mem[t.buf]|
         case Bump(_) => (t.Counting? || t.Leaving?) && t.todo.Then?
         case Decide(_) => t.Counting? && t.todo.Done?
         case GiveUp(_, why) => t.Holding? && (role == Reader || why == Unwanted || why == OverRate)
         case Enqueue(_) => t.Holding? && role == Reader && |s.queue| < capacity
         case Dequeue(_) => t.Idle? && role == Worker && s.queue != []
         case Drain(_) => t.Idle? && role == Worker && s.queue != []
         case Send(_) => t.Holding? && role == Worker && t.pkt.buf in s.mem && t.pkt.n <= |s.mem[t.pkt.buf]|
         case Deliver(_) => t.Answering? && t.pkt.buf in s.mem && t.pkt.n <= |s.mem[t.pkt.buf]|
         case Release(_) => t.Leaving? && t.todo.Done?
  }

  // What a step does to each part of the state.

  function Taken(s: State, b: Buffer, n: nat): Packet
    requires b in s.mem && n <= |s.mem[b]|
  {
    Packet(b, n, s.mem[b][..n])
  }

  function NextThread(roles: seq<Role>, capacity: nat, s: State, step: Step): Thread
    requires |roles| == |s.threads| && Enabled(roles, capacity, s, step) && MovesThread(step)
  {
    var t := s.threads[step.i];
    match step
    case Fetch(_, buf, _) => Filling(buf)
    case ReadFails(_) => Idle
    case ReadPacket(_, n) => Counting(Taken(s, t.buf, n), ReadPlan())
    case ReadReply(_, n, Unknown) => Leaving(Taken(s, t.buf, n), Done)
    case ReadReply(_, n, Orphan) => Leaving(Taken(s, t.buf, n), DropPlan(Unwanted))
    case ReadReply(_, n, Routed) => Answering(Taken(s, t.buf, n))
    case Bump(_) => t.(todo := t.todo.rest)
    case Decide(_) => Holding(t.pkt)
    case GiveUp(_, why) => Leaving(t.pkt, DropPlan(why))
    case Enqueue(_) => Idle
    case Dequeue(_) => Holding(s.queue[0])
    case Drain(_) => Leaving(s.queue[0], Done)
    case Send(_) => Leaving(t.pkt, SendPlan())
    case Deliver(_) => Leaving(t.pkt, Done)
    case Release(_) => Idle
  }

  predicate MovesThread(step: Step) {
    !step.Collect? && !step.Fill?
  }

  function NextMem(roles: seq<Role>, capacity: nat, s: State, step: Step): map<Buffer, Bytes>
    requires |roles| == |s.threads| && Enabled(roles, capacity, s, step)
  {
    match step
    case Fetch(_, buf, content) => if buf in s.pool then s.mem else s.mem[buf := content]
    case Fill(i, content) => s.mem[s.threads[i].buf := content]
    case Collect(b) => s.mem - {b}
    case _ => s.mem
  }

  function NextPool(roles: seq<Role>, capacity: nat, s: State, step: Step): multiset<Buffer>
    requires |roles| == |s.threads| && Enabled(roles, capacity, s, step)
  {
    match step
    case Fetch(_, buf, _) => s.pool - multiset{buf}
    case ReadFails(i) => s.pool + multiset{s.threads[i].buf}
    case Release(i) => s.pool + multiset{s.threads[i].pkt.buf}
    case Collect(b) => s.pool - multiset{b}
    case _ => s.pool
  }

  function NextQueue(roles: seq<Role>, capacity: nat, s: State, step: Step): seq<Packet>
    requires |roles| == |s.threads| && Enabled(roles, capacity, s, step)
  {
    match step
    case Enqueue(i) => s.queue + [s.threads[i].pkt]
    case Dequeue(_) => s.queue[1..]
    case Drain(_) => s.queue[1..]
    case _ => s.queue
  }

  function NextCounters(roles: seq<Role>, capacity: nat, s: State, step: Step): Counters
    requires |roles| == |s.threads| && Enabled(roles, capacity, s, step)
  {
    match step
    case Bump(i) => Bumped(s.counters, s.threads[i].todo.first, s.threads[i].pkt.n)
    case _ => s.counters
  }

  function NextRelayed(roles: seq<Role>, capacity: nat, s: State, step: Step): seq<Relay>
    requires |roles| == |s.threads| && Enabled(roles, capacity, s, step)
  {
    if step.Send? || step.Deliver? then
      var p := s.threads[step.i].pkt;
      s.relayed + [Relay(p.data, s.mem[p.buf][..p.n])]
    else s.relayed
  }

  function Apply(roles: seq<Role>, capacity: nat, s: State, step: Step): State
    requires |roles| == |s.threads| && Enabled(roles, capacity, s, step)
  {
    State(NextMem(roles, capacity, s, step), NextPool(roles, capacity, s, step),
          if MovesThread(step) then s.threads[step.i := NextThread(roles, capacity, s, step)] else s.threads,
          NextQueue(roles, capacity, s, step), NextCounters(roles, capacity, s, step),
          s.orphans + (if step.ReadReply? && step.kind == Orphan then 1 else 0),
          s.drained + (if step.Drain? then 1 else 0),
          NextRelayed(roles, capacity, s, step))
  }

  // ----- ownership -----

  function Holds(t: Thread, b: Buffer): bool {
    match t
    case Idle => false
    case Filling(buf) => buf == b
    case Counting(p, _) => p.buf == b
    case Holding(p) => p.buf == b
    case Answering(p) => p.buf == b
    case Leaving(p, _) => p.buf == b
  }

  ghost function Holder(b: Buffer): Thread -> int {
    (t: Thread) => if Holds(t, b) then 1 else 0
  }

  ghost function Carrier(b: Buffer): Packet -> int {
    (p: Packet) => if p.buf == b then 1 else 0
  }

  /** The owners of a buffer: the pool, once for each time it is in it, goroutines, and work items. */
  ghost function Owners(s: State, b: Buffer): int {
    s.pool[b] + Sum(s.threads, Holder(b)) + Sum(s.queue, Carrier(b))
  }

  ghost predicate OneOwner(s: State, b: Buffer) {
    Owners(s, b) == if b in s.mem then 1 else 0
  }

  lemma PopCarrier(s: State, b: Buffer)
    requires s.queue != []
    ensures Sum(s.queue, Carrier(b)) == Carrier(b)(s.queue[0]) + Sum(s.queue[1..], Carrier(b))
  {
    SumTail(s.queue, Carrier(b));
  }

  predicate MovesQueue(step: Step) {
    step.Enqueue? || step.Dequeue? || step.Drain?
  }

  predicate MovesPool(step: Step) {
    step.Fetch? || step.ReadFails? || step.Release?
  }

  /** The owners of a buffer after one goroutine has moved on. */
  lemma OwnersMove(s: State, i: nat, t: Thread, after: State, b: Buffer)
    requires i < |s.threads| && after.threads == s.threads[i := t]
    ensures Owners(after, b) - Owners(s, b) == after.pool[b] - s.pool[b] + Holder(b)(t) - Holder(b)(s.threads[i])
                                             + Sum(after.queue, Carrier(b)) - Sum(s.queue, Carrier(b))
  {
    SumUpdate(s.threads, i, t, Holder(b));
  }

  lemma QueueHandsOn(roles: seq<Role>, capacity: nat, s: State, step: Step, b: Buffer)
    requires |roles| == |s.threads| && Enabled(roles, capacity, s, step) && MovesQueue(step)
    ensures Holder(b)(NextThread(roles, capacity, s, step)) - Holder(b)(s.threads[step.i])
         == Sum(s.queue, Carrier(b)) - Sum(NextQueue(roles, capacity, s, step), Carrier(b))
  {
    if step.Enqueue? {
      SumAppend(s.queue, s.threads[step.i].pkt, Carrier(b));
    } else {
      PopCarrier(s, b);
    }
  }

  lemma QueueKeepsOneOwner(roles: seq<Role>, capacity: nat, s: State, step: Step, b: Buffer)
    requires |roles| == |s.threads| && Enabled(roles, capacity, s, step) && MovesQueue(step) && OneOwner(s, b)
    ensures OneOwner(Apply(roles, capacity, s, step), b)
  {
    QueueHandsOn(roles, capacity, s, step, b);
    OwnersMove(s, step.i, NextThread(roles, capacity, s, step), Apply(roles, capacity, s, step), b);
  }

  /** A buffer fetched from the pool leaves it, one fetched anew comes into being, and one put back
      leaves its goroutine. */
  lemma PoolHandsOn(roles: seq<Role>, capacity: nat, s: State, step: Step, b: Buffer)
    requires |roles| == |s.threads| && Enabled(roles, capacity, s, step) && MovesPool(step) && OneOwner(s, b)
    ensures Holder(b)(NextThread(roles, capacity, s, step)) - Holder(b)(s.threads[step.i])
          + NextPool(roles, capacity, s, step)[b] - s.pool[b]
         == (if b in NextMem(roles, capacity, s, step) then 1 else 0) - (if b in s.mem then 1 else 0)
  {
    SumIsPositive(s.threads, Holder(b));
    SumIsPositive(s.queue, Carrier(b));
  }

  lemma PoolKeepsOneOwner(roles: seq<Role>, capacity: nat, s: State, step: Step, b: Buffer)
    requires |roles| == |s.threads| && Enabled(roles, capacity, s, step) && MovesPool(step) && OneOwner(s, b)
    ensures OneOwner(Apply(roles, capacity, s, step), b)
  {
    PoolHandsOn(roles, capacity, s, step, b);
    OwnersMove(s, step.i, NextThread(roles, capacity, s, step), Apply(roles, capacity, s, step), b);
  }

  /** Every step hands each buffer on from one owner to one other. */
  lemma StepKeepsOneOwner(roles: seq<Role>, capacity: nat, s: State, step: Step, b: Buffer)
    requires |roles| == |s.threads| && Enabled(roles, capacity, s, step) && OneOwner(s, b)
    ensures OneOwner(Apply(roles, capacity, s, step), b)
  {
    if MovesQueue(step) {
      QueueKeepsOneOwner(roles, capacity, s, step, b);
    } else if MovesPool(step) {
      PoolKeepsOneOwner(roles, capacity, s, step, b);
    } else if MovesThread(step) {
      assert Holds(NextThread(roles, capacity, s, step), b) == Holds(s.threads[step.i], b);
      SumUpdate(s.threads, step.i, NextThread(roles, capacity, s, step), Holder(b));
    } else if step.Collect? {
      SumIsPositive(s.threads, Holder(b));
      SumIsPositive(s.queue, Carrier(b));
    }
  }

  // ----- contents -----

  ghost predicate Intact(s: State, p: Packet) {
    p.buf in s.mem && p.n <= |s.mem[p.buf]| && s.mem[p.buf][..p.n] == p.data
  }

  ghost predicate Carries(t: Thread) {
    t.Counting? || t.Holding? || t.Answering? || t.Leaving?
  }

  /** Every packet still holds the bytes that were read into it, and everything relayed was so. */
  ghost predicate Unaltered(s: State) {
    && (forall i | 0 <= i < |s.threads| && Carries(s.threads[i]) :: Intact(s, s.threads[i].pkt))
    && (forall i | 0 <= i < |s.queue| :: Intact(s, s.queue[i]))
    && (forall i | 0 <= i < |s.relayed| :: s.relayed[i].written == s.relayed[i].read)
  }

  /** A buffer that is being filled or collected is in nobody else's hands. */
  lemma SoleThread(s: State, i: nat, b: Buffer)
    requires OneOwner(s, b) && b in s.mem && i < |s.threads| && Holds(s.threads[i], b)
    ensures forall j | 0 <= j < |s.threads| && j != i :: !Holds(s.threads[j], b)
    ensures forall j | 0 <= j < |s.queue| :: s.queue[j].buf != b
  {
    SumIsPositive(s.threads, Holder(b));
    SumIsPositive(s.queue, Carrier(b));
    SumAtLeast(s.threads, Holder(b), i);
    forall j | 0 <= j < |s.threads| && j != i
      ensures !Holds(s.threads[j], b)
    {
      if j < i {
        SumAtLeastTwo(s.threads, Holder(b), j, i);
      } else {
        SumAtLeastTwo(s.threads, Holder(b), i, j);
      }
    }
    forall j | 0 <= j < |s.queue|
      ensures s.queue[j].buf != b
    {
      SumAtLeast(s.queue, Carrier(b), j);
    }
  }

  lemma SolePool(s: State, b: Buffer)
    requires OneOwner(s, b) && b in s.pool
    ensures forall j | 0 <= j < |s.threads| :: !Holds(s.threads[j], b)
    ensures forall j | 0 <= j < |s.queue| :: s.queue[j].buf != b
  {
    SumIsPositive(s.threads, Holder(b));
    SumIsPositive(s.queue, Carrier(b));
    forall j | 0 <= j < |s.threads|
      ensures !Holds(s.threads[j], b)
    {
      SumAtLeast(s.threads, Holder(b), j);
    }
    forall j | 0 <= j < |s.queue|
      ensures s.queue[j].buf != b
    {
      SumAtLeast(s.queue, Carrier(b), j);
    }
  }

  lemma FillKeepsUnaltered(s: State, i: nat, content: Bytes)
    requires i < |s.threads| && s.threads[i].Filling? && s.threads[i].buf in s.mem
    requires Unaltered(s) && OneOwner(s, s.threads[i].buf)
    ensures Unaltered(s.(mem := s.mem[s.threads[i].buf := content]))
  {
    SoleThread(s, i, s.threads[i].buf);
  }

  lemma CollectKeepsUnaltered(s: State, b: Buffer)
    requires b in s.pool && Unaltered(s) && OneOwner(s, b)
    ensures Unaltered(s.(pool := s.pool - multiset{b}, mem := s.mem - {b}))
  {
    SolePool(s, b);
  }

  /** The goroutine that moves ends with an intact packet or none. */
  lemma MoveKeepsIntact(roles: seq<Role>, capacity: nat, s: State, step: Step)
    requires |roles| == |s.threads| && Enabled(roles, capacity, s, step) && Unaltered(s) && MovesThread(step)
    ensures var t := NextThread(roles, capacity, s, step);
      Carries(t) ==> Intact(s, t.pkt)
  {
  }

  lemma RelaysWhatWasRead(roles: seq<Role>, capacity: nat, s: State, step: Step)
    requires |roles| == |s.threads| && Enabled(roles, capacity, s, step) && Unaltered(s)
    ensures forall r | r in NextRelayed(roles, capacity, s, step) :: r.written == r.read
  {
  }

  lemma MoveKeepsQueue(roles: seq<Role>, capacity: nat, s: State, step: Step)
    requires |roles| == |s.threads| && Enabled(roles, capacity, s, step) && Unaltered(s)
    ensures forall p | p in NextQueue(roles, capacity, s, step) :: Intact(s, p)
  {
  }

  /** Outside a read, memory only grows, so what is intact stays so. */
  lemma MoveKeepsMemory(roles: seq<Role>, capacity: nat, s: State, step: Step, p: Packet)
    requires |roles| == |s.threads| && Enabled(roles, capacity, s, step) && MovesThread(step) && Intact(s, p)
    ensures Intact(Apply(roles, capacity, s, step), p)
  {
  }

  lemma MoveKeepsUnaltered(roles: seq<Role>, capacity: nat, s: State, step: Step)
    requires |roles| == |s.threads| && Enabled(roles, capacity, s, step) && MovesThread(step) && Unaltered(s)
    ensures Unaltered(Apply(roles, capacity, s, step))
  {
    var after := Apply(roles, capacity, s, step);
    MoveKeepsIntact(roles, capacity, s, step);
    MoveKeepsQueue(roles, capacity, s, step);
    RelaysWhatWasRead(roles, capacity, s, step);
    forall i | 0 <= i < |after.threads| && Carries(after.threads[i])
      ensures Intact(after, after.threads[i].pkt)
    {
      MoveKeepsMemory(roles, capacity, s, step, after.threads[i].pkt);
    }
    forall i | 0 <= i < |after.queue|
      ensures Intact(after, after.queue[i])
    {
      MoveKeepsMemory(roles, capacity, s, step, after.queue[i]);
    }
  }

  lemma StepKeepsUnaltered(roles: seq<Role>, capacity: nat, s: State, step: Step)
    requires |roles| == |s.threads| && Enabled(roles, capacity, s, step)
    requires Unaltered(s) && forall b :: OneOwner(s, b)
    ensures Unaltered(Apply(roles, capacity, s, step))
  {
    if step.Fill? {
      assert OneOwner(s, s.threads[step.i].buf);
      FillKeepsUnaltered(s, step.i, step.content);
    } else if step.Collect? {
      assert OneOwner(s, step.b);
      CollectKeepsUnaltered(s, step.b);
    } else {
      MoveKeepsUnaltered(roles, capacity, s, step);
    }
  }

  // ----- accounting -----

  function Left(c: Counter, todo: Todo): nat {
    match todo
    case Done => 0
    case Then(x, rest) => (if x == c then 1 else 0) + Left(c, rest)
  }

  function TodoOf(t: Thread): Todo {
    if t.Counting? || t.Leaving? then t.todo else Done
  }

  /** 1 for a goroutine with a packet whose fate is open. */
  function Open(t: Thread): nat {
    if t.Counting? || t.Holding? then 1 else 0
  }

  /** What a goroutine will still add to arrivals, less what it will add to departures. */
  ghost function Due(): Thread -> int {
    (t: Thread) => Left(Received, TodoOf(t)) - Left(Forwarded, TodoOf(t)) - Left(Dropped, TodoOf(t)) - Open(t)
  }

  /** Every packet received, and every reply without a route, is forwarded, dropped, queued, drained
      or still in some goroutine's hands. */
  ghost predicate Accounted(s: State) {
    s.counters.received + s.orphans + Sum(s.threads, Due())
      == s.counters.forwarded + s.counters.dropped + |s.queue| + s.drained
  }

  ghost function ShapedGap(): Thread -> int {
    (t: Thread) => Left(Shaped, TodoOf(t)) - Left(RateLimit, TodoOf(t))
  }

  ghost predicate ShapedMatches(s: State) {
    s.counters.shaped + Sum(s.threads, ShapedGap()) == s.counters.rateLimit
  }

  /** How far a list of additions can take the drop reasons ahead of the drops. */
  function Need(todo: Todo): nat {
    match todo
    case Done => 0
    case Then(x, rest) =>
      Max(0, Need(rest) + if x == Dropped then -1 else if x in {Fragment, RateLimit, Abuse} then 1 else 0)
  }

  ghost function Needs(): Thread -> int {
    (t: Thread) => Need(TodoOf(t))
  }

  ghost predicate ReasonsCovered(s: State) {
    s.counters.fragment + s.counters.rateLimit + s.counters.abuse + Sum(s.threads, Needs()) <= s.counters.dropped
  }

  /** Bytes counted in that a goroutine may still count out. */
  function InHand(t: Thread): int {
    match t
    case Counting(p, todo) => if Left(BytesIn, todo) == 0 then p.n else 0
    case Holding(p) => p.n
    case Leaving(p, todo) => if Left(BytesOut, todo) == 0 then 0 else p.n
    case _ => 0
  }

  ghost function InHands(): Thread -> int {
    (t: Thread) => InHand(t)
  }

  ghost function SizeOf(): Packet -> int {
    (p: Packet) => p.n
  }

  ghost predicate BytesCovered(s: State) {
    s.counters.bytesOut + Sum(s.threads, InHands()) + Sum(s.queue, SizeOf()) <= s.counters.bytesIn
  }

  /** Byte counts are added at most once per packet, inward while counting and outward on leaving. */
  ghost predicate Tidy(t: Thread) {
    match t
    case Counting(_, todo) => Left(BytesIn, todo) <= 1 && Left(BytesOut, todo) == 0
    case Leaving(_, todo) => Left(BytesOut, todo) <= 1 && Left(BytesIn, todo) == 0
    case _ => true
  }

  ghost predicate AllTidy(s: State) {
    forall i | 0 <= i < |s.threads| :: Tidy(s.threads[i])
  }

  ghost predicate Books(s: State) {
    Accounted(s) && ShapedMatches(s) && ReasonsCovered(s) && BytesCovered(s) && AllTidy(s)
  }

  /** All sums that moving one goroutine on affects. */
  lemma MoveThread(s: State, i: nat, t: Thread)
    requires i < |s.threads|
    ensures var moved := s.threads[i := t];
      && Sum(moved, Due()) == Sum(s.threads, Due()) - Due()(s.threads[i]) + Due()(t)
      && Sum(moved, ShapedGap()) == Sum(s.threads, ShapedGap()) - ShapedGap()(s.threads[i]) + ShapedGap()(t)
      && Sum(moved, Needs()) == Sum(s.threads, Needs()) - Needs()(s.threads[i]) + Needs()(t)
      && Sum(moved, InHands()) == Sum(s.threads, InHands()) - InHands()(s.threads[i]) + InHands()(t)
  {
    SumUpdate(s.threads, i, t, Due());
    SumUpdate(s.threads, i, t, ShapedGap());
    SumUpdate(s.threads, i, t, Needs());
    SumUpdate(s.threads, i, t, InHands());
  }

  lemma PlansAreCovered(why: Reason)
    ensures var todo := DropPlan(why);
      && Left(Dropped, todo) == 1 && Left(Received, todo) == 0 && Left(Forwarded, todo) == 0
      && Left(Shaped, todo) == Left(RateLimit, todo) && Need(todo) == 0
      && Left(BytesIn, todo) == 0 && Left(BytesOut, todo) == 0
  {
    assert Need(Then(Shaped, Then(RateLimit, Done))) == 1;
    assert Left(RateLimit, Then(Shaped, Then(RateLimit, Done))) == 1;
  }

  lemma ReadPlanWeights(p: Packet)
    ensures var t := Counting(p, ReadPlan());
      Due()(t) == 0 && ShapedGap()(t) == 0 && Needs()(t) == 0 && InHands()(t) == 0 && Tidy(t)
  {
  }

  lemma SendPlanWeights(p: Packet)
    ensures var t := Leaving(p, SendPlan());
      Due()(t) == -1 && ShapedGap()(t) == 0 && Needs()(t) == 0 && InHands()(t) == p.n && Tidy(t)
  {
  }

  lemma DropPlanWeights(p: Packet, why: Reason)
    ensures var t := Leaving(p, DropPlan(why));
      Due()(t) == -1 && ShapedGap()(t) == 0 && Needs()(t) == 0 && InHands()(t) == 0 && Tidy(t)
  {
    PlansAreCovered(why);
  }

  /** What one addition changes, in the goroutine that makes it and in the counters. */
  lemma BumpWeights(t: Thread, c: Counters)
    requires (t.Counting? || t.Leaving?) && t.todo.Then? && Tidy(t)
    ensures var t', c' := t.(todo := t.todo.rest), Bumped(c, t.todo.first, t.pkt.n);
      && Due()(t') - Due()(t) == c'.forwarded - c.forwarded + c'.dropped - c.dropped - (c'.received - c.received)
      && ShapedGap()(t') - ShapedGap()(t) == c'.rateLimit - c.rateLimit - (c'.shaped - c.shaped)
      && Needs()(t') - Needs()(t) <= c'.dropped - c.dropped
           - (c'.fragment - c.fragment + c'.rateLimit - c.rateLimit + c'.abuse - c.abuse)
      && InHands()(t') - InHands()(t) == c'.bytesIn - c.bytesIn - (c'.bytesOut - c.bytesOut)
      && Tidy(t')
  {
  }

  lemma BumpKeepsBooks(roles: seq<Role>, capacity: nat, s: State, i: nat)
    requires |roles| == |s.threads| && Enabled(roles, capacity, s, Bump(i)) && Books(s)
    ensures Books(Apply(roles, capacity, s, Bump(i)))
  {
    var t := s.threads[i];
    assert Tidy(t);
    BumpWeights(t, s.counters);
    MoveThread(s, i, t.(todo := t.todo.rest));
  }

  lemma QueueWeights(roles: seq<Role>, capacity: nat, s: State, step: Step)
    requires |roles| == |s.threads| && Enabled(roles, capacity, s, step) && MovesQueue(step)
    ensures var t, t' := s.threads[step.i], NextThread(roles, capacity, s, step);
      var queue := NextQueue(roles, capacity, s, step);
      && Due()(t') - Due()(t) == |queue| + (if step.Drain? then 1 else 0) - |s.queue|
      && ShapedGap()(t') == ShapedGap()(t) && Needs()(t') == Needs()(t)
      && InHands()(t') + Sum(queue, SizeOf()) <= InHands()(t) + Sum(s.queue, SizeOf())
      && Tidy(t')
  {
    if step.Enqueue? {
      SumAppend(s.queue, s.threads[step.i].pkt, SizeOf());
    } else {
      SumTail(s.queue, SizeOf());
    }
  }

  /** How moving a goroutine from t to t' weighs in the books, with the replies without a route it adds. */
  ghost predicate Weighs(t: Thread, t': Thread, orphans: int) {
    && Due()(t') - Due()(t) == -orphans
    && ShapedGap()(t') == ShapedGap()(t) && Needs()(t') == Needs()(t)
    && InHands()(t') <= InHands()(t) && Tidy(t')
  }

  predicate MakesPlan(step: Step) {
    step.GiveUp? || step.ReadPacket? || step.Send? || (step.ReadReply? && step.kind == Orphan)
  }

  lemma PlanWeighs(roles: seq<Role>, capacity: nat, s: State, step: Step)
    requires |roles| == |s.threads| && Enabled(roles, capacity, s, step) && MakesPlan(step)
    ensures Weighs(s.threads[step.i], NextThread(roles, capacity, s, step), if step.ReadReply? then 1 else 0)
  {
    var t' := NextThread(roles, capacity, s, step);
    match step {
      case GiveUp(_, why) => DropPlanWeights(t'.pkt, why);
      case ReadPacket(_, _) => ReadPlanWeights(t'.pkt);
      case ReadReply(_, _, _) => DropPlanWeights(t'.pkt, Unwanted);
      case Send(_) => SendPlanWeights(t'.pkt);
    }
  }

  /** The other steps touch neither counters nor queue. */
  lemma OtherWeights(roles: seq<Role>, capacity: nat, s: State, step: Step)
    requires |roles| == |s.threads| && Enabled(roles, capacity, s, step)
    requires MovesThread(step) && !MovesQueue(step) && !step.Bump?
    ensures Weighs(s.threads[step.i], NextThread(roles, capacity, s, step),
                   if step.ReadReply? && step.kind == Orphan then 1 else 0)
  {
    if MakesPlan(step) {
      PlanWeighs(roles, capacity, s, step);
    }
  }

  /** The books after one goroutine has moved on and no counter has changed. */
  lemma BooksMove(s: State, i: nat, t: Thread, after: State)
    requires i < |s.threads| && Books(s) && after.threads == s.threads[i := t] && after.counters == s.counters
    requires Due()(t) - Due()(s.threads[i])
          == |after.queue| + after.drained - |s.queue| - s.drained - (after.orphans - s.orphans)
    requires ShapedGap()(t) == ShapedGap()(s.threads[i]) && Needs()(t) == Needs()(s.threads[i]) && Tidy(t)
    requires InHands()(t) + Sum(after.queue, SizeOf()) <= InHands()(s.threads[i]) + Sum(s.queue, SizeOf())
    ensures Books(after)
  {
    MoveThread(s, i, t);
  }

  lemma QueueKeepsBooks(roles: seq<Role>, capacity: nat, s: State, step: Step)
    requires |roles| == |s.threads| && Enabled(roles, capacity, s, step) && MovesQueue(step) && Books(s)
    ensures Books(Apply(roles, capacity, s, step))
  {
    QueueWeights(roles, capacity, s, step);
    BooksMove(s, step.i, NextThread(roles, capacity, s, step), Apply(roles, capacity, s, step));
  }

  lemma OthersKeepBooks(roles: seq<Role>, capacity: nat, s: State, step: Step)
    requires |roles| == |s.threads| && Enabled(roles, capacity, s, step) && Books(s)
    requires MovesThread(step) && !MovesQueue(step) && !step.Bump?
    ensures Books(Apply(roles, capacity, s, step))
  {
    OtherWeights(roles, capacity, s, step);
    BooksMove(s, step.i, NextThread(roles, capacity, s, step), Apply(roles, capacity, s, step));
  }

  lemma StepKeepsBooks(roles: seq<Role>, capacity: nat, s: State, step: Step)
    requires |roles| == |s.threads| && Enabled(roles, capacity, s, step) && Books(s)
    ensures Books(Apply(roles, capacity, s, step))
  {
    if step.Bump? {
      BumpKeepsBooks(roles, capacity, s, step.i);
    } else if MovesQueue(step) {
      QueueKeepsBooks(roles, capacity, s, step);
    } else if MovesThread(step) {
      OthersKeepBooks(roles, capacity, s, step);
    }
  }

  // ----- whole runs -----

  ghost predicate Inv(s: State) {
    (forall b :: OneOwner(s, b)) && Unaltered(s) && Books(s)
  }

  function Init(threads: nat): State {
    State(map[], multiset{}, seq(threads, _ => Idle), [], Counters(0, 0, 0, 0, 0, 0, 0, 0, 0), 0, 0, [])
  }

  ghost function Exec(roles: seq<Role>, capacity: nat, steps: seq<Step>): (r: Option<State>)
    ensures r.Some? ==> |r.value.threads| == |roles|
  {
    if steps == [] then Some(Init(|roles|))
    else
      match Exec(roles, capacity, steps[..|steps| - 1])
      case None => None
      case Some(s) =>
        var step := steps[|steps| - 1];
        if Enabled(roles, capacity, s, step) then Some(Apply(roles, capacity, s, step)) else None
  }

  lemma {:induction false} RunKeepsInv(roles: seq<Role>, capacity: nat, steps: seq<Step>)
    requires Exec(roles, capacity, steps).Some?
    ensures Inv(Exec(roles, capacity, steps).value)
  {
    if steps == [] {
      var s := Init(|roles|);
      forall b
        ensures OneOwner(s, b)
      {
        SumIsZero(s.threads, Holder(b));
      }
      SumIsZero(s.threads, Due());
      SumIsZero(s.threads, ShapedGap());
      SumIsZero(s.threads, Needs());
      SumIsZero(s.threads, InHands());
    } else {
      var n := |steps| - 1;
      RunKeepsInv(roles, capacity, steps[..n]);
      var s := Exec(roles, capacity, steps[..n]).value;
      forall b
        ensures OneOwner(Apply(roles, capacity, s, steps[n]), b)
      {
        assert OneOwner(s, b);
        StepKeepsOneOwner(roles, capacity, s, steps[n], b);
      }
      StepKeepsUnaltered(roles, capacity, s, steps[n]);
      StepKeepsBooks(roles, capacity, s, steps[n]);
    }
  }

  /** Ownership, in every interleaving: each existing buffer is in exactly one place among pool,
      goroutines and queue, so none is returned twice or shared, and every datagram sent on holds
      the bytes that were read. */
  lemma BuffersHaveOneOwner(roles: seq<Role>, capacity: nat, steps: seq<Step>)
    requires Exec(roles, capacity, steps).Some?
    ensures var s := Exec(roles, capacity, steps).value;
      && (forall b :: Owners(s, b) == if b in s.mem then 1 else 0)
      && (forall i | 0 <= i < |s.relayed| :: s.relayed[i].written == s.relayed[i].read)
  {
    RunKeepsInv(roles, capacity, steps);
    var s := Exec(roles, capacity, steps).value;
    forall b
      ensures Owners(s, b) == if b in s.mem then 1 else 0
    {
      assert OneOwner(s, b);
    }
  }

  /** No goroutine is between taking a packet and settling it. */
  ghost predicate Quiet(s: State) {
    forall i | 0 <= i < |s.threads| :: s.threads[i].Idle? || s.threads[i].Filling?
  }

  /** Accounting over whole runs: drop reasons never outnumber drops and no more bytes go out than
      came in, at any moment; when nothing is in progress, packets received and replies without a
      route equal packets forwarded, dropped, queued and drained, and the two shaping counters agree. */
  lemma CountersBalance(roles: seq<Role>, capacity: nat, steps: seq<Step>)
    requires Exec(roles, capacity, steps).Some?
    ensures var s := Exec(roles, capacity, steps).value;
      var c := s.counters;
      && c.rateLimit + c.fragment + c.abuse <= c.dropped && c.bytesOut <= c.bytesIn
      && (Quiet(s) ==>
            && c.received + s.orphans == c.forwarded + c.dropped + |s.queue| + s.drained
            && c.shaped == c.rateLimit)
  {
    RunKeepsInv(roles, capacity, steps);
    var s := Exec(roles, capacity, steps).value;
    SumIsPositive(s.threads, Needs());
    SumIsPositive(s.threads, InHands());
    SumIsPositive(s.queue, SizeOf());
    if Quiet(s) {
      SumIsZero(s.threads, Due());
      SumIsZero(s.threads, ShapedGap());
    }
  }

  // ----- each counter by itself -----

  function Value(c: Counters, x: Counter): int {
    match x
    case Received => c.received
    case BytesIn => c.bytesIn
    case Dropped => c.dropped
    case Fragment => c.fragment
    case Shaped => c.shaped
    case RateLimit => c.rateLimit
    case Abuse => c.abuse
    case Forwarded => c.forwarded
    case BytesOut => c.bytesOut
  }

  /** What a step of a run stands for in counter x: a packet read, its bytes, a packet given up and for what
      reason, a reply without a route, a packet sent, its bytes. */
  ghost function Worth(s: State, step: Step, x: Counter): int {
    match x
    case Received => if step.ReadPacket? then 1 else 0
    case BytesIn => if step.ReadPacket? then step.n else 0
    case Dropped => if step.GiveUp? || (step.ReadReply? && step.kind == Orphan) then 1 else 0
    case Fragment => if step.GiveUp? && step.why == Fragmented then 1 else 0
    case Shaped => if step.GiveUp? && step.why == OverRate then 1 else 0
    case RateLimit => if step.GiveUp? && step.why == OverRate then 1 else 0
    case Abuse => if step.GiveUp? && step.why == Abusive then 1 else 0
    case Forwarded => if step.Send? then 1 else 0
    case BytesOut => if step.Send? then Held(s, step.i) else 0
  }

  /** The size of the packet a goroutine has. */
  ghost function Held(s: State, i: nat): int {
    if i < |s.threads| && Carries(s.threads[i]) then s.threads[i].pkt.n else 0
  }

  /** What the steps of a run stand for together. */
  ghost function Total(roles: seq<Role>, capacity: nat, steps: seq<Step>, x: Counter): int
    requires Exec(roles, capacity, steps).Some?
  {
    if steps == [] then 0
    else
      var before := steps[..|steps| - 1];
      Total(roles, capacity, before, x) + Worth(Exec(roles, capacity, before).value, steps[|steps| - 1], x)
  }

  /** What one addition to counter x adds, for a packet of n bytes. */
  function Unit(x: Counter, n: nat): nat {
    if x == BytesIn || x == BytesOut then n else 1
  }

  /** What a goroutine has yet to add to counter x. */
  ghost function Owing(x: Counter): Thread -> int {
    (t: Thread) => if t.Counting? || t.Leaving? then Left(x, t.todo) * Unit(x, t.pkt.n) else 0
  }

  ghost predicate Settled(s: State, x: Counter, total: int) {
    Value(s.counters, x) + Sum(s.threads, Owing(x)) == total
  }

  lemma BumpSettles(c: Counters, x: Counter, n: nat, first: Counter)
    ensures Value(Bumped(c, first, n), x) == Value(c, x) + if x == first then Unit(x, n) else 0
  {
  }

  lemma BumpOwes(t: Thread, x: Counter)
    requires (t.Counting? || t.Leaving?) && t.todo.Then?
    ensures Owing(x)(t.(todo := t.todo.rest)) == Owing(x)(t) - if x == t.todo.first then Unit(x, t.pkt.n) else 0
  {
    var rest := Left(x, t.todo.rest);
    assert (1 + rest) * Unit(x, t.pkt.n) == Unit(x, t.pkt.n) + rest * Unit(x, t.pkt.n);
  }

  lemma DropPlanOwes(why: Reason, x: Counter)
    ensures Left(x, DropPlan(why)) ==
      if x == Dropped then 1
      else if why == Fragmented && x == Fragment then 1
      else if why == OverRate && (x == Shaped || x == RateLimit) then 1
      else if why == Abusive && x == Abuse then 1
      else 0
  {
    assert Left(x, Then(Shaped, Then(RateLimit, Done))) == if x == Shaped || x == RateLimit then 1 else 0;
  }

  lemma PlansOwe(x: Counter)
    ensures Left(x, ReadPlan()) == if x == Received || x == BytesIn then 1 else 0
    ensures Left(x, SendPlan()) == if x == Forwarded || x == BytesOut then 1 else 0
  {
  }

  lemma OwesPlan(p: Packet, plan: Todo, x: Counter)
    requires Left(x, plan) <= 1
    ensures Owing(x)(Leaving(p, plan)) == Owing(x)(Counting(p, plan)) == if Left(x, plan) == 1 then Unit(x, p.n) else 0
  {
  }

  lemma DroppingOwes(p: Packet, why: Reason, x: Counter)
    ensures Owing(x)(Leaving(p, DropPlan(why))) == Left(x, DropPlan(why)) <= 1
  {
    DropPlanOwes(why, x);
    OwesPlan(p, DropPlan(why), x);
  }

  lemma GivingUpOwes(roles: seq<Role>, capacity: nat, s: State, step: Step, x: Counter)
    requires |roles| == |s.threads| && Enabled(roles, capacity, s, step)
    requires step.GiveUp? || (step.ReadReply? && step.kind == Orphan)
    ensures Owing(x)(NextThread(roles, capacity, s, step)) == Worth(s, step, x) && Owing(x)(s.threads[step.i]) == 0
  {
    var why := if step.GiveUp? then step.why else Unwanted;
    DropPlanOwes(why, x);
    DroppingOwes(NextThread(roles, capacity, s, step).pkt, why, x);
  }

  lemma PlannedOwes(roles: seq<Role>, capacity: nat, s: State, step: Step, x: Counter)
    requires |roles| == |s.threads| && Enabled(roles, capacity, s, step) && MakesPlan(step)
    ensures Owing(x)(NextThread(roles, capacity, s, step)) == Worth(s, step, x) && Owing(x)(s.threads[step.i]) == 0
  {
    PlansOwe(x);
    if step.ReadPacket? {
      OwesPlan(NextThread(roles, capacity, s, step).pkt, ReadPlan(), x);
    } else if step.Send? {
      OwesPlan(NextThread(roles, capacity, s, step).pkt, SendPlan(), x);
    } else {
      GivingUpOwes(roles, capacity, s, step, x);
    }
  }

  lemma OthersOweNothing(roles: seq<Role>, capacity: nat, s: State, step: Step, x: Counter)
    requires |roles| == |s.threads| && Enabled(roles, capacity, s, step)
    requires MovesThread(step) && !step.Bump? && !MakesPlan(step)
    ensures Owing(x)(NextThread(roles, capacity, s, step)) == 0 == Owing(x)(s.threads[step.i])
    ensures Worth(s, step, x) == 0
  {
  }

  /** A step that makes no addition leaves its goroutine owing what it stands for, and no more. */
  lemma StepOwes(roles: seq<Role>, capacity: nat, s: State, step: Step, x: Counter)
    requires |roles| == |s.threads| && Enabled(roles, capacity, s, step) && MovesThread(step) && !step.Bump?
    ensures Owing(x)(NextThread(roles, capacity, s, step)) == Owing(x)(s.threads[step.i]) + Worth(s, step, x)
  {
    if MakesPlan(step) {
      PlannedOwes(roles, capacity, s, step, x);
    } else {
      OthersOweNothing(roles, capacity, s, step, x);
    }
  }

  lemma StepSettles(roles: seq<Role>, capacity: nat, s: State, step: Step, x: Counter, total: int)
    requires |roles| == |s.threads| && Enabled(roles, capacity, s, step) && Settled(s, x, total)
    ensures Settled(Apply(roles, capacity, s, step), x, total + Worth(s, step, x))
  {
    if MovesThread(step) {
      SumUpdate(s.threads, step.i, NextThread(roles, capacity, s, step), Owing(x));
      if step.Bump? {
        var t := s.threads[step.i];
        BumpSettles(s.counters, x, t.pkt.n, t.todo.first);
        BumpOwes(t, x);
      } else {
        StepOwes(roles, capacity, s, step, x);
      }
    }
  }

  lemma {:induction false} RunSettles(roles: seq<Role>, capacity: nat, steps: seq<Step>, x: Counter)
    requires Exec(roles, capacity, steps).Some?
    ensures Settled(Exec(roles, capacity, steps).value, x, Total(roles, capacity, steps, x))
  {
    if steps == [] {
      SumIsZero(Init(|roles|).threads, Owing(x));
    } else {
      var before := steps[..|steps| - 1];
      RunSettles(roles, capacity, before, x);
      StepSettles(roles, capacity, Exec(roles, capacity, before).value, steps[|steps| - 1], x,
                  Total(roles, capacity, before, x));
    }
  }

  /** Every counter by itself: when nothing is in progress it stands at what the steps of the run stand for,
      so each drop reason's counter is the number of packets given up for that reason, and the byte
      counters are the sizes of the packets read and sent; before that it is at most so far behind. */
  lemma CountersAreExact(roles: seq<Role>, capacity: nat, steps: seq<Step>, x: Counter)
    requires Exec(roles, capacity, steps).Some?
    ensures var s := Exec(roles, capacity, steps).value;
      && Value(s.counters, x) <= Total(roles, capacity, steps, x)
      && (Quiet(s) ==> Value(s.counters, x) == Total(roles, capacity, steps, x))
  {
    var s := Exec(roles, capacity, steps).value;
    RunSettles(roles, capacity, steps, x);
    forall t
      ensures Owing(x)(t) >= 0
    {
      OwingIsPositive(x, t);
    }
    SumIsPositive(s.threads, Owing(x));
    if Quiet(s) {
      SumIsZero(s.threads, Owing(x));
    }
  }

  lemma OwingIsPositive(x: Counter, t: Thread)
    ensures Owing(x)(t) >= 0
  {
  }
}
