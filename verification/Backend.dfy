/** Server selection of a backend pool (internal/backend/backend.go). */
module Backend {
  import opened Basics
  import Fnv

  // ----- what one Pick call sees -----

  /** The three passes of a Pick over the server list; each loads every server's health at most once. */
  datatype Pass = Weighing | Walking | FallingBack

  /** The value each atomic load of Healthy returns. Health may change between any two loads. */
  type Loads = (Pass, nat) -> bool

  function Seen(loads: Loads, pass: Pass, n: nat): (up: seq<bool>)
    ensures |up| == n && forall i | 0 <= i < n :: up[i] == loads(pass, i)
  {
    seq(n, i requires 0 <= i < n => loads(pass, i))
  }

  // ----- the weight-expanded list -----

  function Share(weight: int, up: bool): nat {
    if up && weight > 0 then weight else 0
  }

  /** The list in which every healthy server of positive weight stands weight times. */
  function Expand(weights: seq<int>, up: seq<bool>): seq<nat>
    requires |weights| == |up|
  {
    if |weights| == 0 then []
    else
      var n := |weights| - 1;
      Expand(weights[..n], up[..n]) + seq(Share(weights[n], up[n]), _ => n)
  }

  lemma ExpandStep(weights: seq<int>, up: seq<bool>, i: nat)
    requires |weights| == |up| && i < |weights|
    ensures Expand(weights[..i + 1], up[..i + 1])
         == Expand(weights[..i], up[..i]) + seq(Share(weights[i], up[i]), _ => i)
  {
    assert weights[..i + 1][..i] == weights[..i] && up[..i + 1][..i] == up[..i];
  }

  lemma {:induction false} ExpandPrefix(weights: seq<int>, up: seq<bool>, i: nat)
    requires |weights| == |up| && i <= |weights|
    ensures Expand(weights[..i], up[..i]) <= Expand(weights, up)
    decreases |weights| - i
  {
    if i == |weights| {
      assert weights[..i] == weights && up[..i] == up;
    } else {
      ExpandStep(weights, up, i);
      ExpandPrefix(weights, up, i + 1);
    }
  }

  /** The list holds each server exactly as often as its share, and nothing else. */
  lemma {:induction false} ExpandCount(weights: seq<int>, up: seq<bool>, s: nat)
    requires |weights| == |up|
    ensures multiset(Expand(weights, up))[s] == if s < |weights| then Share(weights[s], up[s]) else 0
  {
    if |weights| > 0 {
      var n := |weights| - 1;
      ExpandCount(weights[..n], up[..n], s);
      var w := Share(weights[n], up[n]);
      CountConstant(w, n, s);
    }
  }

  lemma {:induction false} CountConstant(w: nat, n: nat, s: nat)
    ensures multiset(seq(w, _ => n))[s] == if s == n then w else 0
  {
    if w > 0 {
      CountConstant(w - 1, n, s);
      assert seq(w, _ => n) == seq(w - 1, _ => n) + [n];
    }
  }

  lemma MemberIsUp(weights: seq<int>, up: seq<bool>, at: nat)
    requires |weights| == |up| && at < |Expand(weights, up)|
    ensures var s := Expand(weights, up)[at]; s < |weights| && up[s] && weights[s] > 0
  {
  }

  ghost function Nth(weights: seq<int>, up: seq<bool>, at: nat): (s: nat)
    requires |weights| == |up| && at < |Expand(weights, up)|
    ensures s < |weights| && up[s] && weights[s] > 0
  {
    MemberIsUp(weights, up, at);
    Expand(weights, up)[at]
  }

  lemma UpHasMember(weights: seq<int>, up: seq<bool>, s: nat)
    requires |weights| == |up| && s < |weights| && up[s] && weights[s] > 0
    ensures s in Expand(weights, up)
  {
    ExpandCount(weights, up, s);
    assert s in multiset(Expand(weights, up));
  }

  // ----- the passes -----

  method TotalWeight(weights: seq<int>, loads: Loads) returns (total: nat)
    ensures total == |Expand(weights, Seen(loads, Weighing, |weights|))|
  {
    ghost var up := Seen(loads, Weighing, |weights|);
    total := 0;
    for i := 0 to |weights|
      invariant total == |Expand(weights[..i], up[..i])|
    {
      ExpandStep(weights, up, i);
      if loads(Weighing, i) && weights[i] > 0 {
        total := total + weights[i];
      }
    }
    assert weights[..|weights|] == weights && up[..|weights|] == up;
  }

  ghost predicate IsFirstUp(up: seq<bool>, r: Option<nat>) {
    match r
    case None => forall i | 0 <= i < |up| :: !up[i]
    case Some(s) => s < |up| && up[s] && forall i | 0 <= i < s :: !up[i]
  }

  /** The element of the list walked at position idx, a negative idx counting as 0; past the end of
      that list, the first server the fallback pass finds healthy. */
  ghost predicate Walks(weights: seq<int>, loads: Loads, idx: int, r: Option<nat>) {
    var e := Expand(weights, Seen(loads, Walking, |weights|));
    if Max(idx, 0) < |e| then r == Some(e[Max(idx, 0)])
    else IsFirstUp(Seen(loads, FallingBack, |weights|), r)
  }

  /** The allocation-free walk finds the element of the expanded list at position idx; a negative idx
      counts as 0, and only an idx past the end of the list reaches the fallback pass. */
  method PickByWeightedIndex(weights: seq<int>, loads: Loads, idx: int) returns (r: Option<nat>)
    ensures Walks(weights, loads, idx, r)
  {
    ghost var up := Seen(loads, Walking, |weights|);
    ghost var e := Expand(weights, up);
    var left := idx;
    for i := 0 to |weights|
      invariant left + |Expand(weights[..i], up[..i])| == idx
      invariant idx < 0 ==> |Expand(weights[..i], up[..i])| == 0
      invariant idx >= 0 ==> left >= 0
    {
      ExpandStep(weights, up, i);
      ExpandPrefix(weights, up, i + 1);
      if loads(Walking, i) && weights[i] > 0 {
        if left < weights[i] {
          return Some(i);
        }
        left := left - weights[i];
      }
    }
    assert weights[..|weights|] == weights && up[..|weights|] == up;
    for i := 0 to |weights|
      invariant forall j | 0 <= j < i :: !loads(FallingBack, j)
    {
      if loads(FallingBack, i) {
        return Some(i);
      }
    }
    r := None;
  }

  /** conns(i, j) is the connection count of server j as loaded while server i is examined. */
  type ConnLoads = (nat, nat) -> int

  ghost predicate SteadyConns(conns: ConnLoads, counts: seq<int>) {
    forall i, j | 0 <= i < |counts| && 0 <= j < |counts| :: conns(i, j) == counts[j]
  }

  /** Server s is healthy and no healthy server has fewer connections; ties go to the earliest. */
  ghost predicate IsLeast(up: seq<bool>, counts: seq<int>, s: nat)
    requires |up| == |counts|
  {
    && s < |up| && up[s]
    && forall j | 0 <= j < |up| && up[j] :: counts[s] <= counts[j] && (j < s ==> counts[s] < counts[j])
  }

  method LeastConn(n: nat, loads: Loads, conns: ConnLoads, ghost counts: seq<int>) returns (best: Option<nat>)
    requires |counts| == n
    ensures best.None? <==> forall i | 0 <= i < n :: !loads(Walking, i)
    ensures best.Some? ==> best.value < n && loads(Walking, best.value)
    ensures best.Some? && SteadyConns(conns, counts) ==> IsLeast(Seen(loads, Walking, n), counts, best.value)
  {
    best := None;
    for i := 0 to n
      invariant best.None? <==> forall j | 0 <= j < i :: !loads(Walking, j)
      invariant best.Some? ==> best.value < i && loads(Walking, best.value)
      invariant best.Some? && SteadyConns(conns, counts) ==>
        forall j | 0 <= j < i && loads(Walking, j) ::
          counts[best.value] <= counts[j] && (j < best.value ==> counts[best.value] < counts[j])
    {
      if loads(Walking, i) {
        if best.None? || conns(i, i) < conns(i, best.value) {
          best := Some(i);
        }
      }
    }
  }

  // ----- the algorithms -----

  const TWO63: int := 0x8000_0000_0000_0000
  const TWO64: int := 0x1_0000_0000_0000_0000

  /** Go's conversion of a uint64 to a 64-bit int. */
  function ToInt64(u: nat): int {
    if u < TWO63 then u else u - TWO64
  }

  /** Go's remainder, which takes the sign of the dividend. */
  function GoRem(a: int, b: nat): int
    requires b > 0
  {
    if a >= 0 then a % b else -((-a) % b)
  }

  /** The position in the expanded list that an algorithm other than least_conn asks for. */
  function Position(algorithm: string, clientIP: seq<bv8>, rr: nat, draw: nat -> nat, total: nat): int
    requires total > 0
  {
    if algorithm == "random" then draw(total)
    else if algorithm == "hash" then (Fnv.Hash(clientIP) as int) % total
    else GoRem(ToInt64(rr), total)
  }

  predicate UsesCounter(algorithm: string) {
    algorithm !in {"least_conn", "random", "hash"}
  }

  ghost predicate FairDraw(draw: nat -> nat) {
    forall n: nat | n > 0 :: draw(n) < n
  }

  /** Pick's answer: the error of an unhealthy pool, or a server, which a race can make nil. */
  datatype Picked = NoHealthy | Chosen(server: Option<nat>)

  ghost predicate StaysHealthy(weights: seq<int>, loads: Loads, s: nat) {
    s < |weights| && weights[s] > 0 && loads(Weighing, s) && loads(Walking, s) && loads(FallingBack, s)
  }

  ghost predicate SteadyHealth(loads: Loads, up: seq<bool>) {
    forall pass, i: nat | i < |up| :: loads(pass, i) == up[i]
  }

  /** The list as the weighing pass sees it. */
  ghost function Weighed(weights: seq<int>, loads: Loads): seq<nat> {
    Expand(weights, Seen(loads, Weighing, |weights|))
  }

  /** What Pick returns once it has weighed something. */
  ghost predicate Answers(weights: seq<int>, algorithm: string, clientIP: seq<bv8>, rr: nat, draw: nat -> nat,
                          loads: Loads, server: Option<nat>)
    requires Weighed(weights, loads) != []
  {
    if algorithm == "least_conn" then
      if server.Some? then server.value < |weights| && loads(Walking, server.value)
      else forall i | 0 <= i < |weights| :: !loads(Walking, i)
    else Walks(weights, loads, Position(algorithm, clientIP, rr, draw, |Weighed(weights, loads)|), server)
  }

  /** When Pick returns a nil server and no error: something was weighed, but by the time it is looked
      for the list has become too short for the position asked for, and nothing is healthy any more. */
  ghost predicate NilAnswer(weights: seq<int>, algorithm: string, clientIP: seq<bv8>, rr: nat, draw: nat -> nat,
                            loads: Loads) {
    var e := Weighed(weights, loads);
    && e != []
    && if algorithm == "least_conn" then forall i | 0 <= i < |weights| :: !loads(Walking, i)
       else
         && Max(Position(algorithm, clientIP, rr, draw, |e|), 0) >= |Expand(weights, Seen(loads, Walking, |weights|))|
         && forall i | 0 <= i < |weights| :: !loads(FallingBack, i)
  }

  lemma AnswerIsNilIff(weights: seq<int>, algorithm: string, clientIP: seq<bv8>, rr: nat, draw: nat -> nat,
                       loads: Loads, server: Option<nat>)
    requires Weighed(weights, loads) != [] && Answers(weights, algorithm, clientIP, rr, draw, loads, server)
    ensures server.None? <==> NilAnswer(weights, algorithm, clientIP, rr, draw, loads)
  {
  }

  /** One server that stays up through the call is enough for a live answer. */
  lemma AnswerIsLive(weights: seq<int>, algorithm: string, clientIP: seq<bv8>, rr: nat, draw: nat -> nat,
                     loads: Loads, server: Option<nat>, s: nat)
    requires Weighed(weights, loads) != [] && Answers(weights, algorithm, clientIP, rr, draw, loads, server)
    requires StaysHealthy(weights, loads, s)
    ensures server.Some? && server.value < |weights|
    ensures loads(Walking, server.value) || loads(FallingBack, server.value)
  {
    if algorithm != "least_conn" {
      var walked := Seen(loads, Walking, |weights|);
      var at := Max(Position(algorithm, clientIP, rr, draw, |Weighed(weights, loads)|), 0);
      if at < |Expand(weights, walked)| {
        MemberIsUp(weights, walked, at);
      }
    }
  }

  lemma SteadyIsSeen(weights: seq<int>, loads: Loads, up: seq<bool>, pass: Pass)
    requires |up| == |weights| && SteadyHealth(loads, up)
    ensures Seen(loads, pass, |weights|) == up
  {
  }

  /** With health fixed the fallback is not reached: the answer is the list element asked for. */
  lemma AnswerIsSteady(weights: seq<int>, algorithm: string, clientIP: seq<bv8>, rr: nat, draw: nat -> nat,
                       loads: Loads, server: Option<nat>, up: seq<bool>)
    requires FairDraw(draw) && |up| == |weights| && SteadyHealth(loads, up)
    requires Weighed(weights, loads) != [] && Answers(weights, algorithm, clientIP, rr, draw, loads, server)
    ensures Expand(weights, up) != [] && server.Some? && server.value < |weights| && up[server.value]
    ensures algorithm != "least_conn" ==>
      var at := Max(Position(algorithm, clientIP, rr, draw, |Expand(weights, up)|), 0);
      at < |Expand(weights, up)| && server.value == Expand(weights, up)[at]
  {
    SteadyIsSeen(weights, loads, up, Weighing);
    SteadyIsSeen(weights, loads, up, Walking);
    if algorithm == "least_conn" {
      MemberIsUp(weights, up, 0);
    } else {
      MemberIsUp(weights, up, Max(Position(algorithm, clientIP, rr, draw, |Expand(weights, up)|), 0));
    }
  }

  /** Pick, with every load of health and of connection counts answered by the environment. */
  method PickAmong(weights: seq<int>, algorithm: string, clientIP: seq<bv8>, rr: nat,
                   draw: nat -> nat, loads: Loads, conns: ConnLoads, ghost counts: seq<int>)
    returns (r: Picked, next: nat)
    requires rr < TWO64 && FairDraw(draw) && |counts| == |weights|
    ensures r.NoHealthy? <==> Weighed(weights, loads) == []
    ensures r == Chosen(None) <==> NilAnswer(weights, algorithm, clientIP, rr, draw, loads)
    ensures next == if r.Chosen? && UsesCounter(algorithm) then (rr + 1) % TWO64 else rr
    // Health may flip anywhere in the call: AnswerIsLive and AnswerIsSteady say what follows.
    ensures r.Chosen? ==> Answers(weights, algorithm, clientIP, rr, draw, loads, r.server)
    ensures r.Chosen? && r.server.Some? && algorithm == "least_conn" && SteadyConns(conns, counts) ==>
      IsLeast(Seen(loads, Walking, |weights|), counts, r.server.value)
  {
    next := rr;
    var total := TotalWeight(weights, loads);
    if total == 0 {
      return NoHealthy, next;
    }
    var server: Option<nat>;
    if algorithm == "least_conn" {
      server := LeastConn(|weights|, loads, conns, counts);
    } else {
      if UsesCounter(algorithm) {
        next := (rr + 1) % TWO64;
      }
      server := PickByWeightedIndex(weights, loads, Position(algorithm, clientIP, rr, draw, total));
    }
    AnswerIsNilIff(weights, algorithm, clientIP, rr, draw, loads, server);
    r := Chosen(server);
  }

  /** Such a nil answer happens, for every algorithm: a pool of one server that turns unhealthy just
      after it was weighed. */
  lemma NilAnswerHappens(algorithm: string, clientIP: seq<bv8>, rr: nat, draw: nat -> nat)
    ensures NilAnswer([1], algorithm, clientIP, rr, draw, (pass: Pass, _: nat) => pass == Weighing)
  {
    var loads: Loads := (pass: Pass, _: nat) => pass == Weighing;
    UpHasMember([1], Seen(loads, Weighing, 1), 0);
    if Expand([1], Seen(loads, Walking, 1)) != [] {
      MemberIsUp([1], Seen(loads, Walking, 1), 0);
    }
  }

  // ----- hash -----

  lemma EvenRemainder(n: nat, m: nat)
    requires m > 0
    ensures (n % (2 * m)) % 2 == n % 2
  {
    var q, r := n / (2 * m), n % (2 * m);
    assert n == q * (2 * m) + r == 2 * (q * m) + r;
  }

  /** In a hash pool of even total weight a client's place in the list has the parity of its hash, so
      clients whose address bytes differ in parity never share a place, and of two places each gets its
      own. */
  lemma HashKeepsParity(clientIP: seq<bv8>, rr: nat, draw: nat -> nat, m: nat)
    requires m > 0
    ensures var at := Position("hash", clientIP, rr, draw, 2 * m);
      0 <= at < 2 * m && at % 2 == if Fnv.XorOf(clientIP) & 1 == 0 then 1 else 0
  {
    Fnv.HashParity(clientIP);
    EvenRemainder(Fnv.Hash(clientIP) as int, m);
  }

  // ----- round robin -----

  /** The server a round-robin Pick returns when the counter stands at rr. */
  ghost function RoundRobin(weights: seq<int>, up: seq<bool>, rr: nat): (s: nat)
    requires |weights| == |up| && Expand(weights, up) != [] && rr < TWO64
    ensures s < |weights| && up[s] && weights[s] > 0
  {
    Nth(weights, up, Max(GoRem(ToInt64(rr), |Expand(weights, up)|), 0))
  }

  lemma RemainderIs(x: nat, q: nat, n: nat, r: nat)
    requires r < n && x == q * n + r
    ensures x % n == r
  {
    var d := q - x / n;
    assert x == (x / n) * n + x % n;
    assert d * n == q * n - (x / n) * n;
    TimesAtLeast(d, n);
  }

  lemma TimesAtLeast(d: int, n: int)
    requires n >= 0
    ensures d >= 1 ==> d * n >= n
    ensures d <= -1 ==> d * n <= -n
  {
  }

  /** The wrapped index of a window that starts at c. */
  lemma WindowIndex(c: nat, i: nat, n: nat)
    requires i < n
    ensures (c + i) % n == if c % n + i < n then c % n + i else c % n + i - n
  {
    var q, d := c / n, c % n;
    assert c == q * n + d;
    if d + i < n {
      RemainderIs(c + i, q, n, d + i);
    } else {
      assert (q + 1) * n == q * n + n;
      RemainderIs(c + i, q + 1, n, d + i - n);
    }
  }

  ghost function Rotated(e: seq<nat>, c: nat): seq<nat>
    requires e != []
  {
    e[c % |e|..] + e[..c % |e|]
  }

  lemma RotationKeepsCounts(e: seq<nat>, c: nat)
    requires e != []
    ensures multiset(Rotated(e, c)) == multiset(e)
  {
    assert e == e[..c % |e|] + e[c % |e|..];
  }

  lemma RoundRobinAt(weights: seq<int>, up: seq<bool>, c: nat, i: nat)
    requires |weights| == |up| && i < |Expand(weights, up)| && c + i < TWO63
    ensures RoundRobin(weights, up, c + i) == Rotated(Expand(weights, up), c)[i]
  {
    WindowIndex(c, i, |Expand(weights, up)|);
  }

  /** The servers returned by k consecutive round-robin picks from counter value c. */
  ghost function Picks(weights: seq<int>, up: seq<bool>, c: nat, k: nat): (ps: seq<nat>)
    requires |weights| == |up| && Expand(weights, up) != [] && c + k <= TWO64
    ensures |ps| == k && forall i | 0 <= i < k :: ps[i] == RoundRobin(weights, up, c + i)
  {
    if k == 0 then [] else Picks(weights, up, c, k - 1) + [RoundRobin(weights, up, c + k - 1)]
  }

  /** Fairness: over any total-weight consecutive picks below 2^63, every server is returned exactly
      as often as its weight if it is healthy, and never otherwise. */
  lemma RoundRobinIsFair(weights: seq<int>, up: seq<bool>, c: nat, s: nat)
    requires |weights| == |up| && Expand(weights, up) != []
    requires c + |Expand(weights, up)| <= 0x8000_0000_0000_0000
    ensures multiset(Picks(weights, up, c, |Expand(weights, up)|))[s]
         == if s < |weights| && up[s] && weights[s] > 0 then weights[s] else 0
  {
    var e := Expand(weights, up);
    var picks := Picks(weights, up, c, |e|);
    forall i | 0 <= i < |e|
      ensures picks[i] == Rotated(e, c)[i]
    {
      RoundRobinAt(weights, up, c, i);
    }
    assert picks == Rotated(e, c);
    RotationKeepsCounts(e, c);
    ExpandCount(weights, up, s);
  }

  /** From 2^63 on the converted counter is negative, and every pick is the list's first server
      until the counter wraps. */
  lemma RoundRobinSticksPast63Bits(weights: seq<int>, up: seq<bool>, c: nat)
    requires |weights| == |up| && Expand(weights, up) != []
    requires 0x8000_0000_0000_0000 <= c < 0x1_0000_0000_0000_0000
    ensures RoundRobin(weights, up, c) == Expand(weights, up)[0]
  {
  }

  /** Every server stands in the picks as often as its share. */
  ghost predicate Fair(weights: seq<int>, up: seq<bool>, picks: seq<nat>)
    requires |weights| == |up|
  {
    forall s: nat | s < |weights| :: multiset(picks)[s] == Share(weights[s], up[s])
  }

  /** The picks are those due, except that x may stand in for some. */
  ghost predicate Overwrites(picks: seq<nat>, due: seq<nat>, x: nat) {
    |picks| == |due| && forall i | 0 <= i < |due| :: picks[i] == due[i] || picks[i] == x
  }

  /** Writing x over elements of a list raises its count of x unless they were x already. */
  lemma {:induction false} Overwriting(picks: seq<nat>, due: seq<nat>, x: nat)
    requires Overwrites(picks, due, x)
    ensures multiset(picks)[x] >= multiset(due)[x]
    ensures multiset(picks)[x] == multiset(due)[x] ==> picks == due
  {
    if due != [] {
      var n := |due| - 1;
      Overwriting(picks[..n], due[..n], x);
      assert picks == picks[..n] + [picks[n]] && due == due[..n] + [due[n]];
    }
  }

  lemma FairIffNothingLost(weights: seq<int>, up: seq<bool>, picks: seq<nat>, due: seq<nat>)
    requires |weights| == |up| && Expand(weights, up) != [] && multiset(due) == multiset(Expand(weights, up))
    requires Overwrites(picks, due, Expand(weights, up)[0])
    ensures Fair(weights, up, picks) <==> picks == due
  {
    forall s: nat
      ensures multiset(due)[s] == if s < |weights| then Share(weights[s], up[s]) else 0
    {
      ExpandCount(weights, up, s);
    }
    MemberIsUp(weights, up, 0);
    Overwriting(picks, due, Expand(weights, up)[0]);
  }

  /** A window of total-weight picks: its own element of the rotated list below 2^63, the list's first
      server from there on. */
  ghost predicate Window(picks: seq<nat>, e: seq<nat>, c: nat)
    requires e != [] && |picks| == |e|
  {
    forall i | 0 <= i < |e| :: picks[i] == if c + i < TWO63 then Rotated(e, c)[i] else e[0]
  }

  lemma PicksAreWindow(weights: seq<int>, up: seq<bool>, c: nat)
    requires |weights| == |up| && Expand(weights, up) != [] && c + |Expand(weights, up)| <= TWO64
    ensures Window(Picks(weights, up, c, |Expand(weights, up)|), Expand(weights, up), c)
  {
    var e := Expand(weights, up);
    forall i | 0 <= i < |e|
      ensures RoundRobin(weights, up, c + i) == if c + i < TWO63 then Rotated(e, c)[i] else e[0]
    {
      if c + i < TWO63 {
        RoundRobinAt(weights, up, c, i);
      } else {
        RoundRobinSticksPast63Bits(weights, up, c + i);
      }
    }
  }

  lemma WindowIsWhole(picks: seq<nat>, e: seq<nat>, c: nat)
    requires e != [] && |picks| == |e| && Window(picks, e, c)
    ensures picks == Rotated(e, c) <==> forall i | 0 <= i < |e| && c + i >= TWO63 :: Rotated(e, c)[i] == e[0]
  {
  }

  /** Fairness exactly: a window of total-weight picks is fair if and only if the picks it takes from
      2^63 on, all of which return the first server of the list, were due to that server anyway. */
  lemma FairIff(weights: seq<int>, up: seq<bool>, c: nat)
    requires |weights| == |up| && Expand(weights, up) != [] && c + |Expand(weights, up)| <= TWO64
    ensures var e := Expand(weights, up);
      Fair(weights, up, Picks(weights, up, c, |e|)) <==>
      forall i | 0 <= i < |e| && c + i >= TWO63 :: Rotated(e, c)[i] == e[0]
  {
    var e := Expand(weights, up);
    var picks := Picks(weights, up, c, |e|);
    RotationKeepsCounts(e, c);
    PicksAreWindow(weights, up, c);
    WindowIsWhole(picks, e, c);
    FairIffNothingLost(weights, up, picks, Rotated(e, c));
  }

  lemma PicksFromZero(weights: seq<int>, up: seq<bool>, m: nat)
    requires |weights| == |up| && Expand(weights, up) != [] && m <= |Expand(weights, up)| && m <= TWO63
    ensures Picks(weights, up, 0, m) == Expand(weights, up)[..m]
  {
    forall i | 0 <= i < m
      ensures Picks(weights, up, 0, m)[i] == Expand(weights, up)[i]
    {
      RoundRobinAt(weights, up, 0, i);
    }
  }

  lemma PicksPast63Bits(weights: seq<int>, up: seq<bool>, c: nat, k: nat)
    requires |weights| == |up| && Expand(weights, up) != [] && TWO63 <= c && c + k <= TWO64
    ensures Picks(weights, up, c, k) == seq(k, _ => Expand(weights, up)[0])
  {
  }

  lemma TailCounts(e: seq<nat>, m: nat)
    requires m <= |e|
    ensures multiset(e[m..] + e[..m]) == multiset(e)
    ensures e != [] ==> Overwrites(seq(|e| - m, _ => e[0]) + e[..m], e[m..] + e[..m], e[0])
  {
    assert e == e[..m] + e[m..];
  }

  lemma TailIsDue(e: seq<nat>, k: nat, m: nat)
    requires e != [] && k + m == |e|
    ensures seq(k, _ => e[0]) + e[..m] == e[m..] + e[..m] <==> forall i | m <= i < |e| :: e[i] == e[0]
  {
    var first := seq(k, _ => e[0]);
    if first + e[..m] == e[m..] + e[..m] {
      assert first == (first + e[..m])[..k] == (e[m..] + e[..m])[..k] == e[m..];
      assert forall i | m <= i < |e| :: e[i] == first[i - m];
    } else {
      assert first != e[m..];
      var i :| 0 <= i < k && first[i] != e[m..][i];
      assert e[m + i] != e[0];
    }
  }

  /** Likewise where the counter wraps inside the window: the picks before the wrap must have been due
      to the first server, those after it start the list afresh. */
  lemma FairAcrossWrapIff(weights: seq<int>, up: seq<bool>, c: nat, m: nat)
    requires |weights| == |up| && Expand(weights, up) != [] && |Expand(weights, up)| <= TWO63
    requires TWO63 <= c < TWO64 && c + |Expand(weights, up)| == TWO64 + m
    ensures var e := Expand(weights, up);
      Fair(weights, up, Picks(weights, up, c, TWO64 - c) + Picks(weights, up, 0, m)) <==>
      forall i | m <= i < |e| :: e[i] == e[0]
  {
    var e, k := Expand(weights, up), TWO64 - c;
    PicksFromZero(weights, up, m);
    PicksPast63Bits(weights, up, c, k);
    TailCounts(e, m);
    TailIsDue(e, k, m);
    var picks := Picks(weights, up, c, k) + Picks(weights, up, 0, m);
    assert picks == seq(|e| - m, _ => e[0]) + e[..m];
    FairIffNothingLost(weights, up, picks, e[m..] + e[..m]);
  }

  /** No server but s is healthy. */
  ghost predicate Sole(weights: seq<int>, up: seq<bool>, s: nat)
    requires |weights| == |up|
  {
    forall t: nat | t < |weights| && t != s :: Share(weights[t], up[t]) == 0
  }

  /** A rearranged list holds nothing but its first server if and only if no other is healthy. */
  lemma SoleIff(weights: seq<int>, up: seq<bool>, r: seq<nat>)
    requires |weights| == |up| && Expand(weights, up) != [] && multiset(r) == multiset(Expand(weights, up))
    ensures (forall i | 0 <= i < |r| :: r[i] == Expand(weights, up)[0]) <==> Sole(weights, up, Expand(weights, up)[0])
  {
    var e := Expand(weights, up);
    if Sole(weights, up, e[0]) {
      forall i | 0 <= i < |r|
        ensures r[i] == e[0]
      {
        assert r[i] in multiset(e);
        var j :| 0 <= j < |e| && e[j] == r[i];
        MemberIsUp(weights, up, j);
      }
    } else {
      var t: nat :| t < |weights| && t != e[0] && Share(weights[t], up[t]) != 0;
      UpHasMember(weights, up, t);
      assert t in multiset(r);
    }
  }

  /** So a window wholly past 2^63 is fair if and only if the first healthy server is the only one. */
  lemma FairPast63BitsIff(weights: seq<int>, up: seq<bool>, c: nat)
    requires |weights| == |up| && Expand(weights, up) != []
    requires TWO63 <= c && c + |Expand(weights, up)| <= TWO64
    ensures Fair(weights, up, Picks(weights, up, c, |Expand(weights, up)|)) <==> Sole(weights, up, Nth(weights, up, 0))
  {
    var e := Expand(weights, up);
    FairIff(weights, up, c);
    RotationKeepsCounts(e, c);
    SoleIff(weights, up, Rotated(e, c));
  }

  // ----- the pool object -----

  class Server {
    const address: string
    const weight: int
    var healthy: bool
    var connCount: int

    constructor (address: string, weight: int)
      ensures this.address == address && this.weight == weight && healthy && connCount == 0
    {
      this.address, this.weight, healthy, connCount := address, weight, true, 0;
    }
  }

  datatype ServerConfig = ServerConfig(address: string, weight: int)

  /** The servers are those configured, in order, new, healthy and idle. */
  ghost predicate Built(cfg: seq<ServerConfig>, servers: seq<Server>)
    reads servers
  {
    && |servers| == |cfg|
    && (forall i | 0 <= i < |cfg| ::
          && servers[i].address == cfg[i].address && servers[i].weight == cfg[i].weight
          && servers[i].healthy && servers[i].connCount == 0)
    && forall i, j | 0 <= i < j < |cfg| :: servers[i] != servers[j]
  }

  /** The last server of a list with an address. */
  ghost function Last(servers: seq<Server>, address: string): Option<Server> {
    if servers == [] then None
    else
      var n := |servers| - 1;
      if servers[n].address == address then Some(servers[n]) else Last(servers[..n], address)
  }

  /** The map finds, under each address, the last server configured with it. */
  ghost predicate Indexed(servers: seq<Server>, serverMap: map<string, Server>) {
    forall a :: Last(servers, a) == if a in serverMap then Some(serverMap[a]) else None
  }

  class Pool {
    const servers: seq<Server>
    const serverMap: map<string, Server>
    const algorithm: string
    var rrIndex: nat

    constructor (servers: seq<Server>, serverMap: map<string, Server>, algorithm: string)
      ensures this.servers == servers && this.serverMap == serverMap && this.algorithm == algorithm && rrIndex == 0
    {
      this.servers, this.serverMap, this.algorithm, rrIndex := servers, serverMap, algorithm, 0;
    }

    function Weights(): (ws: seq<int>)
      ensures |ws| == |servers|
    {
      seq(|servers|, i requires 0 <= i < |servers| => servers[i].weight)
    }

    function Health(): (up: seq<bool>)
      reads servers
      ensures |up| == |servers|
    {
      seq(|servers|, i requires 0 <= i < |servers| reads servers => servers[i].healthy)
    }

    function Conns(): (counts: seq<int>)
      reads servers
      ensures |counts| == |servers|
    {
      seq(|servers|, i requires 0 <= i < |servers| reads servers => servers[i].connCount)
    }

    /** What an undisturbed Pick returns: nothing exactly when no server is healthy, else what the
        algorithm asks for. */
    ghost predicate Offers(clientIP: seq<bv8>, draw: nat -> nat, rr: nat, s: Option<nat>)
      requires rr < TWO64 && FairDraw(draw)
      reads servers
    {
      var weights, up := Weights(), Health();
      var total := |Expand(weights, up)|;
      match s
      case None => total == 0
      case Some(k) =>
        && total > 0
        && if algorithm == "least_conn" then IsLeast(up, Conns(), k)
           else if algorithm == "random" then k == Nth(weights, up, draw(total))
           else if algorithm == "hash" then k == Nth(weights, up, (Fnv.Hash(clientIP) as int) % total)
           else k == RoundRobin(weights, up, rr)
    }

    /** The choice of an undisturbed Pick, and the counter after it. */
    method Choose(clientIP: seq<bv8>, draw: nat -> nat) returns (s: Option<nat>, next: nat)
      requires rrIndex < TWO64 && FairDraw(draw)
      ensures Offers(clientIP, draw, rrIndex, s) && (s.Some? ==> s.value < |servers|)
      ensures next == if s.Some? && UsesCounter(algorithm) then (rrIndex + 1) % TWO64 else rrIndex
    {
      var weights, up, counts := Weights(), Health(), Conns();
      var loads: Loads := (_: Pass, i: nat) => i < |up| && up[i];
      var conns: ConnLoads := (_: nat, j: nat) => if j < |counts| then counts[j] else 0;
      var r;
      r, next := PickAmong(weights, algorithm, clientIP, rrIndex, draw, loads, conns, counts);
      SteadyIsSeen(weights, loads, up, Weighing);
      SteadyIsSeen(weights, loads, up, Walking);
      if r.NoHealthy? {
        return None, next;
      }
      AnswerIsSteady(weights, algorithm, clientIP, rrIndex, draw, loads, r.server, up);
      s := r.server;
    }

    /** Pick undisturbed by health changes. */
    method Pick(clientIP: seq<bv8>, draw: nat -> nat) returns (s: Option<Server>)
      requires rrIndex < TWO64 && FairDraw(draw)
      modifies this`rrIndex
      ensures rrIndex == if s.Some? && UsesCounter(algorithm) then (old(rrIndex) + 1) % TWO64 else old(rrIndex)
      ensures s.None? ==> Offers(clientIP, draw, old(rrIndex), None)
      ensures s.Some? ==>
        exists k: nat :: Offers(clientIP, draw, old(rrIndex), Some(k)) && k < |servers| && s.value == servers[k]
    {
      var k, next := Choose(clientIP, draw);
      rrIndex := next;
      if k.None? {
        return None;
      }
      s := Some(servers[k.value]);
    }

    /** The health of the server of an address, and of no other, is set. */
    method SetHealthy(address: string, up: bool)
      modifies serverMap.Values`healthy
      ensures forall s | s in serverMap.Values ::
        s.healthy == if address in serverMap && s == serverMap[address] then up else old(s.healthy)
    {
      if address in serverMap {
        serverMap[address].healthy := up;
      }
    }
  }

  lemma IndexNext(servers: seq<Server>, serverMap: map<string, Server>, s: Server)
    requires Indexed(servers, serverMap)
    ensures Indexed(servers + [s], serverMap[s.address := s])
  {
    assert (servers + [s])[..|servers|] == servers;
  }

  lemma BuildNext(cfg: seq<ServerConfig>, servers: seq<Server>, i: nat, s: Server)
    requires i < |cfg| && Built(cfg[..i], servers) && s !in servers
    requires s.address == cfg[i].address && s.weight == cfg[i].weight && s.healthy && s.connCount == 0
    ensures Built(cfg[..i + 1], servers + [s])
  {
  }

  /** A pool of the configured servers, or none if an address does not resolve. */
  method NewPool(cfg: seq<ServerConfig>, algorithm: string, resolves: string -> bool) returns (p: Pool?)
    ensures p == null <==> exists i :: 0 <= i < |cfg| && !resolves(cfg[i].address)
    ensures p != null ==>
      && fresh(p) && fresh(p.servers) && p.algorithm == algorithm && p.rrIndex == 0
      && Built(cfg, p.servers) && Indexed(p.servers, p.serverMap)
  {
    var servers: seq<Server>, serverMap: map<string, Server> := [], map[];
    for i := 0 to |cfg|
      invariant forall j | 0 <= j < i :: resolves(cfg[j].address)
      invariant fresh(servers) && Built(cfg[..i], servers) && Indexed(servers, serverMap)
    {
      if !resolves(cfg[i].address) {
        return null;
      }
      var s := new Server(cfg[i].address, cfg[i].weight);
      IndexNext(servers, serverMap, s);
      BuildNext(cfg, servers, i, s);
      servers, serverMap := servers + [s], serverMap[cfg[i].address := s];
    }
    p := new Pool(servers, serverMap, algorithm);
  }

  /** With distinct addresses every server is found under its own. */
  lemma {:induction false} DistinctAreFound(servers: seq<Server>, i: nat)
    requires i < |servers| && forall j, k | 0 <= j < k < |servers| :: servers[j].address != servers[k].address
    ensures Last(servers, servers[i].address) == Some(servers[i])
  {
    if i < |servers| - 1 {
      DistinctAreFound(servers[..|servers| - 1], i);
    }
  }
}
