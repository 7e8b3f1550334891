# light-udp-proxy, verified

A Dafny model of the packet path of light-udp-proxy, a UDP proxy written in Go, with proofs about
every run of it. Nothing here executes the proxy.

A client's packet is read by a reader goroutine, judged by token buckets, by a per-client limiter and
by an abuse protector, tested against the session cap, queued, and taken up by a forwarding worker.
The worker finds or creates the client's session, picks a backend server, queues a pending route for
the reply, and sends. A backend reader hands each reply to the client of the oldest pending route. A
reaper evicts idle sessions.

| file | what it models |
|---|---|
| `Basics.dfy`, `Bits.dfy`, `Fnv.dfy` | time, addresses, finite sums; bit patterns as numbers; the FNV-1a hash |
| `Backend.dfy` | server selection of a pool: the weighted index walk, round robin, least connections |
| `Shaping.dfy` | the token bucket and its exact admission law |
| `ClientLimiting.dfy` | the per-client limiter and its forgetting cache |
| `Sweeping.dfy`, `Lapses.dfy` | when a striped per-client table is swept and whom it forgets, from its calls alone; what the limiter then answers |
| `Forgetting.dfy`, `Pacing.dfy`, `Visibility.dfy` | exactly when that forgetting shows: a client's calls as one bucket's stream; streams that empty a burst to the last byte; the condition |
| `Abuse.dfy`, `Ports.dfy` | the abuse protector: its operations and packet window; the port set |
| `Routes.dfy`, `Replies.dfy` | pending routes; which client a reply reaches |
| `Sharding.dfy` | 256 stripes as one plain map |
| `Proxy.dfy` | sessions and connection counts, one operation at a time |
| `ConnSteps.dfy` | connection counts under every interleaving of atomic loads, stores and additions |
| `TableSteps.dfy`, `SessionCap.dfy` | the session table, and the session cap, under every interleaving |
| `Overshoot.dfy` | runs that reach the overshoot bound of the session cap |
| `PacketPath.dfy` | buffers and counters under every interleaving |

How to read it. Objects the proxy updates in place are classes; each method is tied to a function on
values, and the theorems are about those functions over whole runs. Code whose interest is
concurrency is a machine of labelled atomic steps, and the theorems hold of every sequence of enabled
steps. Time is an argument (nanoseconds since the epoch), tokens are reals, random draws, socket
outcomes and health changes are chosen by the environment, and an eviction callback is kept as data:
the server it lowers.

What is assumed, beyond what each `requires` says:

- Server addresses are distinct within a pool (`internal/config/config.go:239-243` does not enforce it).
- The theorems of `Proxy.dfy` take `forward`, a deletion and a sweep as one step each. `ConnSteps.dfy`
  drops that: it splits them at every atomic operation and says what the counts are then.
- `RepliesReachTheirClients` is about runs in which the requests of one backend go out in the order they
  were queued and the backend answers each once, in order, within 30 s. `ReplyIsRightIff` makes no such
  assumption.
- One frontend uses the session table in `SessionCap.dfy` and `Overshoot.dfy`; the proxy shares one table
  among all of them (`internal/proxy/proxy.go:93`, `:174`).
- The comparison of the per-client limiter with full memory, and the law of the protector's port set, are about
  runs that carry clock values in order. `AnswersSinceForgotten` and `RateCountsStreaks` are not.
- A new per-client bucket is created at the instant of the call that creates it.

Findings about the code as it stands:

- The per-client limiter forgets a client that pauses for its time-to-live and more, and lets it start
  afresh. For datagrams up to the size limit of the packet path this never changes an answer if and only
  if, within the time-to-live plus one nanosecond, the packet burst refills and the byte burst does too,
  or else datagrams of that size can never outrun the byte rate (`InvisibleIff`). Nothing in the
  configuration enforces it.
- A worker that reads the clock before another takes the lock can leave expired routes stored behind an
  unexpired one (`PruneIsExactIff`, `LateLockLeavesExpired`). They then count towards the 1024 that refuse
  a packet (`RefusedIffFull`), but are never delivered.
- A reader whose clock value lags across the edge of a second restarts the abuse protector's count:
  twice the limit can be admitted in one second (`RateCountsStreaks`, `StragglersDouble`).
- The abuse protector's session limit counts ports that have been idle for up to nearly twice the
  time-to-live, depending on when the last sweep fell: an address with two ports in use can be refused
  under a limit of two (`PortsAreExact`, `OldPortIsCounted`).
- `Pick` can return a nil server and no error, for every algorithm, when servers turn unhealthy between
  its passes (`PickAmong` says exactly when; `NilAnswerHappens` gives one). `forward` then dereferences
  nil (`internal/frontend/frontend.go:416`, `:448`, `:463`).
- Connection counts drift. With one worker inside a session's window at a time they are exact
  (`ExactWithoutOverlap`); otherwise they end off by exactly the skew of the stores (`MiscountIsSkew`).
  Two workers that both find a session's server unhealthy leave that server one short
  (`RacingMoves`), and a session reaped between its insertion and its wiring leaves its server one over,
  as often as that happens (`LeaksAddUp`).
- The session cap is soft: whenever there is a worker and a reader it can be exceeded
  (`CapIsExceededIff`), by an amount that depends only on the number of workers and is reached
  (`ConfiguredOvershoot`, `ConfiguredIsReached`).
- Two workers that send to one backend in the other order than they queued are enough for a reply to go
  to the wrong client (`OvertakingIsMisheard`).
- Round robin converts a 64-bit counter to a signed integer; from 2^63 on every pick is the first
  server of the list, so a window of picks that reaches there is fair if and only if that server was due
  anyway (`FairIff`, `FairAcrossWrapIff`, `FairPast63BitsIff`).

## Model

| member | source | states |
|---|---|---|
| Fnv.Continue | internal/backend/backend.go:161-172 | the byte loop computes FNV-1a continued from any accumulator |
| Fnv.PublishedValues | internal/backend/backend.go:161-172 | the hashes of the empty string, of "a" and of "foobar" are the published FNV-1a values |
| Fnv.LowestBit | internal/backend/backend.go:161-172 | the lowest bit of the hash is 1 xor the lowest bits of all bytes |
| Fnv.OneByteShows | internal/backend/backend.go:161-172 | strings of equal length that differ in one byte differ in the low byte of their hashes |
| Fnv.FromConcat | internal/session/session.go:145-162 | hashing address, port and name one after the other is hashing their concatenation |
| Sharding.ComputeShard | internal/session/session.go:140-164 | the three loops give the stripe of the key: one hash of all its bytes, modulo 256 |
| Sharding.StripesApart | internal/session/session.go:140-164 | keys that differ in one byte of address, port or frontend name live in different stripes |
| Basics.ShareStripeIff | internal/abuse/abuse.go:61-61 | two addresses share a stripe of a per-client table if and only if the low six bits of their last two bytes, combined, agree |
| Basics.UnixIff | internal/abuse/abuse.go:63-63 | the second of an instant, in nanoseconds, before the epoch as after it |
| Backend.ExpandCount | internal/backend/backend.go:174-176 | the weight-expanded list holds each healthy server exactly weight times and nothing else |
| Backend.TotalWeight | internal/backend/backend.go:130-136 | the weighing pass returns the length of the expanded list for the health it saw |
| Backend.PickByWeightedIndex | internal/backend/backend.go:177-196 | for any health seen, any list and any index, the walk returns the list element at that index (a negative one counting as 0), and only an index past the end reaches the fallback, which returns the first healthy server |
| Backend.LeastConn | internal/backend/backend.go:203-214 | nil exactly when no server was seen healthy; with steady counts a healthy server with fewest connections, the earliest of equals |
| Backend.PickAmong | internal/backend/backend.go:129-158 | for every algorithm, with health flipping between any two loads: an error exactly when nothing healthy was weighed; a nil server and no error exactly when something was weighed, the position asked for lies past the list as walked and nothing is healthy any more; otherwise the list element walked to, the first healthy server of the fallback, or the least loaded server |
| Backend.AnswerIsLive | internal/backend/backend.go:177-214 | one server that stays healthy through the call guarantees an answer, which was healthy when inspected |
| Backend.AnswerIsSteady | internal/backend/backend.go:138-158 | with health fixed the fallback is not reached and the answer is the list element asked for, or a healthy server |
| Backend.NilAnswerHappens | internal/backend/backend.go:129-196 | for every algorithm a pool of one server that turns unhealthy just after it was weighed yields a nil server and no error |
| Backend.NewPool | internal/backend/backend.go:57-76 | no pool exactly when an address does not resolve; otherwise the configured servers in order, new, healthy and idle, the counter at 0, and a map that finds the last server configured under each address |
| Backend.DistinctAreFound | internal/backend/backend.go:72-74 | with distinct addresses every server is found under its own |
| Backend.Pool.SetHealthy | internal/backend/backend.go:216-231 | the health of the server found under the address, and of no other, is set |
| Backend.Pool.Pick | internal/backend/backend.go:129-158 | on the object, undisturbed: nothing exactly when no server is healthy, else the server each algorithm asks for, the counter advancing by one only when it is used, and nothing else changing |
| Backend.HashKeepsParity | internal/backend/backend.go:149-153 | in a hash pool of even total weight a client's place has the parity of its address bytes, so clients of different parity never share one |
| Backend.RoundRobinIsFair | internal/backend/backend.go:142-144 | any total-weight consecutive picks below 2^63 return each healthy server exactly weight times and no other |
| Backend.RoundRobinSticksPast63Bits | internal/backend/backend.go:142-144 | from 2^63 up to the wrap every pick is the first list element |
| Backend.FairIff | internal/backend/backend.go:142-144 | any window of total-weight picks up to the wrap is fair if and only if each pick it takes from 2^63 on was due to the first list element anyway |
| Backend.FairAcrossWrapIff | internal/backend/backend.go:142-144 | a window in which the counter wraps is fair if and only if the part of the list it skips belongs to the first server |
| Backend.FairPast63BitsIff | internal/backend/backend.go:142-144 | a window wholly past 2^63 is fair if and only if the first healthy server is the only one |
| Shaping.Normalize | internal/shaping/shaping.go:20-31 | rates and positive bursts are kept, a missing burst becomes one second of its rate, and any enabled dimension enables shaping |
| Shaping.NormalizeOnce | internal/shaping/shaping.go:118-136 | normalising limits that are already normalised changes nothing, so the limiter and its buckets agree on them |
| Shaping.NewBucket | internal/shaping/shaping.go:43-56 | no bucket exactly when shaping is disabled; otherwise a full one |
| Shaping.Bucket.Allow | internal/shaping/shaping.go:59-96 | the statements of Allow are refill, test and spend as specified, on every clock value |
| Shaping.GainPerSecond | internal/shaping/shaping.go:66-74 | what a rate earns in whole seconds and in nanoseconds |
| Shaping.Stream.LevelIsLeastSlack | internal/shaping/shaping.go:66-81 | the level at a call is the least slack, over all windows ending there, below burst + rate * time |
| Shaping.Stream.TokensAreLevels | internal/shaping/shaping.go:66-81 | the bucket's tokens are those levels and its refill time is the latest clock value seen |
| Shaping.Stream.BucketLaw | internal/shaping/shaping.go:59-96 | for any clock sequence, even running backwards, a call is admitted if and only if admitting it keeps every window ending in it under the curve in every enabled dimension |
| Shaping.Stream.EveryWindowIsBounded | internal/shaping/shaping.go:59-96 | no run of consecutive calls is charged more than burst + rate * its duration |
| Shaping.Stream.ConformingIsNeverDenied | internal/shaping/shaping.go:59-96 | a stream that keeps to the curve is never denied |
| ClientLimiting.NewClientLimiter | internal/shaping/shaping.go:118-136 | no limiter exactly when nothing is limited or enabled; otherwise one with normalised limits, the given time-to-live or two minutes, and nothing cached |
| ClientLimiting.ClientLimiter.constructor | internal/shaping/shaping.go:118-136 | limits normalised, a missing time-to-live replaced by two minutes, all shards empty |
| ClientLimiting.ClientLimiter.Allow | internal/shaping/shaping.go:139-167 | find or create, touch, sweep if due, then judge, as specified |
| ClientLimiting.StepKeepsInStep | internal/shaping/shaping.go:139-167 | one call keeps the sweeping cache in step with a memory that never forgets, and both answer alike |
| ClientLimiting.ForgettingIsInvisible | internal/shaping/shaping.go:139-167 | under the refill condition every answer of every ordered run is the one full memory gives |
| Lapses.AnswersSinceForgotten | internal/shaping/shaping.go:139-167 | every answer of every run, whatever the clock does, is that of a bucket full at the client's first call since it was last forgotten, which has judged its calls since; a client is forgotten exactly by a sweep of its stripe, due a time-to-live after the last one there, that finds it idle since the cutoff |
| Forgetting.SecondTimeIsDenied | internal/shaping/shaping.go:59-96 | calls that a full bucket admits and that empty one dimension exactly cannot all be admitted again after a pause too short to refill it |
| Forgetting.ScriptShows | internal/shaping/shaping.go:139-167 | playing such calls before and after a pause in which another client's call sweeps the first one out gives a run that full memory answers differently |
| Pacing.OneByOne | internal/shaping/shaping.go:66-96 | with a packet burst of one, datagrams a fixed gap apart that carry more than the gap restores empty a full byte burst exactly and are all admitted |
| Pacing.Evenly | internal/shaping/shaping.go:66-96 | with a packet burst of two or more, datagrams sent evenly at a packet rate that outruns the byte rate do the same, each at a whole nanosecond |
| Visibility.AnswersAlike | internal/shaping/shaping.go:83-96 | where datagrams can never outrun the byte rate every answer is the one that limiting packets alone would give |
| Visibility.Invisible | internal/shaping/shaping.go:139-167 | under the condition every answer to every ordered run of datagrams up to the size limit is the one full memory gives |
| Visibility.InvisibleIff | internal/frontend/frontend.go:312-324 | from any time on, for datagrams up to a size limit, all answers agree if and only if the packet burst refills within the time-to-live plus 1 ns and the byte burst does too, or datagrams of that size never outrun the byte rate |
| Visibility.AnySizeIff | internal/shaping/shaping.go:139-167 | for calls of any size all answers agree if and only if each enabled burst refills within the time-to-live plus 1 ns |
| Visibility.LargeBurstUnseen | internal/shaping/shaping.go:139-167 | an instance: a byte burst that takes hours to refill goes unseen behind one packet per second of at most 1500 bytes |
| ClientLimiting.IdleAreForgotten | internal/shaping/shaping.go:154-162 | after any call every client left in that shard was seen within about twice the time-to-live |
| Abuse.NewProtector | internal/abuse/abuse.go:38-53 | no protector exactly when disabled; otherwise the given limits, a missing time-to-live replaced by one minute, all shards empty |
| Abuse.Protector.SweepEntrySessions | internal/abuse/abuse.go:116-123 | the loop keeps exactly the ports stamped at the cutoff or later |
| Abuse.Protector.SweepEntries | internal/abuse/abuse.go:125-134 | the loop keeps exactly the entries seen since the cutoff, with their old ports swept |
| Abuse.Protector.SweepIfDue | internal/abuse/abuse.go:109-112 | the shard is swept when its last sweep is a time-to-live old and left alone otherwise |
| Abuse.Protector.Allow | internal/abuse/abuse.go:56-114 | count, record, judge and sweep as specified, on every exit |
| Abuse.RateCountsStreaks | internal/abuse/abuse.go:77-91 | where no clock value lags more than the time-to-live behind an earlier one, a call is refused for rate if and only if its address has made more than the allowed calls since it last called in another second, whatever was swept |
| Abuse.StragglersDouble | internal/abuse/abuse.go:78-82 | for every limit, a run with a lag of one nanosecond in which twice the limit is admitted in one second |
| Abuse.RateIsExact | internal/abuse/abuse.go:77-91 | on every ordered run a call is refused for rate if and only if its address has by then made more than the allowed calls in that second, whatever was swept |
| Abuse.SecondIsCapped | internal/abuse/abuse.go:78-91 | on every ordered run at most the limit is admitted per address and second, and exactly min(arrivals, limit) without a session limit |
| Ports.PortsAreExact | internal/abuse/abuse.go:77-134 | on every ordered run the verdict on every call, told from the calls alone: too many calls in its second, or too many ports recorded since the cutoff of the last sweep, which is the address's own, due at the first check a time-to-live after the last, or its stripe's |
| Ports.OldPortIsCounted | internal/abuse/abuse.go:93-107 | for every time-to-live of two seconds or more, a run in which an address with two ports recorded within it is refused under a limit of two |
| Ports.PortSandwich | internal/abuse/abuse.go:93-134 | so at every session check of every ordered run the port set contains every port recorded within the time-to-live and only ports recorded within about twice that; a pass bounds the recent ports, a session refusal exhibits too many |
| Ports.WholeSecondBounds | internal/abuse/abuse.go:64-64 | for a time-to-live of T whole seconds those bounds are T seconds and less than 2T seconds |
| Abuse.IdleAreForgotten | internal/abuse/abuse.go:125-134 | after any call every address left in that shard was seen within about twice the time-to-live |
| Routes.PruneExpired | internal/frontend/frontend.go:623-633 | the loop cuts the longest expired prefix |
| Routes.PendingRoutes.constructor | internal/frontend/frontend.go:130-130 | no queues and no id issued |
| Routes.PendingRoutes.EnqueuePending | internal/frontend/frontend.go:566-584 | prune, refuse at 1024, else append under the next id |
| Routes.PendingRoutes.CancelPending | internal/frontend/frontend.go:586-602 | prune, splice out the route with the id if present, drop an empty queue |
| Routes.PendingRoutes.DequeuePending | internal/frontend/frontend.go:604-621 | prune, take the head, drop an empty queue |
| Routes.StepKeepsSound | internal/frontend/frontend.go:566-633 | each operation keeps the ledger of ids and queues sound, and an id that has met its end keeps it |
| Routes.EveryRunIsSound | internal/frontend/frontend.go:566-633 | on every run: stored queues non-empty with at most 1024 routes and rising ids, every issued id with exactly one fate among pending, delivered, cancelled and expired, deliveries per backend in enqueue order |
| Routes.IdsAreUnique | internal/frontend/frontend.go:575-582 | no id stands in two queues or twice in one |
| Routes.PruneIsExactIff | internal/frontend/frontend.go:623-633 | pruning a queue removes the expired routes, all of them and nothing else, if and only if none stands behind an unexpired one |
| Routes.PruneIsExact | internal/frontend/frontend.go:623-633 | on every run whose queue times follow lock order that is so |
| Routes.LateLockLeavesExpired | internal/frontend/frontend.go:566-584 | a run whose queue times do not, in which pruning leaves an expired route behind an unexpired one |
| Routes.DeliveredIsFresh | internal/frontend/frontend.go:604-621 | in any state no delivered route is older than 30 s |
| Routes.ReplyTakesOldestLive | internal/frontend/frontend.go:604-621 | on every run, whatever the backends and the clocks do, a reply takes a route if and only if it is pending, for at most 30 s, and every earlier one still pending there has been so for longer |
| Routes.RefusedIffFull | internal/frontend/frontend.go:566-584 | on every run a packet is refused a route if and only if 1024 are stored for that backend, the first of them for at most 30 s |
| Routes.RefusedIffAllLive | internal/frontend/frontend.go:566-584 | where queue times follow lock order, if and only if 1024 unexpired ones are pending |
| Replies.ReplyIsRightIff | internal/frontend/frontend.go:477-559 | with workers sending and backends answering in any order, not at all, or unasked, and clocks read in any order, a reply takes the route of the request it answers if and only if that route is pending, for at most 30 s, and every earlier one still pending there has been so for longer |
| Replies.OvertakingIsMisheard | internal/frontend/frontend.go:477-499 | a run in which two workers send in the other order than they queued, and the backend's first reply goes to the other client |
| Replies.StepKeepsMatched | internal/frontend/frontend.go:477-499 | in order, queueing, sending, aborting and answering keep each backend's queue equal to its unanswered, then unsent, requests |
| Replies.RepliesReachTheirClients | internal/frontend/frontend.go:531-559 | on every run whose sends and answers are in order every reply goes to the client, and the socket, of the request it answers, whatever is refused or aborted in between |
| Sharding.PutIsPut | internal/session/session.go:203-203 | an insertion into the key's stripe is an insertion into the plain map, and keys stay in their own stripes |
| Sharding.DropIsDrop | internal/session/session.go:216-216 | likewise for a deletion |
| Sharding.SizeIsCount | internal/session/session.go:109-117 | the stripe sizes add up to the size of the plain map |
| Proxy.NewTable | internal/session/session.go:120-131 | an empty table whose stripes are the hash's |
| Proxy.Table.Len | internal/session/session.go:226-228 | without interference Len is the number of sessions |
| Proxy.Table.Get | internal/session/session.go:168-174 | the session stored under the key, or nil |
| Proxy.Table.GetOrCreate | internal/session/session.go:179-208 | the existing session, or the new one stored and counted, or nil when none could be made; created exactly in the second case |
| Proxy.Table.Commit | internal/session/session.go:72-82 | a session is rebound, with the counts that go with it, and nothing else changes |
| Proxy.Table.Delete | internal/session/session.go:211-223 | the session goes, the counter drops, its callback runs once |
| Proxy.Table.SweepEntries | internal/session/session.go:287-299 | a stripe loses exactly its stale sessions, the counter drops by their number, and their callbacks are collected, each once |
| Proxy.Table.RunAll | internal/session/session.go:301-303 | the collected callbacks lower each server once per callback naming it |
| Proxy.Table.EvictBefore | internal/session/session.go:283-304 | over all stripes exactly the sessions last seen before the cutoff go, the counter drops by their number and each one's current callback runs exactly once |
| Proxy.Table.EvictExpired | internal/session/session.go:278-305 | a session survives if and only if it was seen within the timeout, with its binding as it was; each other one's callback runs exactly once |
| Proxy.StaleAreEvicted | internal/session/session.go:279-290 | likewise on the plain map |
| Proxy.Table.Settle | internal/frontend/frontend.go:423-451 | wiring a new session to its server's count, and moving one whose server is down |
| Proxy.Table.ForwardSticky | internal/frontend/frontend.go:408-451 | the sticky path, statement by statement, is the specified step |
| Proxy.Table.ForwardLoose | internal/frontend/frontend.go:452-474 | likewise the path without affinity |
| Proxy.Table.Forward | internal/frontend/frontend.go:399-475 | forward up to the choice of server is the specified step |
| Proxy.ForwardGoesWhereDue | internal/frontend/frontend.go:408-459 | a packet goes to the first pick without affinity or without a session, else to its own server while that serves, else to the second pick; it is refused if and only if the pick it needs found nothing |
| Proxy.ForwardMovesCounts | internal/frontend/frontend.go:423-451 | with affinity the count of the server a client comes to rises by one and that of the server it leaves falls by one; no other count changes, and none without affinity |
| Proxy.ForwardLeavesSession | internal/frontend/frontend.go:408-474 | the session a packet leaves is bound to where it went, seen now, with a callback for that server if it is new or moved; no other session is touched |
| Proxy.ForwardGoesToServing | internal/frontend/frontend.go:434-454 | a packet goes to a healthy server of the pool |
| Proxy.ClientKeepsItsServer | internal/frontend/frontend.go:432-451 | on every run, while nothing removes a client's session or takes its server down, every packet of it goes to that server |
| Proxy.SteadyPickIsValid | internal/backend/backend.go:129-158 | the answer of a Pick on a pool's servers as they stand is not nil and is a healthy server of that pool |
| Proxy.Table.PickServer | internal/backend/backend.go:129-158 | Pick run on the table's own health and counts returns a valid pick, none exactly when nothing weighs in, and for least connections the earliest minimum |
| Proxy.StepConserves | internal/frontend/frontend.go:408-451 | every forward, deletion, sweep and health change, each taken whole, keeps the counts equal to the sessions that would lower them, and every session wired to its own server |
| Proxy.CountsAreLiveSessions | internal/frontend/frontend.go:408-451 | on every run of whole operations each server's count is the number of live sticky sessions bound to it, and each such session's callback lowers exactly that server |
| Proxy.LeastConnHasFewestSessions | internal/backend/backend.go:198-214 | in every state such a run reaches a least-connections pick is a healthy server of the pool, and none of the pool's healthy servers has fewer live sticky sessions |
| Proxy.LeastConnIsUsed | internal/frontend/frontend.go:411-429 | the packet that makes that pick opens a session bound to it and counted there |
| ConnSteps.StepKeepsAccount | internal/frontend/frontend.go:423-449 | every atomic load, store and count change of creating, moving and removing sessions keeps the account of each server balanced |
| ConnSteps.CountsAreAccounted | internal/frontend/frontend.go:411-451 | in every interleaving each server's count is the decrements sessions have in store, plus what workers have yet to store, plus the skew of past stores |
| ConnSteps.MiscountIsSkew | internal/session/session.go:72-94 | at rest, after any interleaving, each server's count is its live sessions plus the skew of past stores |
| ConnSteps.SkewsNothingIff | internal/session/session.go:72-76 | a store into a binding skews no count if and only if it came before the callback was loaded and overwrote the callback its worker had accounted for, or came too late and put back the server that was lowered |
| ConnSteps.StepKeepsTidy | internal/frontend/frontend.go:423-449 | where no two goroutines are inside one session's window every store is such a clean one |
| ConnSteps.ExactWithoutOverlap | internal/frontend/frontend.go:411-451 | on every interleaving in which windows on one session never overlap counts are exact: at any moment up to the updates under way, and at rest equal to the live sessions |
| ConnSteps.RacingMoves | internal/frontend/frontend.go:434-450 | a run in which two workers move one session at once, after which the old server's count is one below its sessions and the first pick's one above |
| ConnSteps.LeaksAddUp | internal/frontend/frontend.go:423-430 | runs in which sessions are reaped between insertion and wiring, after which a server without sessions has any count |
| TableSteps.StepKeepsInv | internal/session/session.go:179-223 | each atomic step of a lookup, insertion, count or removal keeps the table linearised and the counter accounted for |
| TableSteps.Linearised | internal/session/session.go:140-233 | in every interleaving the stripes hold what the history of operations leads to, every answer, a session or nil, is its operation's, every insertion answers created to exactly one caller, and the counter corrected by updates still to come is the sum of the stripe sizes, hence exact at rest |
| TableSteps.OneSessionUntilRemoval | internal/session/session.go:183-204 | from an insertion to its removal every caller that reaches the key gets that session, and none gets created or nil |
| TableSteps.RemovedOnce | internal/session/session.go:211-305 | no insertion is removed twice by any mix of deletions and sweeps |
| SessionCap.LenBounds | internal/frontend/frontend.go:350-357 | passing the test on Len bounds the keys in the table and of all packets that may still insert, however far the counter lags |
| SessionCap.StepKeepsInv | internal/frontend/frontend.go:350-368 | no step of readers, queue, workers or reaper extends those keys past the bound |
| SessionCap.LookDecides | internal/frontend/frontend.go:350-368 | in every interleaving a packet whose session was found goes on untested; any other is tested next, and given up if and only if the counter then stands at the cap or above |
| SessionCap.CapRefusesIff | internal/frontend/frontend.go:350-357 | in every interleaving a reader gives a packet up, other than for a full queue, if and only if the counter it reads stands at the cap or above and the key was absent when it looked |
| SessionCap.OvershootIsBounded | internal/frontend/frontend.go:350-368 | in every interleaving the table holds at most MaxSessions - 1 + queue capacity + workers + readers sessions |
| SessionCap.ConfiguredOvershoot | internal/frontend/frontend.go:206-235 | with the sizes Start chooses the excess stays below thirteen per configured worker, or twenty-five for fewer than two |
| Overshoot.BoundIsReached | internal/frontend/frontend.go:350-368 | for every cap, queue capacity, number of workers and of readers there is a run that ends with exactly that bound of sessions |
| Overshoot.CapIsExceededIff | internal/frontend/frontend.go:350-368 | whatever the queue holds, and though it hold nothing, some run exceeds the cap if and only if there is a worker and a reader |
| Overshoot.ConfiguredIsReached | internal/frontend/frontend.go:206-235 | with the sizes Start chooses the configured bound is reached, whatever is configured |
| PacketPath.StepKeepsOneOwner | internal/frontend/frontend.go:283-368 | every step hands each buffer on from one owner to one other |
| PacketPath.BuffersHaveOneOwner | internal/frontend/frontend.go:373-401 | in every interleaving each buffer is in exactly one place among pool, goroutines and queue, and every datagram sent on holds the bytes that were read |
| PacketPath.StepKeepsBooks | internal/frontend/frontend.go:309-368 | every single counter addition keeps the books balanced with what goroutines still owe |
| PacketPath.CountersBalance | internal/frontend/frontend.go:309-394 | at any moment drop reasons do not outnumber drops and bytes out do not exceed bytes in; at rest received + replies without a route = forwarded + dropped + queued + drained, and the two shaping counters agree |
| PacketPath.CountersAreExact | internal/frontend/frontend.go:309-394 | each counter never runs ahead of, and at rest equals, what the steps of the run stand for: packets read and their bytes, packets given up for each reason, replies without a route, packets sent and their bytes |

## Left out

- Sockets, listeners, `Start` beyond its sizes, `Stop`: operating-system calls; reads and sends succeed or fail as the environment chooses.
- Health checking, fragment detection, metrics export, configuration loading, QoS ordering, logging and reload: plumbing around the packet path.
- `ServerByAddr`, `ServerByAddrPort`, `listenerForIndex`, `listenerForClient`, `FindMostRecentClientByBackend` and `allowShaped`: plain lookups or conjunctions that would only add easy members.
- Floating-point rounding in the bucket: tokens are reals.
- Wrap-around of the 64-bit route id and of the counters: they are unbounded here.
- Session packet and byte counts, and the session's listener index, which nothing on the packet path reads back.
- What follows a nil server from Pick: the process stops there, so runs contain only picks of a server or of none.
- In ConnSteps, sessions of frontends without affinity, which touch no count, and the failed lookup of a session's address, which cannot happen while every address comes from the pool itself.
- Proxy.StepConserves: forward, Delete and a sweep are single steps; the finer steps are those of ConnSteps.
- Proxy.CountsAreLiveSessions: about whole operations, because under finer interleaving it holds only as ConnSteps.ExactWithoutOverlap and ConnSteps.MiscountIsSkew say.
- Replies.RepliesReachTheirClients: assumes in-order sends and answers per backend, because without them it holds only as Replies.ReplyIsRightIff says.
- Backend.RoundRobinIsFair: stated for windows below 2^63, because beyond it holds only as Backend.FairIff and Backend.FairAcrossWrapIff say.
- Ports.PortsAreExact: for clock values in order; where they lag, an entry forgotten early takes later ports with it, which is not characterised.
- Visibility.InvisibleIff: for a packet burst of two or more at a rate above one packet per nanosecond only the half of Visibility.Invisible is proved.
- SessionCap.OvershootIsBounded: one frontend; the table that several share, each with its own cap, queue and goroutines, is not modelled.
