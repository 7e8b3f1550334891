/** When a striped per-client table is swept, and what that makes it forget, told from its calls alone
    (internal/shaping/shaping.go, internal/abuse/abuse.go). */
module Sweeping {
  import opened Basics

  /** A call on the table: whose, and at what time. */
  datatype Tick = Tick(addr: Addr, now: int)

  /** The second of the last sweep of stripe i by the first j calls; 0, the epoch, if there was none. */
  ghost function LastSweep(ttl: int, ticks: seq<Tick>, j: nat, i: nat): int
    requires j <= |ticks|
    decreases j, 0
  {
    if j == 0 then 0
    else if ClientShard(ticks[j - 1].addr) == i && Sweeps(ttl, ticks, j - 1) then Unix(ticks[j - 1].now)
    else LastSweep(ttl, ticks, j - 1, i)
  }

  /** Call j sweeps its stripe: it comes the time-to-live in whole seconds, or more, after the last
      sweep there. */
  ghost predicate Sweeps(ttl: int, ticks: seq<Tick>, j: nat)
    requires j < |ticks|
    decreases j, 1
  {
    Unix(ticks[j].now) - LastSweep(ttl, ticks, j, ClientShard(ticks[j].addr)) >= ttl / SECOND
  }

  /** Call j sweeps the stripe that holds address a. */
  ghost predicate SweepsOver(ttl: int, ticks: seq<Tick>, j: nat, a: Addr)
    requires j < |ticks|
  {
    ClientShard(ticks[j].addr) == ClientShard(a) && Sweeps(ttl, ticks, j)
  }

  /** The second of an address's last call among the first j. */
  ghost function LastCall(ticks: seq<Tick>, j: nat, a: Addr): Option<int>
    requires j <= |ticks|
  {
    if j == 0 then None
    else if ticks[j - 1].addr == a then Some(Unix(ticks[j - 1].now))
    else LastCall(ticks, j - 1, a)
  }

  /** Call j makes the table forget address a: it sweeps over it, and a has not called since the cutoff. */
  ghost predicate Forgets(ttl: int, ticks: seq<Tick>, j: nat, a: Addr)
    requires j < |ticks|
  {
    && SweepsOver(ttl, ticks, j, a)
    && var last := LastCall(ticks, j + 1, a);
       last.Some? && last.value < Unix(ticks[j].now - ttl)
  }

  /** The first of the calls since address a was last forgotten by one of the first j; 0 if it never was. */
  ghost function Anew(ttl: int, ticks: seq<Tick>, j: nat, a: Addr): (i: nat)
    requires j <= |ticks|
    ensures i <= j
  {
    if j == 0 then 0 else if Forgets(ttl, ticks, j - 1, a) then j else Anew(ttl, ticks, j - 1, a)
  }
}
