/**
  The multi-level feedback queue scheduler on one CPU, each trap and each pass of the scheduler
  loop one step: time slices and demotion on user timer ticks, preemption, and the global boost.
 */
module Mlfq {
  import opened Basics

  datatype RunState = UNUSED | RUNNABLE | RUNNING | SLEEPING
  datatype Proc = Proc(state: RunState, priority: nat, used: nat)

  /** One stretch from a boost to the next: who there was, who ran, and whether only user ticks happened. */
  datatype Round = Round(start: nat, end: nat, live: set<nat>, ran: set<nat>, steady: bool)

  const LOWEST: nat := 3
  const BOOST: nat := 48

  function Slice(q: nat): nat { if q == 0 then 1 else if q == 1 then 4 else if q == 2 then 8 else 16 }

  predicate ProcOk(p: Proc) { p.priority <= LOWEST && p.used < Slice(p.priority) }

  predicate Live(p: Proc) { p.state != UNUSED }

  /** No RUNNABLE process sits in a higher queue than `c`. */
  predicate Minimal(procs: seq<Proc>, c: nat)
    requires c < |procs|
  {
    forall r: nat :: r < |procs| && procs[r].state == RUNNABLE ==> procs[c].priority <= procs[r].priority
  }

  /** The runnable process that the scheduler takes: of the highest queue and, there, of the first slot. */
  predicate Picks(procs: seq<Proc>, c: nat) {
    && c < |procs| && procs[c].state == RUNNABLE && Minimal(procs, c)
    && forall p: nat :: p < c && procs[p].state == RUNNABLE ==> procs[p].priority > procs[c].priority
  }

  predicate NoneRunnable(procs: seq<Proc>) { forall p: nat :: p < |procs| ==> procs[p].state != RUNNABLE }

  /** What a pass of the scheduler makes of `base`: the process it takes runs, and nothing else changes. */
  predicate Settles(base: seq<Proc>, procs: seq<Proc>, cpu: Option<nat>) {
    match cpu
    case None => NoneRunnable(base) && procs == base
    case Some(c) => Picks(base, c) && procs == base[c := base[c].(state := RUNNING)]
  }

  function LiveSet(procs: seq<Proc>): set<nat> { set p: nat | p < |procs| && Live(procs[p]) }

  /** The live processes still in the top queue. */
  function Top(procs: seq<Proc>): set<nat> { set p: nat | p < |procs| && Live(procs[p]) && procs[p].priority == 0 }

  function Boosted(procs: seq<Proc>): (r: seq<Proc>)
    ensures |r| == |procs| && forall p: nat :: p < |procs| ==> r[p] == procs[p].(priority := 0, used := 0)
  {
    seq(|procs|, p requires 0 <= p < |procs| => procs[p].(priority := 0, used := 0))
  }

  /** Boosts come 48 to 63 ticks apart. */
  predicate Spaced(boosts: seq<nat>) {
    forall i: nat :: 0 < i < |boosts| ==> boosts[i - 1] + BOOST <= boosts[i] <= boosts[i - 1] + 63
  }

  /** In a steady stretch everybody ran. */
  predicate Served(rounds: seq<Round>) {
    forall i: nat :: i < |rounds| && rounds[i].steady ==> rounds[i].live <= rounds[i].ran
  }

  class Scheduler {
    var procs: seq<Proc>
    var ticks: nat
    var last: nat          // the tick of the last boost
    var cpu: Option<nat>   // who runs
    ghost var since: nat   // the tick of the last pass of the scheduler
    ghost var boosts: seq<nat>
    ghost var ran: set<nat> // who has been dispatched since the last boost
    ghost var steady: bool  // since the last boost: at most 48 processes, all runnable, and user ticks only
    ghost var rounds: seq<Round>

    ghost predicate Clock()
      reads this
    {
      && last <= since <= ticks && since - last < BOOST && |boosts| > 0 && boosts[|boosts| - 1] == last
      && Spaced(boosts)
      && (cpu.None? ==> since == ticks)
      && (cpu.Some? ==> cpu.value < |procs| && ticks - since <= procs[cpu.value].used)
    }

    ghost predicate Valid()
      reads this
    {
      && AllOk(procs, cpu) && Clock() && Served(rounds)
      && (steady ==> Steady(procs, cpu, ticks - last, ran))
    }

    /** No processes yet; the clock starts as if just boosted. */
    constructor (n: nat)
      ensures Valid() && |procs| == n && LiveSet(procs) == {} && ticks == 0 && boosts == [0] && rounds == []
    {
      procs := seq(n, _ => Proc(UNUSED, 0, 0));
      ticks, last, cpu, since, boosts, ran, steady, rounds := 0, 0, None, 0, [0], {}, false, [];
    }

    /** The scheduler's search: queue by queue, each from the first slot. */
    method Pick() returns (c: Option<nat>)
      requires forall p: nat :: p < |procs| ==> procs[p].priority <= LOWEST
      ensures c.Some? ==> Picks(procs, c.value)
      ensures c.None? ==> NoneRunnable(procs)
    {
      var q := 0;
      while q <= LOWEST
        invariant 0 <= q <= LOWEST + 1
        invariant forall p: nat :: p < |procs| && procs[p].state == RUNNABLE ==> procs[p].priority >= q
      {
        var p := 0;
        while p < |procs|
          invariant 0 <= p <= |procs|
          invariant forall r: nat :: r < p && procs[r].state == RUNNABLE ==> procs[r].priority > q
        {
          if procs[p].state == RUNNABLE && procs[p].priority == q {
            return Some(p);
          }
          p := p + 1;
        }
        q := q + 1;
      }
      return None;
    }

    /** The boost: everybody back to the top queue. */
    method Boost()
      modifies this`procs
      ensures procs == Boosted(old(procs))
    {
      var p := 0;
      ghost var before := procs;
      while p < |procs|
        invariant 0 <= p <= |procs| == |before|
        invariant forall r: nat :: r < |before| ==>
                    procs[r] == if r < p then before[r].(priority := 0, used := 0) else before[r]
      {
        procs := procs[p := procs[p].(priority := 0, used := 0)];
        p := p + 1;
      }
    }

    /** The boost, which ends one stretch and starts the next. */
    method BoostAll()
      requires cpu.None? && AllOk(procs, None) && Served(rounds) && (steady ==> Ready(procs, ticks - last, ran))
      requires last + BOOST <= ticks <= last + 63 && |boosts| > 0 && boosts[|boosts| - 1] == last && Spaced(boosts)
      modifies this`procs, this`last, this`boosts, this`rounds, this`ran, this`steady
      ensures procs == Boosted(old(procs)) && AllOk(procs, None) && last == ticks && ran == {}
      ensures boosts == old(boosts) + [ticks] && Spaced(boosts) && Served(rounds)
      ensures rounds == old(rounds) + [Round(old(last), ticks, LiveSet(old(procs)), old(ran), old(steady))]
      ensures steady == Ready(procs, 0, {}) && (steady <==> |LiveSet(old(procs))| <= BOOST && NobodyAsleep(old(procs)))
    {
      hide Ready, Served, Spaced, LiveSet, NobodyAsleep, AllOk;
      EverybodyRan(procs, ticks - last, ran, steady);
      RoundServed(rounds, Round(last, ticks, LiveSet(procs), ran, steady));
      BoostSpaced(boosts, last, ticks);
      rounds := rounds + [Round(last, ticks, LiveSet(procs), ran, steady)];
      boosts := boosts + [ticks];
      last, ran := ticks, {};
      BoostReady(procs);
      Boost();
      steady := Ready(procs, 0, {});
    }

    /** One pass of the scheduler loop, entered with nobody running. */
    method Schedule()
      requires cpu.None? && AllOk(procs, None) && Served(rounds) && (steady ==> Ready(procs, ticks - last, ran))
      requires last <= since <= ticks && since - last < BOOST && ticks - since <= 16
      requires |boosts| > 0 && boosts[|boosts| - 1] == last && Spaced(boosts)
      modifies this
      ensures Valid() && ticks == old(ticks) && since == ticks
      ensures old(ticks) - old(last) >= BOOST ==>
                && boosts == old(boosts) + [ticks] && last == ticks
                && rounds == old(rounds) + [Round(old(last), ticks, LiveSet(old(procs)), old(ran), old(steady))]
                && (steady <==> |LiveSet(old(procs))| <= BOOST && NobodyAsleep(old(procs)))
      ensures old(ticks) - old(last) < BOOST ==>
                boosts == old(boosts) && rounds == old(rounds) && steady == old(steady) && last == old(last)
      ensures Settles(BoostedIf(old(ticks) - old(last) >= BOOST, old(procs)), procs, cpu)
      ensures cpu.Some? ==> cpu.value < |procs| && Minimal(procs, cpu.value)
    {
      hide Ready, Steady, Served, Spaced, LiveSet, Top, NobodyAsleep, AllOk;
      if ticks - last >= BOOST {
        BoostAll();
      }
      since := ticks;
      PrioritiesOk(procs);
      var c := Pick();
      if c.None? {
        if steady { IdleSteady(procs, ticks - last, ran); }
        return;
      }
      Dispatched(procs, c.value, ticks - last, ran, steady);
      procs := procs[c.value := procs[c.value].(state := RUNNING)];
      cpu := c;
      ran := ran + {c.value};
    }

    /** yield: the running process becomes RUNNABLE and the scheduler takes over. */
    method YieldCpu()
      requires cpu.Some? && AllOk(procs, cpu) && Served(rounds) && cpu.value < |procs|
      requires steady ==> Ready(Paused(procs, cpu.value), ticks - last, ran)
      requires last <= since <= ticks && since - last < BOOST && ticks - since <= 16
      requires |boosts| > 0 && boosts[|boosts| - 1] == last && Spaced(boosts)
      modifies this
      ensures Valid() && ticks == old(ticks) && cpu.Some? && cpu.value < |procs| && Minimal(procs, cpu.value)
      ensures if old(ticks) - old(last) < BOOST then steady == old(steady) && boosts == old(boosts) && last == old(last)
              else boosts == old(boosts) + [ticks] && last == ticks
      ensures Settles(BoostedIf(old(ticks) - old(last) >= BOOST, Paused(old(procs), old(cpu.value))), procs, cpu)
    {
      hide Ready, Steady, Served, Spaced;
      var c := cpu.value;
      ghost var before := procs;
      PausedOk(procs, c);
      procs := procs[c := procs[c].(state := RUNNABLE)];
      cpu := None;
      Schedule();
      assert Paused(before, c)[c].state == RUNNABLE;
    }

    /** A timer tick while `cpu` is in user mode; `woken` are those sleeping until this tick. */
    method UserTick(woken: set<nat>)
      requires Valid() && cpu.Some?
      modifies this
      ensures Valid() && ticks == old(ticks) + 1
      ensures cpu.Some? && cpu.value < |procs| && Minimal(procs, cpu.value)
      ensures (boosts == old(boosts) && old(steady) ==> steady)
      ensures var c, due := old(cpu.value), ticks - old(last) >= BOOST;
              c < |old(procs)| &&
              var t := Woken(old(procs), woken)[c := Ticked(old(procs)[c])];
              if SliceOver(old(procs)[c]) || !Minimal(t, c) then
                && Settles(BoostedIf(due, Paused(t, c)), procs, cpu)
                && boosts == old(boosts) + (if due then [ticks] else []) && last == if due then ticks else old(last)
              else procs == t && cpu == old(cpu) && boosts == old(boosts) && last == old(last)
    {
      hide Ready, Steady, Served, Spaced, AllOk, LiveSet, Top, Woken, Paused, Settles;
      var c := cpu.value;
      ghost var procs0, ran0, t0 := procs, ran, ticks - last;
      ticks := ticks + 1;
      WakeSleepers(woken);
      var p := procs[c].(used := procs[c].used + 1);
      if steady { NobodyToWake(procs0, c, t0, ran, woken); InRan(procs0, c, t0, ran); }
      WokenOk(procs0, c, woken);
      if p.used >= Slice(p.priority) {
        Expired(procs, c, t0, ran, steady);
        procs := procs[c := Demoted(procs[c])];
        YieldCpu();
        return;
      }
      Unexpired(procs, c, t0, ran, steady);
      procs := procs[c := p];
      var shouldYield := HigherWaiting(p.priority);
      if shouldYield {
        YieldCpu();
      } else {
        GoesOn(procs, c, t0 + 1, ran, steady);
      }
    }

    /** A timer tick while `cpu` is in the kernel: it yields, and the tick is not charged to its slice. */
    method KernelTick(woken: set<nat>)
      requires Valid() && cpu.Some?
      modifies this
      ensures Valid() && ticks == old(ticks) + 1 && cpu.Some? && cpu.value < |procs| && Minimal(procs, cpu.value)
      ensures old(cpu.value) < |old(procs)| &&
              Settles(BoostedIf(ticks - old(last) >= BOOST, Paused(Woken(old(procs), woken), old(cpu.value))), procs,
                      cpu)
    {
      hide Ready, Steady, Served, Spaced, AllOk, LiveSet, Top, Woken, Paused, Settles;
      WokenOk(procs, cpu.value, woken);
      ticks, steady := ticks + 1, false;
      WakeSleepers(woken);
      YieldCpu();
    }

    /** A timer tick with nobody running: the scheduler looks again. */
    method IdleTick(woken: set<nat>)
      requires Valid() && cpu.None?
      modifies this
      ensures Valid() && ticks == old(ticks) + 1
      ensures Settles(BoostedIf(ticks - old(last) >= BOOST, Woken(old(procs), woken)), procs, cpu)
      ensures cpu.Some? ==> cpu.value < |procs| && Minimal(procs, cpu.value)
    {
      hide Ready, Steady, Served, Spaced, LiveSet, Top, AllOk, Woken, Minimal;
      IdleWokenOk(procs, woken);
      ticks, steady := ticks + 1, false;
      WakeSleepers(woken);
      Schedule();
    }

    /** The running process goes to sleep, with a fresh slice for when it wakes, or exits. */
    method Leave(exits: bool)
      requires Valid() && cpu.Some?
      modifies this
      ensures Valid() && ticks == old(ticks)
      ensures old(cpu.value) < |old(procs)| &&
              Settles(BoostedIf(ticks - old(last) >= BOOST, Without(old(procs), old(cpu.value), exits)), procs, cpu)
      ensures cpu.Some? ==> cpu.value < |procs| && Minimal(procs, cpu.value)
    {
      hide Ready, Steady, Served, Spaced, LiveSet, Top;
      var c := cpu.value;
      steady := false;
      procs := procs[c := procs[c].(state := if exits then UNUSED else SLEEPING,
                                    used := if exits then procs[c].used else 0)];
      cpu := None;
      Schedule();
    }

    /** A sleeper is woken, or a new process starts in the top queue. */
    method Arrive(p: nat)
      requires Valid() && p < |procs| && (procs[p].state == SLEEPING || procs[p].state == UNUSED)
      modifies this
      ensures Valid() && ticks == old(ticks) && cpu == old(cpu)
      ensures var q := old(procs)[p];
              procs == old(procs)[p := if q.state == UNUSED then Proc(RUNNABLE, 0, 0) else q.(state := RUNNABLE)]
    {
      hide Ready, Steady, Served, Spaced, LiveSet, Top;
      steady := false;
      procs := procs[p := if procs[p].state == UNUSED then Proc(RUNNABLE, 0, 0) else procs[p].(state := RUNNABLE)];
    }

    /** Is a RUNNABLE process waiting in a queue above `q`? */
    method HigherWaiting(q: nat) returns (found: bool)
      ensures found <==> exists r: nat :: r < |procs| && procs[r].state == RUNNABLE && procs[r].priority < q
    {
      var k := 0;
      while k < q
        invariant 0 <= k <= q
        invariant forall r: nat :: r < |procs| && procs[r].state == RUNNABLE ==> procs[r].priority >= k
      {
        var r := 0;
        while r < |procs|
          invariant 0 <= r <= |procs|
          invariant forall x: nat :: x < r && procs[x].state == RUNNABLE ==> procs[x].priority > k
        {
          if procs[r].state == RUNNABLE && procs[r].priority == k {
            return true;
          }
          r := r + 1;
        }
        k := k + 1;
      }
      return false;
    }

    /** wakeup(&ticks): sleepers whose time has come. */
    method WakeSleepers(woken: set<nat>)
      modifies this`procs
      ensures procs == Woken(old(procs), woken)
    {
      var p := 0;
      ghost var before := procs;
      while p < |procs|
        invariant 0 <= p <= |procs| == |before|
        invariant forall r: nat :: r < |before| ==>
                    procs[r] == if r < p then WokenOne(before[r], r in woken) else before[r]
      {
        procs := procs[p := WokenOne(procs[p], p in woken)];
        p := p + 1;
      }
    }
  }

  function BoostedIf(due: bool, procs: seq<Proc>): (r: seq<Proc>)
    ensures |r| == |procs|
  {
    if due then Boosted(procs) else procs
  }

  /** Process `c` has gone to sleep, with a full slice for its next run, or has exited. */
  function Without(procs: seq<Proc>, c: nat, exits: bool): seq<Proc>
    requires c < |procs|
  {
    procs[c := if exits then procs[c].(state := UNUSED) else procs[c].(state := SLEEPING, used := 0)]
  }

  predicate SliceOver(p: Proc) { p.used + 1 >= Slice(p.priority) }

  /** A user tick on the running process: the slice goes on, or ends in a demotion. */
  function Ticked(p: Proc): Proc { if SliceOver(p) then Demoted(p) else p.(used := p.used + 1) }

  function TickedTimes(p: Proc, n: nat): Proc { if n == 0 then p else Ticked(TickedTimes(p, n - 1)) }

  /** Where a process is `n` user ticks after a boost: the queue, and what it has used of its slice there. */
  function Below(n: nat): (nat, nat) {
    if n < 1 then (0, 0) else if n < 5 then (1, n - 1) else if n < 13 then (2, n - 5) else (3, (n - 13) % 16)
  }

  lemma NextOf(x: nat)
    ensures (x + 1) % 16 == if x % 16 == 15 then 0 else x % 16 + 1
  {
  }

  lemma OneTickDown(p: Proc, n: nat)
    requires (p.priority, p.used) == Below(n)
    ensures Ticked(p) == Proc(p.state, Below(n + 1).0, Below(n + 1).1)
  {
    if n >= 13 { NextOf(n - 13); }
  }

  /**
    The whole way down: counted from a boost, a process that has been charged n user ticks is in the
    first queue before the first, in the second for the next four, in the third for the next eight,
    and then in the last one, in slices of sixteen.
   */
  lemma {:induction false} WayDown(p: Proc, n: nat)
    requires p.priority == 0 && p.used == 0
    ensures TickedTimes(p, n) == Proc(p.state, Below(n).0, Below(n).1)
  {
    if n == 0 {
    } else {
      WayDown(p, n - 1);
      OneTickDown(TickedTimes(p, n - 1), n - 1);
    }
  }

  function WokenOne(p: Proc, woken: bool): Proc { if woken && p.state == SLEEPING then p.(state := RUNNABLE) else p }

  function Woken(procs: seq<Proc>, woken: set<nat>): (r: seq<Proc>)
    ensures |r| == |procs| && forall p: nat :: p < |procs| ==> r[p] == WokenOne(procs[p], p in woken)
  {
    seq(|procs|, p requires 0 <= p < |procs| => WokenOne(procs[p], p in woken))
  }

  /** Having slept, a process is back in its queue with a fresh slice, and nobody else has changed. */
  lemma BackInQueue(procs: seq<Proc>, c: nat)
    requires c < |procs|
    ensures Woken(Without(procs, c, false), {c}) == procs[c := Proc(RUNNABLE, procs[c].priority, 0)]
  {
    var t, u := Woken(Without(procs, c, false), {c}), procs[c := Proc(RUNNABLE, procs[c].priority, 0)];
    assert |t| == |u| && forall p: nat :: p < |t| ==> t[p] == u[p];
  }

  function Paused(procs: seq<Proc>, c: nat): seq<Proc>
    requires c < |procs|
  {
    procs[c := procs[c].(state := RUNNABLE)]
  }

  /** Out of its slice: one queue down, with a new slice. */
  function Demoted(p: Proc): Proc { p.(priority := if p.priority < LOWEST then p.priority + 1 else p.priority,
                                       used := 0) }

  lemma NobodyToWake(procs: seq<Proc>, c: nat, elapsed: int, ran: set<nat>, woken: set<nat>)
    requires Steady(procs, Some(c), elapsed, ran)
    ensures Woken(procs, woken) == procs
  {
    forall p: nat | p < |procs| ensures WokenOne(procs[p], p in woken) == procs[p] {
      assert Live(procs[p]) || procs[p].state == UNUSED;
    }
  }

  lemma InRan(procs: seq<Proc>, c: nat, elapsed: int, ran: set<nat>)
    requires Steady(procs, Some(c), elapsed, ran)
    ensures c in ran
  {
  }

  lemma IdleWokenOk(procs: seq<Proc>, woken: set<nat>)
    requires AllOk(procs, None)
    ensures AllOk(Woken(procs, woken), None)
  {
  }

  lemma WokenOk(procs: seq<Proc>, c: nat, woken: set<nat>)
    requires AllOk(procs, Some(c)) && c < |procs|
    ensures AllOk(Woken(procs, woken), Some(c)) && Woken(procs, woken)[c] == procs[c] && ProcOk(procs[c])
    ensures procs[c].state == RUNNING
  {
  }

  /** The running process leaves the top queue, if it was there, as the tick is counted. */
  lemma Expired(procs: seq<Proc>, c: nat, elapsed: int, ran: set<nat>, steady: bool)
    requires c < |procs| && AllOk(procs, Some(c)) && (steady ==> Steady(procs, Some(c), elapsed, ran))
    ensures AllOk(procs[c := Demoted(procs[c])], Some(c))
    ensures steady ==> Ready(Paused(procs[c := Demoted(procs[c])], c), elapsed + 1, ran)
  {
    var procs' := Paused(procs[c := Demoted(procs[c])], c);
    assert procs[c].state == RUNNING;
    assert LiveSet(procs') == LiveSet(procs) && Top(procs') == Top(procs) - {c};
    if steady {
      TopIsMinimal(procs, c);
    }
  }

  lemma TopIsMinimal(procs: seq<Proc>, c: nat)
    requires c < |procs| && Minimal(procs, c) && procs[c].state == RUNNING
    requires forall p: nat :: p < |procs| && Live(procs[p]) && p != c ==> procs[p].state == RUNNABLE
    ensures Top(procs) != {} ==> c in Top(procs)
  {
    if procs[c].priority > 0 {
      forall p | p in Top(procs) ensures p == c {
      }
    }
  }

  /** A slice that goes on is not the top queue's, which is one tick long. */
  lemma Unexpired(procs: seq<Proc>, c: nat, elapsed: int, ran: set<nat>, steady: bool)
    requires c < |procs| && AllOk(procs, Some(c)) && (steady ==> Steady(procs, Some(c), elapsed, ran))
    requires procs[c].used + 1 < Slice(procs[c].priority)
    ensures var procs' := procs[c := procs[c].(used := procs[c].used + 1)];
            && AllOk(procs', Some(c))
            && (steady ==> Ready(Paused(procs', c), elapsed + 1, ran) && Top(procs') == {})
  {
    var procs' := procs[c := procs[c].(used := procs[c].used + 1)];
    assert procs[c].state == RUNNING && procs[c].priority > 0;
    assert LiveSet(procs') == LiveSet(procs) == LiveSet(Paused(procs', c));
    assert Top(procs') == Top(procs) == Top(Paused(procs', c));
    if steady {
      TopIsMinimal(procs, c);
    }
  }

  lemma GoesOn(procs: seq<Proc>, c: nat, elapsed: int, ran: set<nat>, steady: bool)
    requires c < |procs| && AllOk(procs, Some(c))
    requires (steady ==> Ready(Paused(procs, c), elapsed, ran) && Top(procs) == {} && c in ran)
    requires !exists r: nat :: r < |procs| && procs[r].state == RUNNABLE && procs[r].priority < procs[c].priority
    ensures Minimal(procs, c) && (steady ==> Steady(procs, Some(c), elapsed, ran))
  {
    assert procs[c].state == RUNNING;
    assert LiveSet(procs) == LiveSet(Paused(procs, c));
    if steady {
      forall p: nat | p < |procs| && Live(procs[p]) && p != c ensures procs[p].state == RUNNABLE
        && (procs[p].priority > 0 ==> p in ran) {
        assert Paused(procs, c)[p] == procs[p];
      }
    }
  }

  lemma PausedOk(procs: seq<Proc>, c: nat)
    requires c < |procs| && AllOk(procs, Some(c))
    ensures AllOk(Paused(procs, c), None)
  {
  }

  predicate NobodyAsleep(procs: seq<Proc>) {
    forall p: nat :: p < |procs| && Live(procs[p]) ==> procs[p].state == RUNNABLE || procs[p].state == RUNNING
  }

  ghost predicate AllOk(procs: seq<Proc>, cpu: Option<nat>) {
    forall p: nat :: p < |procs| ==> ProcOk(procs[p]) && (procs[p].state == RUNNING <==> cpu == Some(p))
  }

  /** As Steady, between two processes. */
  ghost predicate Ready(procs: seq<Proc>, elapsed: int, ran: set<nat>) {
    && |LiveSet(procs)| <= BOOST
    && (forall p: nat :: p < |procs| && Live(procs[p]) ==> procs[p].state == RUNNABLE)
    && (forall p: nat :: p < |procs| && Live(procs[p]) && procs[p].priority > 0 ==> p in ran)
    && (Top(procs) != {} ==> |Top(procs)| + elapsed <= |LiveSet(procs)|)
  }

  /** Everybody is runnable; each tick since the boost has taken one process out of the top queue, and it ran. */
  ghost predicate Steady(procs: seq<Proc>, cpu: Option<nat>, elapsed: int, ran: set<nat>) {
    && |LiveSet(procs)| <= BOOST
    && (forall p: nat :: p < |procs| && Live(procs[p]) ==> procs[p].state == RUNNABLE || procs[p].state == RUNNING)
    && (forall p: nat :: p < |procs| && Live(procs[p]) && procs[p].priority > 0 ==> p in ran)
    && (Top(procs) != {} ==> |Top(procs)| + elapsed <= |LiveSet(procs)|)
    && (cpu.Some? ==> cpu.value in ran && cpu.value < |procs| && Minimal(procs, cpu.value))
    && (cpu.None? ==> LiveSet(procs) == {})
  }

  /** When the next boost is due, a steady stretch has emptied the top queue. */
  lemma EverybodyRan(procs: seq<Proc>, elapsed: int, ran: set<nat>, steady: bool)
    requires steady ==> Ready(procs, elapsed, ran)
    requires elapsed >= BOOST
    ensures steady ==> LiveSet(procs) <= ran
  {
    if steady {
      assert Top(procs) != {} ==> |Top(procs)| > 0;
      forall p | p in LiveSet(procs) ensures p in ran {
        assert p !in Top(procs);
      }
    }
  }

  lemma RoundServed(rounds: seq<Round>, r: Round)
    requires Served(rounds) && (r.steady ==> r.live <= r.ran)
    ensures Served(rounds + [r])
  {
  }

  lemma BoostSpaced(boosts: seq<nat>, last: nat, ticks: nat)
    requires |boosts| > 0 && boosts[|boosts| - 1] == last && Spaced(boosts) && last + BOOST <= ticks <= last + 63
    ensures Spaced(boosts + [ticks])
  {
  }

  /** After a boost everybody is in the top queue; the stretch starts steady if there are few enough and all can run. */
  lemma BoostReady(procs: seq<Proc>)
    requires AllOk(procs, None)
    ensures LiveSet(Boosted(procs)) == LiveSet(procs) && AllOk(Boosted(procs), None)
    ensures Ready(Boosted(procs), 0, {}) <==> |LiveSet(procs)| <= BOOST && NobodyAsleep(procs)
  {
    assert LiveSet(Boosted(procs)) == LiveSet(procs) == Top(Boosted(procs));
    if NobodyAsleep(procs) {
      assert forall p: nat :: p < |procs| && Live(Boosted(procs)[p]) ==> Live(procs[p]);
    }
    if Ready(Boosted(procs), 0, {}) {
      forall p: nat | p < |procs| && Live(procs[p]) ensures procs[p].state == RUNNABLE {
        assert Live(Boosted(procs)[p]);
      }
    }
  }

  lemma IdleSteady(procs: seq<Proc>, elapsed: int, ran: set<nat>)
    requires Ready(procs, elapsed, ran) && forall p: nat :: p < |procs| ==> procs[p].state != RUNNABLE
    ensures Steady(procs, None, elapsed, ran)
  {
  }

  lemma Dispatched(procs: seq<Proc>, c: nat, elapsed: int, ran: set<nat>, steady: bool)
    requires c < |procs| && procs[c].state == RUNNABLE && Minimal(procs, c) && AllOk(procs, None)
    requires steady ==> Ready(procs, elapsed, ran)
    ensures var procs' := procs[c := procs[c].(state := RUNNING)];
            AllOk(procs', Some(c)) && Minimal(procs', c) && (steady ==> Steady(procs', Some(c), elapsed, ran + {c}))
  {
    var procs' := procs[c := procs[c].(state := RUNNING)];
    assert LiveSet(procs') == LiveSet(procs) && Top(procs') == Top(procs);
  }

  lemma PrioritiesOk(procs: seq<Proc>)
    requires AllOk(procs, None)
    ensures forall p: nat :: p < |procs| ==> procs[p].priority <= LOWEST
  {
  }
}
