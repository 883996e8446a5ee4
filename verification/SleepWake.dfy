/**
  Sleeping and waking: sleep_prepare, sleep and wakeup, and on top of them sleep-locks, exit,
  wait and kill. One action per stretch of code under one process lock, so that a wakeup's scan
  of the table, and an exit's, interleave with everything else.
 */
module SleepWake {
  import opened Basics

  datatype Chan = OnLock(l: nat) | OnProc(p: nat)

  datatype RunState = UNUSED | USED | RUNNABLE | RUNNING | SLEEPING | ZOMBIE

  /** Where a process is in the code. */
  datatype Pc =
    | Idle
    | AcqWant(l: nat)          // acquiresleep, about to take the guarding spinlock
    | AcqTest(l: nat)          // holding it, about to test `locked`
    | AcqPrep(l: nat)          // registered by sleep_prepare, still holding it
    | AcqSleep(l: nat)         // about to call sleep
    | AcqSlept(l: nat)         // inside sleep, switched out
    | AcqDone(l: nat)          // got the lock, still holding the spinlock
    | RelTest(l: nat)          // releasesleep, holding the spinlock
    | RelWake(l: nat, k: nat)  // unlocked; wakeup has scanned the processes below k
    | WaitWant                 // wait, about to take wait_lock
    | Scan(k: nat, kids: bool) // holding it, children below k looked at
    | WaitPrep                 // registered, still holding wait_lock
    | WaitSleep
    | WaitSlept
    | WaitDone                 // about to release wait_lock and return
    | Orphan(k: nat)           // exit, holding wait_lock: reparent has looked at children below k
    | OrphanWake(k: nat, j: nat) // child k went to init; wakeup(init) has scanned below j
    | ExitWake(j: nat)         // wakeup(parent) has scanned below j
    | Dead
    | Forking(n: nat)          // fork has process n, not yet its parent
    | Forked(n: nat)           // not yet runnable

  datatype Proc = Proc(state: RunState, chan: Option<Chan>, killed: bool, parent: Option<nat>, pid: nat, pc: Pc,
                       held: set<nat>)

  /** A sleep-lock; `guard` is who holds its spinlock, `holder` who holds it. */
  datatype Lock = Lock(locked: bool, pid: nat, guard: Option<nat>, holder: Option<nat>)

  datatype State = State(procs: seq<Proc>, locks: seq<Lock>, wait: Option<nat>, nextpid: nat, reaped: seq<nat>,
                         exited: set<nat>)

  const INIT: nat := 0 // initproc is the first entry

  datatype LockAct = // acquiresleep and releasesleep
    | TakeLock(p: nat, l: nat)
    | TryLock(p: nat)
    | DropLock(p: nat)
    | StartRelease(p: nat, l: nat)
    | Unlock(p: nat)
    | WakeOne(p: nat)

  datatype WaitAct = // wait and sleep
    | TakeWait(p: nat)
    | DropWait(p: nat)
    | Sleep(p: nat)
    | Resume(p: nat)

  datatype ExitAct = // exit and reparent
    | StartExit(p: nat)
    | OrphanOne(p: nat)
    | OrphanWakeOne(p: nat)
    | ExitWakeOne(p: nat)
    | Die(p: nat)

  datatype LifeAct = // fork, kill and the scheduler
    | Alloc(p: nat, n: nat)
    | Adopt(p: nat)
    | Start(p: nat)
    | ForkFail(p: nat)
    | Kill(q: nat)
    | Schedule(q: nat)
    | Yield(p: nat)

  datatype Action =
    | Locking(lock: LockAct)
    | Waiting(wait: WaitAct)
    | Scanning(p: nat, fault: bool)
    | Leaving(exit: ExitAct)
    | Living(life: LifeAct)

  // ---------- the pieces of code ----------

  /** The body of wakeup for one process. */
  function Woken(q: Proc, c: Chan): Proc {
    if q.chan == Some(c) then q.(chan := None, state := if q.state == SLEEPING then RUNNABLE else q.state) else q
  }

  /** sleep, under the process's own lock: go to sleep only if the registration is still there. */
  function Slept(q: Proc): Proc
    requires q.pc.AcqSleep? || q.pc.WaitSleep?
  {
    if q.chan.Some? then q.(state := SLEEPING, pc := if q.pc.AcqSleep? then AcqSlept(q.pc.l) else WaitSlept)
    else q.(pc := if q.pc.AcqSleep? then AcqWant(q.pc.l) else WaitWant)
  }

  /** freeproc, with the parent cleared before it. */
  function Freed(): Proc { Proc(UNUSED, None, false, None, 0, Idle, {}) }

  /** What an action does: new records for the acting process `p` and for another, `k`, and a lock's new state. */
  datatype Effect = Effect(p: nat, q: Proc, k: nat, r: Proc, l: Option<nat>, lock: Lock, wait: Option<nat>,
                           nextpid: nat, reaped: seq<nat>, exited: set<nat>)

  const NOLOCK := Lock(false, 0, None, None)

  /** Process `p` alone becomes `q`. */
  function Own(s: State, p: nat, q: Proc): Effect {
    Effect(p, q, p, q, None, NOLOCK, s.wait, s.nextpid, s.reaped, s.exited)
  }

  /** Process `k` becomes `r`, and `p`, which may be the same one, goes on to `pc`. */
  function Two(s: State, p: nat, pc: Pc, k: nat, r: Proc): Effect
    requires p < |s.procs|
  {
    var q := if k == p then r.(pc := pc) else s.procs[p].(pc := pc);
    Effect(p, q, k, if k == p then q else r, None, NOLOCK, s.wait, s.nextpid, s.reaped, s.exited)
  }

  /** An effect on the table it is for. */
  predicate Fits(s: State, e: Effect) {
    e.p < |s.procs| && e.k < |s.procs| && (e.k == e.p ==> e.r == e.q) && (e.l.Some? ==> e.l.value < |s.locks|)
  }

  function Apply(s: State, e: Effect): State
    requires Fits(s, e)
  {
    State(s.procs[e.k := e.r][e.p := e.q],
          if e.l.Some? then s.locks[e.l.value := e.lock] else s.locks,
          e.wait, e.nextpid, e.reaped, e.exited)
  }

  predicate Runs(s: State, p: nat) { p < |s.procs| && s.procs[p].state == RUNNING }

  predicate LockingEnabled(s: State, a: LockAct) {
    match a
    case TakeLock(p, l) =>
      && Runs(s, p) && l < |s.locks| && s.locks[l].guard.None?
      && (s.procs[p].pc == Idle || s.procs[p].pc == AcqWant(l))
    case TryLock(p) => Runs(s, p) && s.procs[p].pc.AcqTest? && s.procs[p].pc.l < |s.locks|
    case DropLock(p) =>
      Runs(s, p) && (var pc := s.procs[p].pc;
                     (pc.AcqPrep? || pc.AcqDone? || (pc.RelWake? && pc.k == |s.procs|)) && pc.l < |s.locks|)
    case StartRelease(p, l) =>
      && Runs(s, p) && l < |s.locks| && s.procs[p].pc == Idle && l in s.procs[p].held
      && s.locks[l].guard.None?
    case Unlock(p) => Runs(s, p) && s.procs[p].pc.RelTest? && s.procs[p].pc.l < |s.locks|
    case WakeOne(p) => Runs(s, p) && s.procs[p].pc.RelWake? && s.procs[p].pc.k < |s.procs|
  }

  predicate WaitingEnabled(s: State, a: WaitAct) {
    match a
    case TakeWait(p) => Runs(s, p) && s.wait.None? && (s.procs[p].pc == Idle || s.procs[p].pc == WaitWant)
    case DropWait(p) => Runs(s, p) && (s.procs[p].pc.WaitPrep? || s.procs[p].pc.WaitDone?)
    case Sleep(p) => Runs(s, p) && (s.procs[p].pc.AcqSleep? || s.procs[p].pc.WaitSleep?)
    case Resume(p) => Runs(s, p) && (s.procs[p].pc.AcqSlept? || s.procs[p].pc.WaitSlept?)
  }

  predicate LeavingEnabled(s: State, a: ExitAct) {
    match a
    case StartExit(p) => Runs(s, p) && p != INIT && s.procs[p].pc == Idle && s.procs[p].held == {} && s.wait.None?
    case OrphanOne(p) => Runs(s, p) && s.procs[p].pc.Orphan? && s.procs[p].pc.k <= |s.procs|
    case OrphanWakeOne(p) => Runs(s, p) && s.procs[p].pc.OrphanWake? && s.procs[p].pc.j <= |s.procs|
    case ExitWakeOne(p) => Runs(s, p) && s.procs[p].pc.ExitWake? && s.procs[p].pc.j < |s.procs|
    case Die(p) => Runs(s, p) && s.procs[p].pc == ExitWake(|s.procs|)
  }

  predicate LivingEnabled(s: State, a: LifeAct) {
    match a
    case Alloc(p, n) => Runs(s, p) && s.procs[p].pc == Idle && n < |s.procs| && s.procs[n].state == UNUSED
    case Adopt(p) => Runs(s, p) && s.procs[p].pc.Forking? && s.procs[p].pc.n < |s.procs| && s.wait.None?
    case Start(p) => Runs(s, p) && s.procs[p].pc.Forked? && s.procs[p].pc.n < |s.procs|
    case ForkFail(p) => Runs(s, p) && s.procs[p].pc.Forking? && s.procs[p].pc.n < |s.procs|
    case Kill(q) => q < |s.procs| && s.procs[q].state != UNUSED
    case Schedule(q) => q < |s.procs| && s.procs[q].state == RUNNABLE
    case Yield(p) => Runs(s, p)
  }

  predicate Enabled(s: State, a: Action) {
    match a
    case Locking(x) => LockingEnabled(s, x)
    case Waiting(x) => WaitingEnabled(s, x)
    case Scanning(p, _) => Runs(s, p) && s.procs[p].pc.Scan? && s.procs[p].pc.k <= |s.procs|
    case Leaving(x) => LeavingEnabled(s, x)
    case Living(x) => LivingEnabled(s, x)
  }

  function LockingDoes(s: State, a: LockAct): Effect
    requires LockingEnabled(s, a)
  {
    match a
    case TakeLock(p, l) =>
      Own(s, p, s.procs[p].(pc := AcqTest(l))).(l := Some(l), lock := s.locks[l].(guard := Some(p)))
    case TryLock(p) => Tried(s, p, s.procs[p].pc.l)
    case DropLock(p) =>
      var l := s.procs[p].pc.l;
      var pc := if s.procs[p].pc.AcqPrep? then AcqSleep(l) else Idle;
      Own(s, p, s.procs[p].(pc := pc)).(l := Some(l), lock := s.locks[l].(guard := None))
    case StartRelease(p, l) =>
      Own(s, p, s.procs[p].(pc := RelTest(l))).(l := Some(l), lock := s.locks[l].(guard := Some(p)))
    case Unlock(p) =>
      var l := s.procs[p].pc.l;
      Own(s, p, s.procs[p].(pc := RelWake(l, 0), held := s.procs[p].held - {l}))
        .(l := Some(l), lock := s.locks[l].(locked := false, pid := 0, holder := None))
    case WakeOne(p) =>
      var pc := s.procs[p].pc;
      Two(s, p, RelWake(pc.l, pc.k + 1), pc.k, Woken(s.procs[pc.k], OnLock(pc.l)))
  }

  function WaitingDoes(s: State, a: WaitAct): Effect
    requires WaitingEnabled(s, a)
  {
    match a
    case TakeWait(p) => Own(s, p, s.procs[p].(pc := Scan(0, false))).(wait := Some(p))
    case DropWait(p) => Own(s, p, s.procs[p].(pc := if s.procs[p].pc.WaitPrep? then WaitSleep else Idle)).(wait := None)
    case Sleep(p) => Own(s, p, Slept(s.procs[p]))
    case Resume(p) =>
      Own(s, p, s.procs[p].(pc := if s.procs[p].pc.AcqSlept? then AcqWant(s.procs[p].pc.l) else WaitWant))
  }

  function LeavingDoes(s: State, a: ExitAct): Effect
    requires LeavingEnabled(s, a)
  {
    match a
    case StartExit(p) => Own(s, p, s.procs[p].(pc := Orphan(0))).(wait := Some(p))
    case OrphanOne(p) => Orphaned(s, p, s.procs[p].pc.k)
    case OrphanWakeOne(p) =>
      var pc := s.procs[p].pc;
      if pc.j == |s.procs| then Own(s, p, s.procs[p].(pc := Orphan(pc.k + 1)))
      else Two(s, p, OrphanWake(pc.k, pc.j + 1), pc.j, Woken(s.procs[pc.j], OnProc(INIT)))
    case ExitWakeOne(p) =>
      var j := s.procs[p].pc.j;
      var parent := s.procs[p].parent;
      Two(s, p, ExitWake(j + 1), j, if parent.Some? then Woken(s.procs[j], OnProc(parent.value)) else s.procs[j])
    case Die(p) =>
      Own(s, p, s.procs[p].(state := ZOMBIE, pc := Dead)).(wait := None, exited := s.exited + {s.procs[p].pid})
  }

  function LivingDoes(s: State, a: LifeAct): Effect
    requires LivingEnabled(s, a)
  {
    match a
    case Alloc(p, n) =>
      Two(s, p, Forking(n), n, s.procs[n].(state := USED, pid := s.nextpid)).(nextpid := s.nextpid + 1)
    case Adopt(p) => Two(s, p, Forked(s.procs[p].pc.n), s.procs[p].pc.n, s.procs[s.procs[p].pc.n].(parent := Some(p)))
    case Start(p) => Two(s, p, Idle, s.procs[p].pc.n, s.procs[s.procs[p].pc.n].(state := RUNNABLE))
    case ForkFail(p) => Two(s, p, Idle, s.procs[p].pc.n, Freed())
    case Kill(q) =>
      var state := if s.procs[q].state == SLEEPING then RUNNABLE else s.procs[q].state;
      Own(s, q, s.procs[q].(killed := true, state := state))
    case Schedule(q) => Own(s, q, s.procs[q].(state := RUNNING))
    case Yield(p) => Own(s, p, s.procs[p].(state := RUNNABLE))
  }

  function Does(s: State, a: Action): Effect
    requires Enabled(s, a)
  {
    match a
    case Locking(x) => LockingDoes(s, x)
    case Waiting(x) => WaitingDoes(s, x)
    case Scanning(p, fault) => Scanned(s, p, s.procs[p].pc.k, fault)
    case Leaving(x) => LeavingDoes(s, x)
    case Living(x) => LivingDoes(s, x)
  }

  /** The test in acquiresleep: register for the wakeup while the lock is held, take it when it is not. */
  function Tried(s: State, p: nat, l: nat): Effect
    requires p < |s.procs| && l < |s.locks|
  {
    var q := s.procs[p];
    if s.locks[l].locked then Own(s, p, q.(chan := Some(OnLock(l)), pc := AcqPrep(l)))
    else Own(s, p, q.(pc := AcqDone(l), held := q.held + {l}))
           .(l := Some(l), lock := s.locks[l].(locked := true, pid := q.pid, holder := Some(p)))
  }

  /**
    One round of wait's scan; after the last, give up or register. `fault`: the exit status could not
    be copied out.
   */
  function Scanned(s: State, p: nat, k: nat, fault: bool): Effect
    requires p < |s.procs| && k <= |s.procs| && s.procs[p].pc.Scan?
  {
    var q := s.procs[p];
    if k == |s.procs| then
      if !q.pc.kids || q.killed then Own(s, p, q.(pc := WaitDone))
      else Own(s, p, q.(chan := Some(OnProc(p)), pc := WaitPrep))
    else if s.procs[k].parent != Some(p) then Own(s, p, q.(pc := Scan(k + 1, q.pc.kids)))
    else if s.procs[k].state != ZOMBIE then Own(s, p, q.(pc := Scan(k + 1, true)))
    else if fault then Own(s, p, q.(pc := WaitDone))
    else Two(s, p, WaitDone, k, Freed()).(reaped := s.reaped + [s.procs[k].pid])
  }

  /** One round of reparent. */
  function Orphaned(s: State, p: nat, k: nat): Effect
    requires p < |s.procs| && k <= |s.procs|
  {
    if k == |s.procs| then Own(s, p, s.procs[p].(pc := ExitWake(0)))
    else if s.procs[k].parent == Some(p) then Two(s, p, OrphanWake(k, 0), k, s.procs[k].(parent := Some(INIT)))
    else Own(s, p, s.procs[p].(pc := Orphan(k + 1)))
  }

  lemma FitsHolds(s: State, a: Action)
    requires Enabled(s, a)
    ensures Fits(s, Does(s, a))
  {
  }

  function Do(s: State, a: Action): State
    requires Enabled(s, a)
  {
    FitsHolds(s, a);
    Apply(s, Does(s, a))
  }

  // ---------- invariants ----------

  predicate InGuard(pc: Pc) { pc.AcqTest? || pc.AcqPrep? || pc.AcqDone? || pc.RelTest? || pc.RelWake? }

  predicate InWait(pc: Pc) { pc.Scan? || pc.WaitPrep? || pc.WaitDone? || pc.Orphan? || pc.OrphanWake? || pc.ExitWake? }

  predicate Exiting(pc: Pc) { pc.Orphan? || pc.OrphanWake? || pc.ExitWake? || pc.Dead? }

  predicate Forks(pc: Pc, n: nat) { (pc.Forking? || pc.Forked?) && pc.n == n }

  /** A scan of the table of `n` processes stays inside it. */
  predicate Within(pc: Pc, n: nat) {
    match pc
    case RelWake(_, k) => k <= n
    case Scan(k, _) => k <= n
    case Orphan(k) => k <= n
    case OrphanWake(k, j) => k < n && j <= n
    case ExitWake(j) => j <= n
    case _ => true
  }

  /** What a process can be doing in each state, and whom it belongs to. */
  predicate Placed(q: Proc, p: nat, n: nat) {
    && (q.state == SLEEPING ==> q.chan.Some? && (q.pc.AcqSlept? || q.pc.WaitSlept?))
    && (q.state == ZOMBIE <==> q.pc.Dead?)
    && (q.state == UNUSED || q.state == USED ==> q.pc == Idle && q.chan.None? && q.held == {})
    && (q.state == UNUSED ==> q.parent.None?)
    && (Exiting(q.pc) ==> q.held == {} && p != INIT) && (p == INIT ==> q.state != UNUSED && q.state != USED)
    && (q.parent.Some? ==> p != INIT && q.parent.value != p && q.parent.value < n)
    && (p != INIT && q.state != UNUSED && q.state != USED ==> q.parent.Some?)
  }

  /** Where each process can be, and what it can be registered for. */
  predicate Registered(q: Proc, p: nat, n: nat) {
    && (q.pc.RelTest? ==> q.pc.l in q.held)
    && (q.chan.Some? && q.chan.value.OnProc? ==> q.chan.value.p == p)
    && (q.pc.AcqPrep? || q.pc.AcqSleep? || q.pc.AcqSlept? ==> q.chan.None? || q.chan == Some(OnLock(q.pc.l)))
    && (q.pc.WaitPrep? || q.pc.WaitSleep? || q.pc.WaitSlept? ==> q.chan.None? || q.chan == Some(OnProc(p)))
    && Within(q.pc, n)
  }

  predicate ProcOk(q: Proc, p: nat, n: nat) { Placed(q, p, n) && Registered(q, p, n) }

  ghost predicate ProcsOk(procs: seq<Proc>) {
    |procs| > INIT && forall p: nat :: p < |procs| ==> ProcOk(procs[p], p, |procs|)
  }

  /** A process being made by a fork that has got to `pc`: first it is nobody's child, and then it has a parent. */
  predicate Made(c: Proc, pc: Pc) { c.state == USED && (pc.Forking? <==> c.parent.None?) }

  /** A process being made belongs to one fork. */
  ghost predicate ForksOk(procs: seq<Proc>) {
    && (forall p: nat :: p < |procs| && (procs[p].pc.Forking? || procs[p].pc.Forked?) ==>
          procs[p].pc.n < |procs| && Made(procs[procs[p].pc.n], procs[p].pc))
    && (forall p: nat, p': nat :: p < p' < |procs| && (procs[p].pc.Forking? || procs[p].pc.Forked?) ==>
          !Forks(procs[p'].pc, procs[p].pc.n))
  }

  /** The spinlock of a sleep-lock is held by whoever is inside its critical section. */
  ghost predicate GuardOk(procs: seq<Proc>, locks: seq<Lock>) {
    && (forall p: nat :: p < |procs| && InGuard(procs[p].pc) ==>
        procs[p].pc.l < |locks| && locks[procs[p].pc.l].guard == Some(p))
    && (forall l: nat :: l < |locks| && locks[l].guard.Some? ==>
          var h := locks[l].guard.value; h < |procs| && InGuard(procs[h].pc) && procs[h].pc.l == l)
  }

  ghost predicate WaitOk(procs: seq<Proc>, wait: Option<nat>) {
    (wait.Some? ==> wait.value < |procs|) && forall p: nat :: p < |procs| ==> (InWait(procs[p].pc) <==> wait == Some(p))
  }

  /** Process `p` is about to be reached by the wakeup of the lock's release. */
  predicate Waking(procs: seq<Proc>, k: Lock, l: nat, p: nat) {
    k.guard.Some? && k.guard.value < |procs| && var pc := procs[k.guard.value].pc; pc.RelWake? && pc.l == l && pc.k <= p
  }

  /** Whoever is registered on a sleep-lock that is not held is about to be woken. */
  ghost predicate LockOk(procs: seq<Proc>, locks: seq<Lock>) {
    forall l: nat, p: nat :: l < |locks| && p < |procs| && procs[p].chan == Some(OnLock(l)) && !locks[l].locked ==>
                               Waking(procs, locks[l], l, p)
  }

  predicate HolderIs(locks: seq<Lock>, l: nat, p: nat) { l < |locks| && locks[l].holder == Some(p) }

  /** A sleep-lock is held by the one process that has it. */
  ghost predicate HeldOk(procs: seq<Proc>, locks: seq<Lock>) {
    && (forall p: nat, l: nat :: p < |procs| && l in procs[p].held ==> HolderIs(locks, l, p))
    && (forall l: nat :: l < |locks| ==>
          (locks[l].locked <==> locks[l].holder.Some?) &&
          (locks[l].holder.Some? ==>
             var h := locks[l].holder.value;
             h < |procs| && l in procs[h].held && locks[l].pid == procs[h].pid))
  }

  predicate ZombieChild(c: Proc, p: nat) { c.parent == Some(p) && c.state == ZOMBIE }

  /** init is about to be woken for a child it has just been given. */
  predicate Rousing(procs: seq<Proc>, wait: Option<nat>, p: nat) {
    p == INIT && wait.Some? && wait.value < |procs| && var pc := procs[wait.value].pc; pc.OrphanWake? && pc.j <= INIT
  }

  /** Whoever is registered in wait has no exited child, or is about to be woken. */
  ghost predicate ParentOk(procs: seq<Proc>, wait: Option<nat>) {
    forall p: nat, c: nat ::
      p < |procs| && c < |procs| && procs[p].chan == Some(OnProc(p)) && ZombieChild(procs[c], p) ==>
        Rousing(procs, wait, p)
  }

  ghost predicate ScanOk(procs: seq<Proc>) {
    forall p: nat, c: nat :: p < |procs| && procs[p].pc.Scan? && c < procs[p].pc.k && c < |procs| ==>
      !ZombieChild(procs[c], p)
  }

  /** Exit's wakeups take effect: whoever the scan has passed is not registered. */
  predicate WokenOk(procs: seq<Proc>, q: Proc) {
    && (q.pc.ExitWake? && q.parent.Some? && q.parent.value < q.pc.j && q.parent.value < |procs| ==>
          procs[q.parent.value].chan != Some(OnProc(q.parent.value)))
    && (q.pc.OrphanWake? && q.pc.j > INIT && |procs| > INIT ==> procs[INIT].chan != Some(OnProc(INIT)))
  }

  ghost predicate ExitOk(procs: seq<Proc>) { forall p: nat :: p < |procs| ==> WokenOk(procs, procs[p]) }

  /** Process `q` has no child in slot `c`: it is not there yet, or its scan or its exit has looked. */
  predicate Left(q: Proc, c: nat) {
    || q.state == UNUSED || q.state == USED || q.pc.ExitWake? || q.pc.Dead?
    || (q.pc.Scan? && !q.pc.kids && c < q.pc.k) || (q.pc.Orphan? && c < q.pc.k) || (q.pc.OrphanWake? && c <= q.pc.k)
  }

  ghost predicate HasChild(procs: seq<Proc>, p: nat, k: nat) {
    exists c: nat :: c < k && c < |procs| && procs[c].parent == Some(p)
  }

  /** Nobody's parent is gone, and wait's scan knows whether it has met a child. */
  ghost predicate KidsOk(procs: seq<Proc>) {
    && (forall p: nat, c: nat :: p < |procs| && c < |procs| && Left(procs[p], c) ==> procs[c].parent != Some(p))
    && (forall p: nat :: p < |procs| && procs[p].pc.Scan? && procs[p].pc.kids ==> HasChild(procs, p, procs[p].pc.k))
  }

  ghost predicate PidsOk(procs: seq<Proc>, nextpid: nat, reaped: seq<nat>, exited: set<nat>) {
    && (forall p: nat :: p < |procs| && procs[p].state != UNUSED ==>
          procs[p].pid < nextpid && procs[p].pid !in reaped && (procs[p].state == ZOMBIE ==> procs[p].pid in exited))
    && (forall p: nat, p': nat :: p < p' < |procs| && procs[p].state != UNUSED && procs[p'].state != UNUSED ==>
        procs[p].pid != procs[p'].pid)
    && (forall i: nat :: i < |reaped| ==> reaped[i] < nextpid && reaped[i] in exited)
    && (forall i: nat, j: nat :: i < j < |reaped| ==> reaped[i] != reaped[j])
  }

  ghost predicate Inv(s: State) {
    && ProcsOk(s.procs) && ForksOk(s.procs) && GuardOk(s.procs, s.locks) && WaitOk(s.procs, s.wait)
    && LockOk(s.procs, s.locks) && HeldOk(s.procs, s.locks) && ParentOk(s.procs, s.wait) && ScanOk(s.procs)
    && ExitOk(s.procs) && KidsOk(s.procs)
    && PidsOk(s.procs, s.nextpid, s.reaped, s.exited)
  }

  // ---------- from what an effect touches to the whole table ----------

  lemma ProcsEffect(s: State, e: Effect)
    requires Fits(s, e) && ProcsOk(s.procs) && ProcOk(e.q, e.p, |s.procs|) && ProcOk(e.r, e.k, |s.procs|)
    ensures ProcsOk(Apply(s, e).procs)
  {
  }

  predicate GuardLocal(s: State, e: Effect)
    requires Fits(s, e)
  {
    && (e.k != e.p ==>
          && (InGuard(e.r.pc) <==> InGuard(s.procs[e.k].pc))
          && (InGuard(e.r.pc) ==> e.r.pc == s.procs[e.k].pc))
    && var g, g' := InGuard(s.procs[e.p].pc), InGuard(e.q.pc);
       if e.l.Some? && e.lock.guard != s.locks[e.l.value].guard then
         if e.lock.guard.Some? then s.locks[e.l.value].guard.None? && e.lock.guard == Some(e.p) && !g && g'
           && e.q.pc.l == e.l.value
         else g && s.procs[e.p].pc.l == e.l.value && !g'
       else (g <==> g') && (g ==> e.q.pc.l == s.procs[e.p].pc.l)
  }

  lemma GuardEffect(s: State, e: Effect)
    requires Fits(s, e) && GuardOk(s.procs, s.locks) && GuardLocal(s, e)
    ensures GuardOk(Apply(s, e).procs, Apply(s, e).locks)
  {
    var s' := Apply(s, e);
    forall p: nat | p < |s'.procs| && InGuard(s'.procs[p].pc)
      ensures s'.procs[p].pc.l < |s'.locks| && s'.locks[s'.procs[p].pc.l].guard == Some(p)
    {
      GuardEffectBy(s, e, p);
    }
    forall l: nat | l < |s'.locks| && s'.locks[l].guard.Some?
      ensures var h := s'.locks[l].guard.value; h < |s'.procs| && InGuard(s'.procs[h].pc) && s'.procs[h].pc.l == l
    {
      GuardEffectAt(s, e, l);
    }
  }

  lemma GuardEffectBy(s: State, e: Effect, p: nat)
    requires Fits(s, e) && GuardOk(s.procs, s.locks) && GuardLocal(s, e)
    requires p < |s.procs| && InGuard(Apply(s, e).procs[p].pc)
    ensures var s' := Apply(s, e); s'.procs[p].pc.l < |s'.locks| && s'.locks[s'.procs[p].pc.l].guard == Some(p)
  {
  }

  lemma GuardEffectAt(s: State, e: Effect, l: nat)
    requires Fits(s, e) && GuardOk(s.procs, s.locks) && GuardLocal(s, e)
    requires l < |s.locks| && Apply(s, e).locks[l].guard.Some?
    ensures var s' := Apply(s, e);
            var h := s'.locks[l].guard.value; h < |s'.procs| && InGuard(s'.procs[h].pc) && s'.procs[h].pc.l == l
  {
  }

  predicate WaitLocal(s: State, e: Effect)
    requires Fits(s, e)
  {
    && (e.k != e.p ==> (InWait(e.r.pc) <==> InWait(s.procs[e.k].pc)))
    && (if e.wait == s.wait then InWait(e.q.pc) <==> InWait(s.procs[e.p].pc)
        else
          || (s.wait.None? && e.wait == Some(e.p) && InWait(e.q.pc))
          || (s.wait == Some(e.p) && e.wait.None? && !InWait(e.q.pc)))
  }

  lemma WaitEffect(s: State, e: Effect)
    requires Fits(s, e) && WaitOk(s.procs, s.wait) && WaitLocal(s, e)
    ensures WaitOk(Apply(s, e).procs, e.wait)
  {
  }

  predicate LockLocal(s: State, e: Effect)
    requires Fits(s, e)
  {
    var q, r := s.procs[e.p], s.procs[e.k];
    && (e.q.chan.Some? && e.q.chan.value.OnLock? && e.q.chan != q.chan ==>
          e.l.None? && e.q.chan.value.l < |s.locks| && s.locks[e.q.chan.value.l].locked)
    && (e.k != e.p && e.r.chan.Some? ==> e.r.chan == r.chan)
    && (e.k != e.p && r.pc.RelWake? ==> e.r.pc == r.pc)
    && (q.pc.RelWake? ==>
          || e.q.pc == q.pc || q.pc.k >= |s.procs|
          || (e.q.pc == RelWake(q.pc.l, q.pc.k + 1) && e.k == q.pc.k && e.r.chan != Some(OnLock(q.pc.l))))
    && (e.l.Some? && !e.lock.locked && s.locks[e.l.value].locked ==>
        e.q.pc == RelWake(e.l.value, 0) && e.lock.guard == Some(e.p))
  }

  lemma LockEffect(s: State, e: Effect)
    requires Fits(s, e) && GuardOk(s.procs, s.locks) && LockOk(s.procs, s.locks) && GuardLocal(s, e) && LockLocal(s, e)
    ensures LockOk(Apply(s, e).procs, Apply(s, e).locks)
  {
    var s' := Apply(s, e);
    forall l: nat, p: nat | l < |s'.locks| && p < |s'.procs| && s'.procs[p].chan == Some(OnLock(l))
      && !s'.locks[l].locked
      ensures Waking(s'.procs, s'.locks[l], l, p)
    {
      LockEffectAt(s, e, l, p);
    }
  }

  lemma LockEffectAt(s: State, e: Effect, l: nat, p: nat)
    requires Fits(s, e) && GuardOk(s.procs, s.locks) && LockOk(s.procs, s.locks) && GuardLocal(s, e) && LockLocal(s, e)
    requires l < |s.locks| && p < |s.procs|
    requires Apply(s, e).procs[p].chan == Some(OnLock(l)) && !Apply(s, e).locks[l].locked
    ensures Waking(Apply(s, e).procs, Apply(s, e).locks[l], l, p)
  {
  }

  predicate HeldLocal(s: State, e: Effect)
    requires Fits(s, e)
  {
    var q, r := s.procs[e.p], s.procs[e.k];
    && (e.k != e.p ==> e.r.held == r.held && (e.r.pid == r.pid || r.held == {}))
    && (e.q.pid == q.pid || q.held == {})
    && (if e.l.None? || (e.lock.locked == s.locks[e.l.value].locked && e.lock.pid == s.locks[e.l.value].pid
                         && e.lock.holder == s.locks[e.l.value].holder)
        then e.q.held == q.held
        else if e.lock.locked then !s.locks[e.l.value].locked && e.lock.holder == Some(e.p) && e.lock.pid == e.q.pid
          && e.q.held == q.held + {e.l.value}
        else e.l.value in q.held && e.lock.holder.None? && e.q.held == q.held - {e.l.value})
  }

  lemma HeldEffect(s: State, e: Effect)
    requires Fits(s, e) && HeldOk(s.procs, s.locks) && HeldLocal(s, e)
    ensures HeldOk(Apply(s, e).procs, Apply(s, e).locks)
  {
    var s' := Apply(s, e);
    forall p: nat, l: nat | p < |s'.procs| && l in s'.procs[p].held ensures HolderIs(s'.locks, l, p) {
      HeldEffectBy(s, e, p, l);
    }
    forall l: nat | l < |s'.locks|
      ensures (s'.locks[l].locked <==> s'.locks[l].holder.Some?) &&
              (s'.locks[l].holder.Some? ==>
                 var h := s'.locks[l].holder.value;
                 h < |s'.procs| && l in s'.procs[h].held && s'.locks[l].pid == s'.procs[h].pid)
    {
      HeldEffectAt(s, e, l);
    }
  }

  lemma HeldEffectBy(s: State, e: Effect, p: nat, l: nat)
    requires Fits(s, e) && HeldOk(s.procs, s.locks) && HeldLocal(s, e) && p < |s.procs|
    requires l in Apply(s, e).procs[p].held
    ensures HolderIs(Apply(s, e).locks, l, p)
  {
    if p == e.p && e.l == Some(l) && e.lock.holder == Some(p) {
    } else {
      assert l in s.procs[p].held;
      assert HolderIs(s.locks, l, p);
    }
  }

  lemma HeldEffectAt(s: State, e: Effect, l: nat)
    requires Fits(s, e) && HeldOk(s.procs, s.locks) && HeldLocal(s, e) && l < |s.locks|
    ensures var s' := Apply(s, e);
            (s'.locks[l].locked <==> s'.locks[l].holder.Some?) &&
            (s'.locks[l].holder.Some? ==>
               var h := s'.locks[l].holder.value;
               h < |s'.procs| && l in s'.procs[h].held && s'.locks[l].pid == s'.procs[h].pid)
  {
  }

  ghost predicate ParentLocal(s: State, e: Effect)
    requires Fits(s, e)
  {
    var q, r := s.procs[e.p], s.procs[e.k];
    && (e.q.chan == Some(OnProc(e.p)) && e.q.chan != q.chan ==> e.k == e.p && NoZombies(s.procs, e.p))
    && (e.k != e.p && e.r.chan.Some? ==> e.r.chan == r.chan)
    && (e.k != e.p && e.r.state == ZOMBIE && (r.state != ZOMBIE || r.parent != e.r.parent) ==>
          e.r.parent == Some(INIT) && e.wait == Some(e.p) && e.q.pc.OrphanWake? && e.q.pc.j <= INIT)
    && (e.q.state == ZOMBIE && (q.state != ZOMBIE || q.parent != e.q.parent) ==>
          && e.k == e.p && e.q.parent == q.parent
          && (q.parent.Some? ==> q.parent.value != e.p && q.parent.value < |s.procs|)
          && (q.parent.Some? ==> s.procs[q.parent.value].chan != Some(OnProc(q.parent.value))))
    && (s.wait.Some? && s.wait.value == e.p && q.pc.OrphanWake? && q.pc.j <= INIT ==>
          || (e.q.pc == q.pc && e.wait == s.wait)
          || (e.k == INIT && e.r.chan != Some(OnProc(INIT))))
    && (e.wait != s.wait ==> s.wait == None || s.wait == Some(e.p))
    && (e.k != e.p && InWait(r.pc) ==> e.r.pc == r.pc)
  }

  lemma ParentEffect(s: State, e: Effect)
    requires Fits(s, e) && WaitOk(s.procs, s.wait) && ParentOk(s.procs, s.wait) && ParentLocal(s, e)
    ensures ParentOk(Apply(s, e).procs, e.wait)
  {
    var s' := Apply(s, e);
    forall p: nat, c: nat | p < |s'.procs| && c < |s'.procs| && s'.procs[p].chan == Some(OnProc(p))
      && ZombieChild(s'.procs[c], p)
      ensures Rousing(s'.procs, e.wait, p)
    {
      ParentEffectAt(s, e, p, c);
    }
  }

  lemma ParentEffectAt(s: State, e: Effect, p: nat, c: nat)
    requires Fits(s, e) && WaitOk(s.procs, s.wait) && ParentOk(s.procs, s.wait) && ParentLocal(s, e) && p < |s.procs|
    requires c < |s.procs|
    requires Apply(s, e).procs[p].chan == Some(OnProc(p)) && ZombieChild(Apply(s, e).procs[c], p)
    ensures Rousing(Apply(s, e).procs, e.wait, p)
  {
  }

  predicate ScanLocal(s: State, e: Effect)
    requires Fits(s, e)
  {
    var q, r := s.procs[e.p], s.procs[e.k];
    && (e.q.pc.Scan? && e.q.pc != q.pc ==>
          e.q.pc.k == 0 || (q.pc.Scan? && e.q.pc.k == q.pc.k + 1 && e.k == e.p && q.pc.k < |s.procs|
                            && !ZombieChild(s.procs[q.pc.k], e.p)
                            && e.q.state == q.state && e.q.parent == q.parent))
    && (e.k != e.p && e.r.pc.Scan? ==> e.r.pc == r.pc)
    && (!InWait(q.pc) ==>
          && (e.q.state == ZOMBIE ==> q.state == ZOMBIE && e.q.parent == q.parent)
          && (e.r.state == ZOMBIE ==> r.state == ZOMBIE && e.r.parent == r.parent))
    && (InWait(q.pc) && e.q.pc.Scan? ==> e.q.state != ZOMBIE && e.k == e.p)
  }

  lemma ScanEffect(s: State, e: Effect)
    requires Fits(s, e) && WaitOk(s.procs, s.wait) && ScanOk(s.procs) && ScanLocal(s, e)
    ensures ScanOk(Apply(s, e).procs)
  {
    var s' := Apply(s, e);
    forall p: nat, c: nat | p < |s'.procs| && s'.procs[p].pc.Scan? && c < s'.procs[p].pc.k && c < |s'.procs|
      ensures !ZombieChild(s'.procs[c], p)
    {
      ScanEffectAt(s, e, p, c);
    }
  }

  lemma ScanEffectAt(s: State, e: Effect, p: nat, c: nat)
    requires Fits(s, e) && WaitOk(s.procs, s.wait) && ScanOk(s.procs) && ScanLocal(s, e) && p < |s.procs|
    requires c < |s.procs|
    requires var q := Apply(s, e).procs[p]; q.pc.Scan? && c < q.pc.k
    ensures !ZombieChild(Apply(s, e).procs[c], p)
  {
    assert InWait(s.procs[p].pc) ==> s.wait == Some(p);
    assert InWait(s.procs[e.p].pc) ==> s.wait == Some(e.p);
  }

  predicate ExitLocal(s: State, e: Effect)
    requires Fits(s, e)
  {
    var q, r := s.procs[e.p], s.procs[e.k];
    && WokenOk(Apply(s, e).procs, e.q)
    && (e.k != e.p && InWait(e.r.pc) ==> e.r.pc == r.pc && (e.r.parent == r.parent || InWait(q.pc)))
    && (e.q.chan.Some? && e.q.chan.value.OnProc? && e.q.chan != q.chan ==> InWait(q.pc))
    && (e.k != e.p && e.r.chan.Some? ==> e.r.chan == r.chan)
  }

  lemma ExitEffect(s: State, e: Effect)
    requires Fits(s, e) && WaitOk(s.procs, s.wait) && ExitOk(s.procs) && ExitLocal(s, e)
    ensures ExitOk(Apply(s, e).procs)
  {
    var s' := Apply(s, e);
    forall p: nat | p < |s'.procs| ensures WokenOk(s'.procs, s'.procs[p]) {
      ExitEffectAt(s, e, p);
    }
  }

  lemma ExitEffectAt(s: State, e: Effect, p: nat)
    requires Fits(s, e) && WaitOk(s.procs, s.wait) && ExitOk(s.procs) && ExitLocal(s, e) && p < |s.procs|
    ensures WokenOk(Apply(s, e).procs, Apply(s, e).procs[p])
  {
    assert InWait(s.procs[p].pc) ==> s.wait == Some(p);
    assert InWait(s.procs[e.p].pc) ==> s.wait == Some(e.p);
    assert WokenOk(s.procs, s.procs[p]);
  }

  predicate PidsLocal(s: State, e: Effect)
    requires Fits(s, e)
  {
    var q, r := s.procs[e.p], s.procs[e.k];
    && q.state != UNUSED && e.q.state != UNUSED && e.q.pid == q.pid && s.exited <= e.exited && s.nextpid <= e.nextpid
    && (e.q.state == ZOMBIE ==> q.state == ZOMBIE || q.pid in e.exited)
    && (e.k != e.p ==> (e.r.state == ZOMBIE ==> r.state == ZOMBIE))
    && (e.k != e.p && e.r.state != UNUSED ==>
          if r.state != UNUSED then e.r.pid == r.pid else e.r.pid == s.nextpid && e.nextpid == s.nextpid + 1)
    && (e.reaped == s.reaped || (e.k != e.p && r.state == ZOMBIE && e.r.state == UNUSED
                                 && e.reaped == s.reaped + [r.pid]))
  }

  lemma PidsEffect(s: State, e: Effect)
    requires Fits(s, e) && PidsOk(s.procs, s.nextpid, s.reaped, s.exited) && PidsLocal(s, e)
    ensures PidsOk(Apply(s, e).procs, e.nextpid, e.reaped, e.exited)
  {
  }

  predicate ForksLocal(s: State, e: Effect)
    requires Fits(s, e)
  {
    var q, r := s.procs[e.p], s.procs[e.k];
    && (q.state == USED <==> e.q.state == USED) && e.q.parent == q.parent
    && (e.k != e.p && r.parent.None? && e.r.parent.Some? ==> e.q.pc.Forked? && Forks(q.pc, e.k))
    && (e.k != e.p && r.parent.Some? && e.r.parent.None? ==> r.state != USED)
    && (e.q.pc.Forking? && e.q.pc != q.pc ==> e.r.parent.None?)
    && (e.q.pc.Forked? && e.q.pc != q.pc ==> e.r.parent.Some?)
    && (e.k != e.p ==> (e.r.pc.Forking? || e.r.pc.Forked?) ==> e.r.pc == r.pc)
    && (if (e.q.pc.Forking? || e.q.pc.Forked?) && e.q.pc != q.pc then
          e.k != e.p && e.q.pc.n == e.k && e.r.state == USED && (r.state == UNUSED || Forks(q.pc, e.k))
        else e.k != e.p && r.state == USED && e.r.state != USED ==>
          Forks(q.pc, e.k) && !e.q.pc.Forking? && !e.q.pc.Forked?)
  }

  lemma ForksEffect(s: State, e: Effect)
    requires Fits(s, e) && ForksOk(s.procs) && ForksLocal(s, e)
    ensures ForksOk(Apply(s, e).procs)
  {
    var s' := Apply(s, e);
    forall p: nat | p < |s'.procs| && (s'.procs[p].pc.Forking? || s'.procs[p].pc.Forked?)
      ensures s'.procs[p].pc.n < |s'.procs| && Made(s'.procs[s'.procs[p].pc.n], s'.procs[p].pc)
    {
      ForksEffectAt(s, e, p);
    }
    forall p: nat, p': nat | p < p' < |s'.procs| && (s'.procs[p].pc.Forking? || s'.procs[p].pc.Forked?)
      ensures !Forks(s'.procs[p'].pc, s'.procs[p].pc.n)
    {
      ForksEffectPair(s, e, p, p');
    }
  }

  lemma ForksEffectAt(s: State, e: Effect, p: nat)
    requires Fits(s, e) && ForksOk(s.procs) && ForksLocal(s, e) && p < |s.procs|
    requires var pc := Apply(s, e).procs[p].pc; pc.Forking? || pc.Forked?
    ensures var procs := Apply(s, e).procs; procs[p].pc.n < |procs| && Made(procs[procs[p].pc.n], procs[p].pc)
  {
  }

  lemma ForksEffectPair(s: State, e: Effect, p: nat, p': nat)
    requires Fits(s, e) && ForksOk(s.procs) && ForksLocal(s, e) && p < p' < |s.procs|
    requires var pc := Apply(s, e).procs[p].pc; pc.Forking? || pc.Forked?
    ensures !Forks(Apply(s, e).procs[p'].pc, Apply(s, e).procs[p].pc.n)
  {
  }

  ghost predicate KidsLocal(s: State, e: Effect)
    requires Fits(s, e)
  {
    var q, r := s.procs[e.p], s.procs[e.k];
    && e.q.parent == q.parent
    && (e.k != e.p && e.r.parent != r.parent ==>
          && (s.wait.None? || s.wait == Some(e.p)) && !e.q.pc.Scan?
          && (e.r.parent.None? || (e.r.parent == Some(e.p) && e.q.pc.Forked? && e.q.state == RUNNING)
              || (e.r.parent == Some(INIT) && e.p != INIT && s.wait == Some(e.p))))
    && (forall c: nat :: c < |s.procs| && Left(e.q, c) ==> Left(q, c) || Apply(s, e).procs[c].parent != Some(e.p))
    && (e.k != e.p ==> forall c: nat :: c < |s.procs| && Left(e.r, c) ==> Left(r, c))
    && (e.k != e.p && e.r.pc.Scan? ==> e.r.pc == r.pc)
    && (e.q.pc.Scan? && e.q.pc.kids && e.q.pc != q.pc ==>
          && e.k == e.p && q.pc.Scan? && e.q.pc.k == q.pc.k + 1 && q.pc.k < |s.procs|
          && (q.pc.kids || s.procs[q.pc.k].parent == Some(e.p)))
  }

  lemma KidsEffect(s: State, e: Effect)
    requires Fits(s, e) && ProcsOk(s.procs) && WaitOk(s.procs, s.wait) && KidsOk(s.procs) && KidsLocal(s, e)
    ensures KidsOk(Apply(s, e).procs)
  {
    hide ProcsOk, WaitOk, KidsOk, KidsLocal, Left, HasChild;
    var s' := Apply(s, e);
    forall p: nat, c: nat | p < |s'.procs| && c < |s'.procs| && Left(s'.procs[p], c)
      ensures s'.procs[c].parent != Some(p)
    {
      LeftEffectAt(s, e, p, c);
    }
    forall p: nat | p < |s'.procs| && s'.procs[p].pc.Scan? && s'.procs[p].pc.kids
      ensures HasChild(s'.procs, p, s'.procs[p].pc.k)
    {
      ChildEffectAt(s, e, p);
    }
    KidsFrom(s'.procs);
  }

  lemma KidsFrom(procs: seq<Proc>)
    requires forall p: nat, c: nat :: p < |procs| && c < |procs| && Left(procs[p], c) ==> procs[c].parent != Some(p)
    requires forall p: nat :: p < |procs| && procs[p].pc.Scan? && procs[p].pc.kids ==>
               HasChild(procs, p, procs[p].pc.k)
    ensures KidsOk(procs)
  {
  }

  lemma LeftEffectAt(s: State, e: Effect, p: nat, c: nat)
    requires Fits(s, e) && ProcsOk(s.procs) && WaitOk(s.procs, s.wait) && KidsOk(s.procs) && KidsLocal(s, e)
    requires p < |s.procs| && c < |s.procs| && Left(Apply(s, e).procs[p], c)
    ensures Apply(s, e).procs[c].parent != Some(p)
  {
    hide HasChild;
    assert InWait(s.procs[p].pc) <==> s.wait == Some(p);
    assert ProcOk(s.procs[INIT], INIT, |s.procs|);
  }

  lemma ChildEffectAt(s: State, e: Effect, p: nat)
    requires Fits(s, e) && WaitOk(s.procs, s.wait) && KidsOk(s.procs) && KidsLocal(s, e)
    requires p < |s.procs| && var pc := Apply(s, e).procs[p].pc; pc.Scan? && pc.kids
    ensures HasChild(Apply(s, e).procs, p, Apply(s, e).procs[p].pc.k)
  {
    hide Left;
    var s' := Apply(s, e);
    var q := s.procs[p];
    assert InWait(q.pc) <==> s.wait == Some(p);
    if p == e.p && e.q.pc != q.pc && !q.pc.kids {
      assert s'.procs[q.pc.k].parent == Some(p);
    } else {
      var c: nat :| c < q.pc.k && c < |s.procs| && s.procs[c].parent == Some(p);
      assert s'.procs[c].parent == Some(p);
    }
  }

  // ---------- every action has such an effect ----------

  ghost predicate NoZombies(procs: seq<Proc>, p: nat) { forall c: nat :: c < |procs| ==> !ZombieChild(procs[c], p) }

  /** What the invariant says about the processes and the lock that an action touches. */
  ghost predicate Facts(s: State, p: nat, k: nat) {
    && p < |s.procs| && k < |s.procs| && |s.procs| > INIT
    && var q, r := s.procs[p], s.procs[k];
    && ProcOk(q, p, |s.procs|) && ProcOk(r, k, |s.procs|)
    && (InGuard(q.pc) ==> q.pc.l < |s.locks| && s.locks[q.pc.l].guard == Some(p))
    && (q.pc.RelTest? ==> s.locks[q.pc.l].locked) && (q.pc.Scan? && q.pc.k == |s.procs| ==> NoZombies(s.procs, p))
    && (InWait(q.pc) <==> s.wait == Some(p)) && (InWait(r.pc) <==> s.wait == Some(k))
    && (q.pc.Forking? || q.pc.Forked? ==> q.pc.n < |s.procs| && Made(s.procs[q.pc.n], q.pc))
    && WokenOk(s.procs, q)
  }

  lemma FactsHold(s: State, a: Action)
    requires Inv(s) && Enabled(s, a)
    ensures Fits(s, Does(s, a)) && Facts(s, Does(s, a).p, Does(s, a).k)
  {
    FitsHolds(s, a);
    hide Enabled, Does;
  }

  ghost predicate Locks(s: State, e: Effect) {
    && Fits(s, e) && ProcOk(e.q, e.p, |s.procs|) && ProcOk(e.r, e.k, |s.procs|)
    && GuardLocal(s, e) && WaitLocal(s, e) && LockLocal(s, e) && HeldLocal(s, e)
  }

  ghost predicate Families(s: State, e: Effect) {
    && Fits(s, e) && ParentLocal(s, e) && ScanLocal(s, e) && ExitLocal(s, e) && PidsLocal(s, e) && ForksLocal(s, e)
    && KidsLocal(s, e)
  }

  lemma LockingProcs(s: State, a: LockAct)
    requires LockingEnabled(s, a) && Fits(s, LockingDoes(s, a)) && Facts(s, LockingDoes(s, a).p, LockingDoes(s, a).k)
    ensures var e := LockingDoes(s, a); Placed(e.q, e.p, |s.procs|) && Placed(e.r, e.k, |s.procs|)
  {
    hide WokenOk, NoZombies, Registered;
  }

  lemma LockingChans(s: State, a: LockAct)
    requires LockingEnabled(s, a) && Fits(s, LockingDoes(s, a)) && Facts(s, LockingDoes(s, a).p, LockingDoes(s, a).k)
    ensures var e := LockingDoes(s, a); Registered(e.q, e.p, |s.procs|) && Registered(e.r, e.k, |s.procs|)
  {
    hide WokenOk, NoZombies, Placed;
  }

  lemma LockingGuards(s: State, a: LockAct)
    requires LockingEnabled(s, a) && Fits(s, LockingDoes(s, a)) && Facts(s, LockingDoes(s, a).p, LockingDoes(s, a).k)
    ensures var e := LockingDoes(s, a); GuardLocal(s, e) && WaitLocal(s, e)
  {
    hide WokenOk, NoZombies, Placed, Registered;
  }

  lemma LockingHolds(s: State, a: LockAct)
    requires LockingEnabled(s, a) && Fits(s, LockingDoes(s, a)) && Facts(s, LockingDoes(s, a).p, LockingDoes(s, a).k)
    ensures var e := LockingDoes(s, a); LockLocal(s, e) && HeldLocal(s, e)
  {
    hide WokenOk, NoZombies;
  }

  lemma LockingParents(s: State, a: LockAct)
    requires LockingEnabled(s, a) && Fits(s, LockingDoes(s, a)) && Facts(s, LockingDoes(s, a).p, LockingDoes(s, a).k)
    ensures var e := LockingDoes(s, a); ParentLocal(s, e) && ScanLocal(s, e)
  {
  }

  lemma LockingExits(s: State, a: LockAct)
    requires LockingEnabled(s, a) && Fits(s, LockingDoes(s, a)) && Facts(s, LockingDoes(s, a).p, LockingDoes(s, a).k)
    ensures var e := LockingDoes(s, a); ExitLocal(s, e) && PidsLocal(s, e)
  {
  }

  lemma LockingMakes(s: State, a: LockAct)
    requires LockingEnabled(s, a) && Fits(s, LockingDoes(s, a)) && Facts(s, LockingDoes(s, a).p, LockingDoes(s, a).k)
    ensures var e := LockingDoes(s, a); ForksLocal(s, e)
  {
    hide WokenOk, NoZombies, Registered;
  }

  lemma LockingKids(s: State, a: LockAct)
    requires LockingEnabled(s, a) && Fits(s, LockingDoes(s, a)) && Facts(s, LockingDoes(s, a).p, LockingDoes(s, a).k)
    ensures KidsLocal(s, LockingDoes(s, a))
  {
    hide WokenOk, NoZombies;
  }

  lemma LockingLocal(s: State, a: LockAct)
    requires LockingEnabled(s, a) && Fits(s, LockingDoes(s, a)) && Facts(s, LockingDoes(s, a).p, LockingDoes(s, a).k)
    ensures Locks(s, LockingDoes(s, a)) && Families(s, LockingDoes(s, a))
  {
    hide Facts, Fits, LockingEnabled, LockingDoes, Placed, Registered, GuardLocal, WaitLocal, LockLocal, HeldLocal;
    hide ParentLocal, ScanLocal, ExitLocal, PidsLocal, ForksLocal, KidsLocal;
    LockingProcs(s, a);
    LockingChans(s, a);
    LockingGuards(s, a);
    LockingHolds(s, a);
    LockingParents(s, a);
    LockingExits(s, a);
    LockingMakes(s, a);
    LockingKids(s, a);
  }

  lemma WaitingProcs(s: State, a: WaitAct)
    requires WaitingEnabled(s, a) && Fits(s, WaitingDoes(s, a)) && Facts(s, WaitingDoes(s, a).p, WaitingDoes(s, a).k)
    ensures var e := WaitingDoes(s, a); Placed(e.q, e.p, |s.procs|) && Placed(e.r, e.k, |s.procs|)
  {
    hide WokenOk, NoZombies, Registered;
  }

  lemma WaitingChans(s: State, a: WaitAct)
    requires WaitingEnabled(s, a) && Fits(s, WaitingDoes(s, a)) && Facts(s, WaitingDoes(s, a).p, WaitingDoes(s, a).k)
    ensures var e := WaitingDoes(s, a); Registered(e.q, e.p, |s.procs|) && Registered(e.r, e.k, |s.procs|)
  {
    hide WokenOk, NoZombies, Placed;
  }

  lemma WaitingGuards(s: State, a: WaitAct)
    requires WaitingEnabled(s, a) && Fits(s, WaitingDoes(s, a)) && Facts(s, WaitingDoes(s, a).p, WaitingDoes(s, a).k)
    ensures var e := WaitingDoes(s, a); GuardLocal(s, e) && WaitLocal(s, e)
  {
    hide WokenOk, NoZombies, Placed, Registered;
  }

  lemma WaitingHolds(s: State, a: WaitAct)
    requires WaitingEnabled(s, a) && Fits(s, WaitingDoes(s, a)) && Facts(s, WaitingDoes(s, a).p, WaitingDoes(s, a).k)
    ensures var e := WaitingDoes(s, a); LockLocal(s, e) && HeldLocal(s, e)
  {
    hide WokenOk, NoZombies, Registered;
  }

  lemma WaitingParents(s: State, a: WaitAct)
    requires WaitingEnabled(s, a) && Fits(s, WaitingDoes(s, a)) && Facts(s, WaitingDoes(s, a).p, WaitingDoes(s, a).k)
    ensures var e := WaitingDoes(s, a); ParentLocal(s, e) && ScanLocal(s, e)
  {
  }

  lemma WaitingExits(s: State, a: WaitAct)
    requires WaitingEnabled(s, a) && Fits(s, WaitingDoes(s, a)) && Facts(s, WaitingDoes(s, a).p, WaitingDoes(s, a).k)
    ensures var e := WaitingDoes(s, a); ExitLocal(s, e) && PidsLocal(s, e)
  {
  }

  lemma WaitingMakes(s: State, a: WaitAct)
    requires WaitingEnabled(s, a) && Fits(s, WaitingDoes(s, a)) && Facts(s, WaitingDoes(s, a).p, WaitingDoes(s, a).k)
    ensures var e := WaitingDoes(s, a); ForksLocal(s, e)
  {
    hide WokenOk, NoZombies, Registered;
  }

  lemma WaitingKids(s: State, a: WaitAct)
    requires WaitingEnabled(s, a) && Fits(s, WaitingDoes(s, a)) && Facts(s, WaitingDoes(s, a).p, WaitingDoes(s, a).k)
    ensures KidsLocal(s, WaitingDoes(s, a))
  {
    hide WokenOk, NoZombies;
  }

  lemma WaitingLocal(s: State, a: WaitAct)
    requires WaitingEnabled(s, a) && Fits(s, WaitingDoes(s, a)) && Facts(s, WaitingDoes(s, a).p, WaitingDoes(s, a).k)
    ensures Locks(s, WaitingDoes(s, a)) && Families(s, WaitingDoes(s, a))
  {
    hide Facts, Fits, WaitingEnabled, WaitingDoes, Placed, Registered, GuardLocal, WaitLocal, LockLocal, HeldLocal;
    hide ParentLocal, ScanLocal, ExitLocal, PidsLocal, ForksLocal, KidsLocal;
    WaitingProcs(s, a);
    WaitingChans(s, a);
    WaitingGuards(s, a);
    WaitingHolds(s, a);
    WaitingParents(s, a);
    WaitingExits(s, a);
    WaitingMakes(s, a);
    WaitingKids(s, a);
  }

  lemma LeavingProcs(s: State, a: ExitAct)
    requires LeavingEnabled(s, a) && Fits(s, LeavingDoes(s, a)) && Facts(s, LeavingDoes(s, a).p, LeavingDoes(s, a).k)
    ensures var e := LeavingDoes(s, a); Placed(e.q, e.p, |s.procs|) && Placed(e.r, e.k, |s.procs|)
  {
    hide WokenOk, NoZombies, Registered;
  }

  lemma LeavingChans(s: State, a: ExitAct)
    requires LeavingEnabled(s, a) && Fits(s, LeavingDoes(s, a)) && Facts(s, LeavingDoes(s, a).p, LeavingDoes(s, a).k)
    ensures var e := LeavingDoes(s, a); Registered(e.q, e.p, |s.procs|) && Registered(e.r, e.k, |s.procs|)
  {
    hide WokenOk, NoZombies, Placed;
  }

  lemma LeavingGuards(s: State, a: ExitAct)
    requires LeavingEnabled(s, a) && Fits(s, LeavingDoes(s, a)) && Facts(s, LeavingDoes(s, a).p, LeavingDoes(s, a).k)
    ensures var e := LeavingDoes(s, a); GuardLocal(s, e) && WaitLocal(s, e)
  {
    hide WokenOk, NoZombies, Placed, Registered;
  }

  lemma LeavingHolds(s: State, a: ExitAct)
    requires LeavingEnabled(s, a) && Fits(s, LeavingDoes(s, a)) && Facts(s, LeavingDoes(s, a).p, LeavingDoes(s, a).k)
    ensures var e := LeavingDoes(s, a); LockLocal(s, e) && HeldLocal(s, e)
  {
    hide WokenOk, NoZombies, Registered;
  }

  lemma LeavingParents(s: State, a: ExitAct)
    requires LeavingEnabled(s, a) && Fits(s, LeavingDoes(s, a)) && Facts(s, LeavingDoes(s, a).p, LeavingDoes(s, a).k)
    ensures var e := LeavingDoes(s, a); ParentLocal(s, e) && ScanLocal(s, e)
  {
  }

  lemma LeavingExits(s: State, a: ExitAct)
    requires LeavingEnabled(s, a) && Fits(s, LeavingDoes(s, a)) && Facts(s, LeavingDoes(s, a).p, LeavingDoes(s, a).k)
    ensures var e := LeavingDoes(s, a); ExitLocal(s, e) && PidsLocal(s, e)
  {
  }

  lemma LeavingMakes(s: State, a: ExitAct)
    requires LeavingEnabled(s, a) && Fits(s, LeavingDoes(s, a)) && Facts(s, LeavingDoes(s, a).p, LeavingDoes(s, a).k)
    ensures var e := LeavingDoes(s, a); ForksLocal(s, e)
  {
    hide WokenOk, NoZombies, Registered;
  }

  lemma LeavingKids(s: State, a: ExitAct)
    requires LeavingEnabled(s, a) && Fits(s, LeavingDoes(s, a)) && Facts(s, LeavingDoes(s, a).p, LeavingDoes(s, a).k)
    ensures KidsLocal(s, LeavingDoes(s, a))
  {
    hide WokenOk, NoZombies;
  }

  lemma LeavingLocal(s: State, a: ExitAct)
    requires LeavingEnabled(s, a) && Fits(s, LeavingDoes(s, a)) && Facts(s, LeavingDoes(s, a).p, LeavingDoes(s, a).k)
    ensures Locks(s, LeavingDoes(s, a)) && Families(s, LeavingDoes(s, a))
  {
    hide Facts, Fits, LeavingEnabled, LeavingDoes, Placed, Registered, GuardLocal, WaitLocal, LockLocal, HeldLocal;
    hide ParentLocal, ScanLocal, ExitLocal, PidsLocal, ForksLocal, KidsLocal;
    LeavingProcs(s, a);
    LeavingChans(s, a);
    LeavingGuards(s, a);
    LeavingHolds(s, a);
    LeavingParents(s, a);
    LeavingExits(s, a);
    LeavingMakes(s, a);
    LeavingKids(s, a);
  }

  lemma LivingProcs(s: State, a: LifeAct)
    requires LivingEnabled(s, a) && Fits(s, LivingDoes(s, a)) && Facts(s, LivingDoes(s, a).p, LivingDoes(s, a).k)
    ensures var e := LivingDoes(s, a); Placed(e.q, e.p, |s.procs|) && Placed(e.r, e.k, |s.procs|)
  {
    hide WokenOk, NoZombies, Registered;
  }

  lemma LivingChans(s: State, a: LifeAct)
    requires LivingEnabled(s, a) && Fits(s, LivingDoes(s, a)) && Facts(s, LivingDoes(s, a).p, LivingDoes(s, a).k)
    ensures var e := LivingDoes(s, a); Registered(e.q, e.p, |s.procs|) && Registered(e.r, e.k, |s.procs|)
  {
    hide WokenOk, NoZombies, Placed;
  }

  lemma LivingGuards(s: State, a: LifeAct)
    requires LivingEnabled(s, a) && Fits(s, LivingDoes(s, a)) && Facts(s, LivingDoes(s, a).p, LivingDoes(s, a).k)
    ensures var e := LivingDoes(s, a); GuardLocal(s, e) && WaitLocal(s, e)
  {
    hide WokenOk, NoZombies, Registered;
  }

  lemma LivingHolds(s: State, a: LifeAct)
    requires LivingEnabled(s, a) && Fits(s, LivingDoes(s, a)) && Facts(s, LivingDoes(s, a).p, LivingDoes(s, a).k)
    ensures var e := LivingDoes(s, a); LockLocal(s, e) && HeldLocal(s, e)
  {
    hide WokenOk, NoZombies, Registered;
  }

  lemma LivingParents(s: State, a: LifeAct)
    requires LivingEnabled(s, a) && Fits(s, LivingDoes(s, a)) && Facts(s, LivingDoes(s, a).p, LivingDoes(s, a).k)
    ensures var e := LivingDoes(s, a); ParentLocal(s, e) && ScanLocal(s, e)
  {
  }

  lemma LivingExits(s: State, a: LifeAct)
    requires LivingEnabled(s, a) && Fits(s, LivingDoes(s, a)) && Facts(s, LivingDoes(s, a).p, LivingDoes(s, a).k)
    ensures var e := LivingDoes(s, a); ExitLocal(s, e) && PidsLocal(s, e)
  {
  }

  lemma LivingMakes(s: State, a: LifeAct)
    requires LivingEnabled(s, a) && Fits(s, LivingDoes(s, a)) && Facts(s, LivingDoes(s, a).p, LivingDoes(s, a).k)
    ensures var e := LivingDoes(s, a); ForksLocal(s, e)
  {
    hide WokenOk, NoZombies, Registered;
  }

  lemma LivingKids(s: State, a: LifeAct)
    requires LivingEnabled(s, a) && Fits(s, LivingDoes(s, a)) && Facts(s, LivingDoes(s, a).p, LivingDoes(s, a).k)
    ensures KidsLocal(s, LivingDoes(s, a))
  {
    hide WokenOk, NoZombies;
  }

  lemma LivingLocal(s: State, a: LifeAct)
    requires LivingEnabled(s, a) && Fits(s, LivingDoes(s, a)) && Facts(s, LivingDoes(s, a).p, LivingDoes(s, a).k)
    ensures Locks(s, LivingDoes(s, a)) && Families(s, LivingDoes(s, a))
  {
    hide Facts, Fits, LivingEnabled, LivingDoes, Placed, Registered, GuardLocal, WaitLocal, LockLocal, HeldLocal;
    hide ParentLocal, ScanLocal, ExitLocal, PidsLocal, ForksLocal, KidsLocal;
    LivingProcs(s, a);
    LivingChans(s, a);
    LivingGuards(s, a);
    LivingHolds(s, a);
    LivingParents(s, a);
    LivingExits(s, a);
    LivingMakes(s, a);
    LivingKids(s, a);
  }

  lemma ScannedProcs(s: State, p: nat, k: nat, fault: bool)
    requires k <= |s.procs| && p < |s.procs| && s.procs[p].pc.Scan? && s.procs[p].pc.k == k
    requires Facts(s, p, Scanned(s, p, k, fault).k) && s.procs[p].state == RUNNING && Fits(s, Scanned(s, p, k, fault))
    ensures var e := Scanned(s, p, k, fault); Placed(e.q, e.p, |s.procs|) && Placed(e.r, e.k, |s.procs|)
  {
    hide WokenOk, NoZombies, Registered;
  }

  lemma ScannedChans(s: State, p: nat, k: nat, fault: bool)
    requires k <= |s.procs| && p < |s.procs| && s.procs[p].pc.Scan? && s.procs[p].pc.k == k
    requires Facts(s, p, Scanned(s, p, k, fault).k) && s.procs[p].state == RUNNING && Fits(s, Scanned(s, p, k, fault))
    ensures var e := Scanned(s, p, k, fault); Registered(e.q, e.p, |s.procs|) && Registered(e.r, e.k, |s.procs|)
  {
    hide WokenOk, NoZombies, Placed;
  }

  lemma ScannedGuards(s: State, p: nat, k: nat, fault: bool)
    requires k <= |s.procs| && p < |s.procs| && s.procs[p].pc.Scan? && s.procs[p].pc.k == k
    requires Facts(s, p, Scanned(s, p, k, fault).k) && s.procs[p].state == RUNNING && Fits(s, Scanned(s, p, k, fault))
    ensures var e := Scanned(s, p, k, fault); GuardLocal(s, e) && WaitLocal(s, e)
  {
    hide WokenOk, NoZombies, Registered;
  }

  lemma ScannedHolds(s: State, p: nat, k: nat, fault: bool)
    requires k <= |s.procs| && p < |s.procs| && s.procs[p].pc.Scan? && s.procs[p].pc.k == k
    requires Facts(s, p, Scanned(s, p, k, fault).k) && s.procs[p].state == RUNNING && Fits(s, Scanned(s, p, k, fault))
    ensures var e := Scanned(s, p, k, fault); LockLocal(s, e) && HeldLocal(s, e)
  {
    hide WokenOk, NoZombies, Registered;
  }

  lemma ScannedParents(s: State, p: nat, k: nat, fault: bool)
    requires k <= |s.procs| && p < |s.procs| && s.procs[p].pc.Scan? && s.procs[p].pc.k == k
    requires Facts(s, p, Scanned(s, p, k, fault).k) && s.procs[p].state == RUNNING && Fits(s, Scanned(s, p, k, fault))
    ensures var e := Scanned(s, p, k, fault); ParentLocal(s, e) && ScanLocal(s, e)
  {
  }

  lemma ScannedExits(s: State, p: nat, k: nat, fault: bool)
    requires k <= |s.procs| && p < |s.procs| && s.procs[p].pc.Scan? && s.procs[p].pc.k == k
    requires Facts(s, p, Scanned(s, p, k, fault).k) && s.procs[p].state == RUNNING && Fits(s, Scanned(s, p, k, fault))
    ensures var e := Scanned(s, p, k, fault); ExitLocal(s, e) && PidsLocal(s, e)
  {
  }

  lemma ScannedMakes(s: State, p: nat, k: nat, fault: bool)
    requires k <= |s.procs| && p < |s.procs| && s.procs[p].pc.Scan? && s.procs[p].pc.k == k
    requires Facts(s, p, Scanned(s, p, k, fault).k) && s.procs[p].state == RUNNING && Fits(s, Scanned(s, p, k, fault))
    ensures var e := Scanned(s, p, k, fault); ForksLocal(s, e)
  {
    hide WokenOk, NoZombies, Registered;
  }

  lemma ScannedKids(s: State, p: nat, k: nat, fault: bool)
    requires k <= |s.procs| && p < |s.procs| && s.procs[p].pc.Scan? && s.procs[p].pc.k == k
    requires Facts(s, p, Scanned(s, p, k, fault).k) && s.procs[p].state == RUNNING && Fits(s, Scanned(s, p, k, fault))
    ensures KidsLocal(s, Scanned(s, p, k, fault))
  {
    hide WokenOk, NoZombies;
  }

  lemma ScannedLocal(s: State, p: nat, fault: bool)
    requires Enabled(s, Scanning(p, fault)) && Fits(s, Does(s, Scanning(p, fault)))
    requires Facts(s, p, Does(s, Scanning(p, fault)).k)
    ensures Locks(s, Does(s, Scanning(p, fault))) && Families(s, Does(s, Scanning(p, fault)))
  {
    hide Facts, Fits, Scanned, Placed, Registered, GuardLocal, WaitLocal, LockLocal, HeldLocal;
    hide ParentLocal, ScanLocal, ExitLocal, PidsLocal, ForksLocal, KidsLocal;
    var k := s.procs[p].pc.k;
    ScannedProcs(s, p, k, fault);
    ScannedChans(s, p, k, fault);
    ScannedGuards(s, p, k, fault);
    ScannedHolds(s, p, k, fault);
    ScannedParents(s, p, k, fault);
    ScannedExits(s, p, k, fault);
    ScannedMakes(s, p, k, fault);
    ScannedKids(s, p, k, fault);
  }

  // ---------- whole runs ----------

  lemma LocksHold(s: State, a: Action)
    requires Enabled(s, a) && Fits(s, Does(s, a)) && Facts(s, Does(s, a).p, Does(s, a).k)
    ensures Locks(s, Does(s, a)) && Families(s, Does(s, a))
  {
    hide Locks, Families, LockingDoes, WaitingDoes, LeavingDoes, LivingDoes, Facts;
    match a
    case Locking(x) => LockingLocal(s, x);
    case Waiting(x) => WaitingLocal(s, x);
    case Scanning(p, fault) => ScannedAt(s, p, fault); ScannedLocal(s, p, fault);
    case Leaving(x) => LeavingLocal(s, x);
    case Living(x) => LivingLocal(s, x);
  }

  lemma ScannedAt(s: State, p: nat, fault: bool)
    requires Enabled(s, Scanning(p, fault))
    ensures Does(s, Scanning(p, fault)).p == p
  {
  }

  lemma EffectKeeps(s: State, e: Effect)
    requires Inv(s) && Locks(s, e) && Families(s, e)
    ensures Inv(Apply(s, e))
  {
    hide ProcsOk, ForksOk, GuardOk, WaitOk, LockOk, HeldOk, ParentOk, ScanOk, ExitOk, KidsOk, PidsOk, ProcOk;
    hide GuardLocal, WaitLocal, LockLocal, HeldLocal, ParentLocal, ScanLocal, ExitLocal, PidsLocal, ForksLocal,
      KidsLocal;
    ProcsEffect(s, e);
    ForksEffect(s, e);
    GuardEffect(s, e);
    WaitEffect(s, e);
    LockEffect(s, e);
    HeldEffect(s, e);
    ParentEffect(s, e);
    ScanEffect(s, e);
    ExitEffect(s, e);
    KidsEffect(s, e);
    PidsEffect(s, e);
  }

  lemma StepKeeps(s: State, a: Action)
    requires Inv(s) && Enabled(s, a)
    ensures Inv(Do(s, a))
  {
    hide Inv, Facts, Locks, Families, Enabled, Does;
    FactsHold(s, a);
    LocksHold(s, a);
    EffectKeeps(s, Does(s, a));
  }

  /** `run` takes `s` to `t`. */
  ghost predicate Reaches(s: State, run: seq<Action>, t: State)
    decreases |run|
  {
    if run == [] then t == s else Enabled(s, run[0]) && Reaches(Do(s, run[0]), run[1..], t)
  }

  /** init alone, running, and every sleep-lock free. */
  predicate Boot(s: State) {
    && |s.procs| > INIT && s.procs[INIT] == Proc(RUNNING, None, false, None, 1, Idle, {}) && s.nextpid == 2
    && (forall p: nat :: p < |s.procs| && p != INIT ==> s.procs[p] == Freed())
    && (forall l: nat :: l < |s.locks| ==> s.locks[l] == NOLOCK) && s.wait.None? && s.reaped == [] && s.exited == {}
  }

  lemma BootInv(s: State)
    requires Boot(s)
    ensures Inv(s)
  {
  }

  lemma {:induction false} RunKeeps(s: State, run: seq<Action>, t: State)
    requires Inv(s) && Reaches(s, run, t)
    ensures Inv(t)
    decreases |run|
  {
    hide Inv, Enabled;
    if run != [] {
      StepKeeps(s, run[0]);
      RunKeeps(Do(s, run[0]), run[1..], t);
    }
  }

  // ---------- what that says ----------

  /**
    Nobody waits for a free sleep-lock: outside its critical section, a process registered on it waits
    for a holder.
   */
  lemma NoStrandedSleeper(boot: State, run: seq<Action>, t: State, l: nat, p: nat)
    requires Boot(boot) && Reaches(boot, run, t) && l < |t.locks| && p < |t.procs|
    requires t.locks[l].guard.None? && t.procs[p].chan == Some(OnLock(l))
    ensures t.locks[l].locked && t.locks[l].holder.Some?
    ensures var h := t.locks[l].holder.value;
            h < |t.procs| && l in t.procs[h].held && !t.procs[h].pc.Dead? && t.procs[h].state != UNUSED
  {
    hide Boot, Reaches, ForksOk, GuardOk, WaitOk, ParentOk, ScanOk, ExitOk, KidsOk, PidsOk, Registered;
    BootInv(boot);
    RunKeeps(boot, run, t);
    var h := t.locks[l].holder.value;
    assert ProcOk(t.procs[h], h, |t.procs|);
  }

  /** Nobody waits for a child that has exited. */
  lemma NoStrandedParent(boot: State, run: seq<Action>, t: State, p: nat, c: nat)
    requires Boot(boot) && Reaches(boot, run, t) && p < |t.procs| && c < |t.procs|
    requires t.wait.None? && t.procs[p].chan == Some(OnProc(p)) && t.procs[c].parent == Some(p)
    ensures t.procs[c].state != ZOMBIE
  {
    hide Boot, Reaches, ForksOk, GuardOk, LockOk, HeldOk, ScanOk, ExitOk, KidsOk, PidsOk, ProcsOk;
    BootInv(boot);
    RunKeeps(boot, run, t);
  }

  /** A process asleep is registered, so a wakeup on its channel finds it. */
  lemma SleepersRegistered(boot: State, run: seq<Action>, t: State, p: nat)
    requires Boot(boot) && Reaches(boot, run, t) && p < |t.procs| && t.procs[p].state == SLEEPING
    ensures if t.procs[p].pc.AcqSlept? then t.procs[p].chan == Some(OnLock(t.procs[p].pc.l))
            else t.procs[p].pc.WaitSlept? && t.procs[p].chan == Some(OnProc(p))
  {
    hide Boot, Reaches, ForksOk, GuardOk, WaitOk, LockOk, HeldOk, ParentOk, ScanOk, ExitOk, KidsOk, PidsOk;
    BootInv(boot);
    RunKeeps(boot, run, t);
    assert ProcOk(t.procs[p], p, |t.procs|);
  }

  /** Two processes never hold the same sleep-lock, and a held one carries its holder's pid. */
  lemma MutualExclusion(boot: State, run: seq<Action>, t: State, l: nat, p: nat, q: nat)
    requires Boot(boot) && Reaches(boot, run, t) && p < |t.procs| && q < |t.procs| && l in t.procs[p].held
    ensures l < |t.locks| && t.locks[l].locked && t.locks[l].pid == t.procs[p].pid
    ensures l in t.procs[q].held ==> q == p
  {
    hide Boot, Reaches, ForksOk, GuardOk, WaitOk, LockOk, ParentOk, ScanOk, ExitOk, KidsOk, PidsOk, ProcsOk;
    BootInv(boot);
    RunKeeps(boot, run, t);
    assert HolderIs(t.locks, l, p);
    assert l in t.procs[q].held ==> HolderIs(t.locks, l, q);
  }

  /** wait returns only processes that exited, each at most once, and none that is still there. */
  lemma ReapedOnce(boot: State, run: seq<Action>, t: State, i: nat)
    requires Boot(boot) && Reaches(boot, run, t) && i < |t.reaped|
    ensures t.reaped[i] in t.exited
    ensures forall j: nat :: j < |t.reaped| && j != i ==> t.reaped[j] != t.reaped[i]
    ensures forall p: nat :: p < |t.procs| && t.procs[p].state != UNUSED ==> t.procs[p].pid != t.reaped[i]
  {
    hide Boot, Reaches, ForksOk, GuardOk, WaitOk, LockOk, HeldOk, ParentOk, ScanOk, ExitOk, KidsOk, ProcsOk;
    BootInv(boot);
    RunKeeps(boot, run, t);
  }
}
