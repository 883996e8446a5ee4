/**
  What the calls on top of sleep and wakeup get done. Each result takes a reachable state in which a
  process is inside a call, and gives the run of that process alone that takes the call to its end,
  with the exact state it ends in.
 */
module SleepProgress {
  import opened Basics
  import opened SleepWake

  // ---------- runs ----------

  lemma First(s: State, a: Action, run: seq<Action>, t: State)
    requires Enabled(s, a) && Reaches(Do(s, a), run, t)
    ensures Reaches(s, [a] + run, t)
  {
    hide Enabled, Do;
    assert ([a] + run)[1..] == run;
  }

  lemma One(s: State, a: Action)
    requires Enabled(s, a)
    ensures Reaches(s, [a], Do(s, a))
  {
    hide Enabled, Do;
    assert [a][1..] == [];
    assert Reaches(Do(s, a), [], Do(s, a));
  }

  lemma {:induction false} Then(s: State, run: seq<Action>, m: State, rest: seq<Action>, t: State)
    requires Reaches(s, run, m) && Reaches(m, rest, t)
    ensures Reaches(s, run + rest, t)
    decreases |run|
  {
    hide Enabled, Do;
    if run == [] {
      assert run + rest == rest;
    } else {
      Then(Do(s, run[0]), run[1..], m, rest, t);
      assert (run + rest)[1..] == run[1..] + rest;
    }
  }

  /** A state that a run from boot leads to. */
  ghost predicate Reachable(s: State) { exists boot, run :: Boot(boot) && Reaches(boot, run, s) }

  lemma ReachableInv(s: State)
    requires Reachable(s)
    ensures Inv(s)
  {
    hide Boot, Reaches, Inv;
    var boot, run :| Boot(boot) && Reaches(boot, run, s);
    BootInv(boot);
    RunKeeps(boot, run, s);
  }

  lemma ProcHolds(s: State, p: nat)
    requires Inv(s) && p < |s.procs|
    ensures ProcOk(s.procs[p], p, |s.procs|) && |s.procs| > INIT
  {
    hide ForksOk, GuardOk, WaitOk, LockOk, HeldOk, ParentOk, ScanOk, ExitOk, KidsOk, PidsOk, ProcOk;
  }

  // ---------- wait ----------

  predicate OnlyScans(run: seq<Action>, p: nat) { forall i :: 0 <= i < |run| ==> run[i] == Scanning(p, false) }

  /** `c` is the exited child of `p` with the least slot. */
  predicate FirstZombie(procs: seq<Proc>, p: nat, c: nat) {
    c < |procs| && ZombieChild(procs[c], p) && forall d: nat :: d < c ==> !ZombieChild(procs[d], p)
  }

  /** wait has freed child `c` and returns its pid. */
  function AfterReap(s: State, p: nat, c: nat): State
    requires p < |s.procs| && c < |s.procs|
  {
    s.(procs := s.procs[c := Freed()][p := s.procs[p].(pc := WaitDone)], reaped := s.reaped + [s.procs[c].pid])
  }

  function Moved(s: State, p: nat, q: Proc): State
    requires p < |s.procs|
  {
    s.(procs := s.procs[p := q])
  }

  /** One round past a slot without an exited child. */
  lemma ScanPast(s: State, p: nat)
    requires Inv(s) && Runs(s, p) && s.procs[p].pc.Scan? && s.procs[p].pc.k < |s.procs|
    requires !ZombieChild(s.procs[s.procs[p].pc.k], p)
    ensures Enabled(s, Scanning(p, false))
    ensures var pc := s.procs[p].pc;
            Do(s, Scanning(p, false)) ==
            Moved(s, p, s.procs[p].(pc := Scan(pc.k + 1, pc.kids || s.procs[pc.k].parent == Some(p))))
  {
    hide Inv;
  }

  /** The round that meets an exited child. */
  lemma ScanMeets(s: State, p: nat)
    requires Inv(s) && Runs(s, p) && s.procs[p].pc.Scan? && s.procs[p].pc.k < |s.procs|
    requires ZombieChild(s.procs[s.procs[p].pc.k], p)
    ensures Enabled(s, Scanning(p, false)) && Do(s, Scanning(p, false)) == AfterReap(s, p, s.procs[p].pc.k)
  {
    hide Inv;
    ProcHolds(s, s.procs[p].pc.k);
  }

  lemma {:induction false} ScanTo(s: State, p: nat, c: nat) returns (run: seq<Action>, t: State)
    requires Inv(s) && Runs(s, p) && s.procs[p].pc.Scan? && s.procs[p].pc.k <= c <= |s.procs|
    requires forall d: nat :: s.procs[p].pc.k <= d < c ==> !ZombieChild(s.procs[d], p)
    ensures OnlyScans(run, p) && Reaches(s, run, t) && Inv(t)
    ensures p < |t.procs| && t.procs[p].pc.Scan? && t.procs[p].pc.k == c
    ensures t == Moved(s, p, s.procs[p].(pc := t.procs[p].pc))
    decreases c - s.procs[p].pc.k
  {
    hide Inv, Enabled, Do;
    if s.procs[p].pc.k == c {
      run, t := [], s;
    } else {
      ScanPast(s, p);
      StepKeeps(s, Scanning(p, false));
      var s1 := Do(s, Scanning(p, false));
      var rest;
      rest, t := ScanTo(s1, p, c);
      First(s, Scanning(p, false), rest, t);
      run := [Scanning(p, false)] + rest;
    }
  }

  lemma NonePassed(s: State, p: nat)
    requires Inv(s) && p < |s.procs| && s.procs[p].pc.Scan?
    ensures forall d: nat :: d < s.procs[p].pc.k && d < |s.procs| ==> !ZombieChild(s.procs[d], p)
  {
    hide ProcsOk, ForksOk, GuardOk, WaitOk, LockOk, HeldOk, ParentOk, ExitOk, KidsOk, PidsOk;
  }

  /**
    wait, wherever its scan stands: if the process has an exited child, its own steps free the one
    of least slot, record exactly its pid, and change nothing else.
   */
  lemma WaitReaps(s: State, p: nat, c: nat) returns (run: seq<Action>)
    requires Reachable(s) && Runs(s, p) && s.procs[p].pc.Scan? && FirstZombie(s.procs, p, c)
    ensures OnlyScans(run, p) && Reaches(s, run, AfterReap(s, p, c))
    ensures c != p && AfterReap(s, p, c).procs[c].state == UNUSED
  {
    hide Inv, Enabled, Do, Reaches, Reachable;
    ReachableInv(s);
    NonePassed(s, p);
    ProcHolds(s, c);
    var run1, t := ScanTo(s, p, c);
    ScanMeets(t, p);
    One(t, Scanning(p, false));
    assert AfterReap(t, p, c) == AfterReap(s, p, c);
    Then(s, run1, t, [Scanning(p, false)], AfterReap(s, p, c));
    run := run1 + [Scanning(p, false)];
  }

  /** What wait comes to when the process has no exited child: it leaves, or registers to be woken. */
  function AfterScan(s: State, p: nat, kids: bool): State
    requires p < |s.procs|
  {
    var q := s.procs[p];
    Moved(s, p, if !kids || q.killed then q.(pc := WaitDone) else q.(chan := Some(OnProc(p)), pc := WaitPrep))
  }

  lemma ScanOver(s: State, p: nat)
    requires Runs(s, p) && s.procs[p].pc.Scan? && s.procs[p].pc.k == |s.procs|
    ensures Enabled(s, Scanning(p, false)) && Do(s, Scanning(p, false)) == AfterScan(s, p, s.procs[p].pc.kids)
  {
  }

  /** The scan knows at its end whether the process has children. */
  lemma KidsKnown(s: State, p: nat)
    requires Inv(s) && p < |s.procs| && s.procs[p].pc.Scan? && s.procs[p].pc.k == |s.procs|
    ensures s.procs[p].pc.kids <==> HasChild(s.procs, p, |s.procs|)
  {
    hide ProcsOk, ForksOk, GuardOk, WaitOk, LockOk, HeldOk, ParentOk, ScanOk, ExitOk, PidsOk;
    forall c: nat | c < |s.procs| && !s.procs[p].pc.kids ensures s.procs[c].parent != Some(p) {
      assert Left(s.procs[p], c);
    }
  }

  lemma SameChildren(s: State, t: State, p: nat)
    requires p < |s.procs| && p < |t.procs| && t == Moved(s, p, s.procs[p].(pc := t.procs[p].pc))
    ensures HasChild(t.procs, p, |t.procs|) <==> HasChild(s.procs, p, |s.procs|)
  {
    if HasChild(s.procs, p, |s.procs|) {
      var c: nat :| c < |s.procs| && s.procs[c].parent == Some(p);
      assert t.procs[c].parent == Some(p);
    }
    if HasChild(t.procs, p, |t.procs|) {
      var c: nat :| c < |t.procs| && t.procs[c].parent == Some(p);
      assert s.procs[c].parent == Some(p);
    }
  }

  /**
    wait of a process without exited children ends its scan: it returns without a pid exactly when it
    has no children at all or has been killed, and otherwise is registered for their exit.
   */
  lemma WaitRegisters(s: State, p: nat) returns (run: seq<Action>)
    requires Reachable(s) && Runs(s, p) && s.procs[p].pc.Scan? && NoZombies(s.procs, p)
    ensures OnlyScans(run, p) && Reaches(s, run, AfterScan(s, p, HasChild(s.procs, p, |s.procs|)))
  {
    hide Inv, Enabled, Do, Reaches, Reachable, HasChild;
    ReachableInv(s);
    ProcHolds(s, p);
    var run1, t := ScanTo(s, p, |s.procs|);
    KidsKnown(t, p);
    SameChildren(s, t, p);
    ScanOver(t, p);
    One(t, Scanning(p, false));
    assert AfterScan(t, p, t.procs[p].pc.kids) == AfterScan(s, p, t.procs[p].pc.kids);
    Then(s, run1, t, [Scanning(p, false)], AfterScan(s, p, t.procs[p].pc.kids));
    run := run1 + [Scanning(p, false)];
  }

  /**
    When wait leaves with nobody: whatever else runs in between, a step that ends the scan without
    freeing a child met a fault in copying out an exit status, or found no children, or found
    itself killed.
   */
  lemma EmptyHanded(s: State, p: nat, fault: bool)
    requires Reachable(s) && Enabled(s, Scanning(p, fault))
    ensures var t := Do(s, Scanning(p, fault));
            && (t.procs[p].pc == WaitDone && t.reaped == s.reaped ==>
                  || (fault && !NoZombies(s.procs, p)) || !HasChild(s.procs, p, |s.procs|)
                  || (s.procs[p].killed && NoZombies(s.procs, p)))
            && (t.procs[p].pc == WaitPrep ==>
                  NoZombies(s.procs, p) && HasChild(s.procs, p, |s.procs|) && !s.procs[p].killed)
            && (t.procs[p].pc.Scan? ==> t.reaped == s.reaped && t.procs[p].pc.k == s.procs[p].pc.k + 1)
  {
    hide Inv, Reachable, HasChild;
    ReachableInv(s);
    NonePassed(s, p);
    if s.procs[p].pc.k == |s.procs| { KidsKnown(s, p); }
  }

  // ---------- nobody's parent is gone ----------

  /** In every reachable state, the parent of a process is neither unused, nor being made, nor exited. */
  lemma ParentsLive(s: State, c: nat)
    requires Reachable(s) && c < |s.procs| && s.procs[c].parent.Some?
    ensures var p := s.procs[c].parent.value;
            p < |s.procs| && s.procs[p].state != UNUSED && s.procs[p].state != USED && s.procs[p].state != ZOMBIE
  {
    hide Reachable;
    ReachableInv(s);
    ProcHolds(s, c);
    var p := s.procs[c].parent.value;
    ProcHolds(s, p);
    assert !Left(s.procs[p], c);
    hide ForksOk, GuardOk, WaitOk, LockOk, HeldOk, ParentOk, ScanOk, ExitOk, PidsOk;
  }

  // ---------- wakeup ----------

  /** What a wakeup on `c` leaves of the table when it goes over the slots from `k` on, and `p` gets to `pc`. */
  predicate Roused(s: State, t: State, p: nat, c: Chan, k: nat, pc: Pc) {
    && |t.procs| == |s.procs| && t == s.(procs := t.procs)
    && forall i: nat :: i < |s.procs| ==>
         var q := if i >= k then Woken(s.procs[i], c) else s.procs[i];
         t.procs[i] == if i == p then q.(pc := pc) else q
  }

  lemma RousedNone(s: State, p: nat, c: Chan)
    requires p < |s.procs|
    ensures Roused(s, s, p, c, |s.procs|, s.procs[p].pc)
  {
  }

  predicate Wakes(a: Action, p: nat) {
    || a == Locking(WakeOne(p)) || a == Leaving(OrphanWakeOne(p)) || a == Leaving(ExitWakeOne(p))
  }

  predicate OnlyWakes(run: seq<Action>, p: nat) { forall i :: 0 <= i < |run| ==> Wakes(run[i], p) }

  lemma ReleaseRound(s: State, p: nat)
    requires Runs(s, p) && s.procs[p].pc.RelWake? && s.procs[p].pc.k < |s.procs|
    ensures Enabled(s, Locking(WakeOne(p)))
    ensures var s1, pc := Do(s, Locking(WakeOne(p))), s.procs[p].pc;
            Rouses(s, s1, p, OnLock(pc.l), pc.k, RelWake(pc.l, pc.k + 1))
  {
  }

  /** Slot `k` alone has been looked at. */
  predicate Rouses(s: State, s1: State, p: nat, c: Chan, k: nat, pc: Pc) {
    && p < |s.procs| && k < |s.procs| && |s1.procs| == |s.procs| && s1 == s.(procs := s1.procs) && s1.procs[p].pc == pc
    && (forall i: nat :: i < |s.procs| && i != k && i != p ==> s1.procs[i] == s.procs[i])
    && s1.procs[k] == (if k == p then Woken(s.procs[k], c).(pc := pc) else Woken(s.procs[k], c))
    && (k != p ==> s1.procs[p] == s.procs[p].(pc := pc))
  }

  lemma StillRuns(s: State, s1: State, p: nat, c: Chan, k: nat, pc: Pc)
    requires Rouses(s, s1, p, c, k, pc) && Runs(s, p)
    ensures Runs(s1, p)
  {
  }

  lemma {:induction false} ReleaseScan(s: State, p: nat) returns (run: seq<Action>, t: State)
    requires Inv(s) && Runs(s, p) && s.procs[p].pc.RelWake?
    ensures Reaches(s, run, t) && OnlyWakes(run, p) && Inv(t) && s.procs[p].pc.k <= |s.procs|
    ensures Roused(s, t, p, OnLock(s.procs[p].pc.l), s.procs[p].pc.k, RelWake(s.procs[p].pc.l, |s.procs|))
    decreases |s.procs| - s.procs[p].pc.k
  {
    hide Inv, Enabled, Do, Roused, Rouses;
    ProcHolds(s, p);
    var l, k := s.procs[p].pc.l, s.procs[p].pc.k;
    if k == |s.procs| {
      RousedNone(s, p, OnLock(l));
      run, t := [], s;
    } else {
      var a := Locking(WakeOne(p));
      ReleaseRound(s, p);
      StepKeeps(s, a);
      var s1 := Do(s, a);
      StillRuns(s, s1, p, OnLock(l), k, RelWake(l, k + 1));
      RouseFacts(s, s1, p, OnLock(l), k, RelWake(l, k + 1));
      var rest;
      rest, t := ReleaseScan(s1, p);
      First(s, a, rest, t);
      RouseMore(s, s1, t, p, OnLock(l), k, RelWake(l, k + 1), RelWake(l, |s.procs|));
      run := [a] + rest;
    }
  }

  lemma RouseFacts(s: State, s1: State, p: nat, c: Chan, k: nat, pc: Pc)
    requires Rouses(s, s1, p, c, k, pc)
    ensures p < |s1.procs| == |s.procs| && s1.procs[p].pc == pc && s1.procs[p].parent == s.procs[p].parent
  {
  }

  /** One slot and then the others. */
  lemma RouseMore(s: State, s1: State, t: State, p: nat, c: Chan, k: nat, pc1: Pc, pc: Pc)
    requires Rouses(s, s1, p, c, k, pc1) && Roused(s1, t, p, c, k + 1, pc)
    ensures Roused(s, t, p, c, k, pc)
  {
  }

  /** The state after releasesleep: the lock is free, and whoever was registered on it has been woken. */
  predicate AfterRelease(s: State, t: State, p: nat, l: nat) {
    && p < |s.procs| && l < |s.locks| && |t.procs| == |s.procs|
    && t == s.(procs := t.procs, locks := s.locks[l := NOLOCK])
    && forall i: nat :: i < |s.procs| ==>
         var q := Woken(s.procs[i], OnLock(l));
         t.procs[i] == if i == p then q.(pc := Idle, held := s.procs[p].held - {l}) else q
  }

  lemma Unlocks(s: State, p: nat)
    requires Inv(s) && Runs(s, p) && s.procs[p].pc.RelTest?
    ensures Enabled(s, Locking(Unlock(p))) && s.procs[p].pc.l < |s.locks|
    ensures var l, q := s.procs[p].pc.l, s.procs[p];
            Do(s, Locking(Unlock(p))) ==
            s.(procs := s.procs[p := q.(pc := RelWake(l, 0), held := q.held - {l})],
               locks := s.locks[l := NOLOCK.(guard := Some(p))])
  {
    hide ProcsOk, ForksOk, WaitOk, LockOk, HeldOk, ParentOk, ScanOk, ExitOk, KidsOk, PidsOk;
  }

  lemma Drops(s: State, p: nat)
    requires Runs(s, p) && s.procs[p].pc.RelWake? && s.procs[p].pc.k == |s.procs| && s.procs[p].pc.l < |s.locks|
    ensures Enabled(s, Locking(DropLock(p)))
    ensures var l := s.procs[p].pc.l;
            Do(s, Locking(DropLock(p))) ==
            s.(procs := s.procs[p := s.procs[p].(pc := Idle)], locks := s.locks[l := s.locks[l].(guard := None)])
  {
  }

  /** releasesleep, once it has the spinlock: its own steps free the lock and wake everybody registered on it. */
  lemma ReleaseWakes(s: State, p: nat) returns (run: seq<Action>, t: State)
    requires Reachable(s) && Runs(s, p) && s.procs[p].pc.RelTest?
    ensures Reaches(s, run, t) && AfterRelease(s, t, p, s.procs[p].pc.l)
    ensures |run| >= 2 && run[0] == Locking(Unlock(p)) && OnlyWakes(run[1..|run| - 1], p)
    ensures run[|run| - 1] == Locking(DropLock(p))
  {
    hide Inv, Enabled, Do, Reaches, Reachable, Roused;
    ReachableInv(s);
    var l, a, d := s.procs[p].pc.l, Locking(Unlock(p)), Locking(DropLock(p));
    Unlocks(s, p);
    StepKeeps(s, a);
    var s1 := Do(s, a);
    var mid, s2 := ReleaseScan(s1, p);
    RousedLast(s, s1, s2, p, l);
    Drops(s2, p);
    t := Do(s2, d);
    One(s2, d);
    Then(s1, mid, s2, [d], t);
    First(s, a, mid + [d], t);
    run := [a] + (mid + [d]);
    assert run[1..|run| - 1] == mid;
    Released(s, s1, s2, t, p, l);
  }

  lemma RousedLast(s: State, s1: State, s2: State, p: nat, l: nat)
    requires Roused(s1, s2, p, OnLock(l), 0, RelWake(l, |s1.procs|)) && Runs(s1, p)
    ensures Runs(s2, p) && s2.procs[p].pc == RelWake(l, |s2.procs|) && s2.locks == s1.locks
  {
  }

  lemma Released(s: State, s1: State, s2: State, t: State, p: nat, l: nat)
    requires Runs(s, p) && l < |s.locks|
    requires s1 == s.(procs := s.procs[p := s.procs[p].(pc := RelWake(l, 0), held := s.procs[p].held - {l})],
                      locks := s.locks[l := NOLOCK.(guard := Some(p))])
    requires Roused(s1, s2, p, OnLock(l), 0, RelWake(l, |s1.procs|))
    requires p < |s2.procs| && l < |s2.locks|
    requires t == s2.(procs := s2.procs[p := s2.procs[p].(pc := Idle)],
                      locks := s2.locks[l := s2.locks[l].(guard := None)])
    ensures AfterRelease(s, t, p, l)
  {
    assert t.locks == s.locks[l := NOLOCK];
  }

  // ---------- exit ----------

  predicate Exits(a: Action, p: nat) {
    || a == Leaving(OrphanOne(p)) || a == Leaving(OrphanWakeOne(p)) || a == Leaving(ExitWakeOne(p))
    || a == Leaving(StartExit(p)) || a == Leaving(Die(p))
  }

  predicate OnlyExits(run: seq<Action>, p: nat) { forall i :: 0 <= i < |run| ==> Exits(run[i], p) }

  lemma OrphanWakeRound(s: State, p: nat)
    requires Runs(s, p) && s.procs[p].pc.OrphanWake? && s.procs[p].pc.j < |s.procs|
    ensures Enabled(s, Leaving(OrphanWakeOne(p)))
    ensures var s1, pc := Do(s, Leaving(OrphanWakeOne(p))), s.procs[p].pc;
            Rouses(s, s1, p, OnProc(INIT), pc.j, OrphanWake(pc.k, pc.j + 1))
  {
  }

  lemma OrphanWakeLast(s: State, p: nat)
    requires Runs(s, p) && s.procs[p].pc.OrphanWake? && s.procs[p].pc.j == |s.procs|
    ensures Enabled(s, Leaving(OrphanWakeOne(p)))
    ensures Do(s, Leaving(OrphanWakeOne(p))) == Moved(s, p, s.procs[p].(pc := Orphan(s.procs[p].pc.k + 1)))
    ensures Roused(s, Do(s, Leaving(OrphanWakeOne(p))), p, OnProc(INIT), |s.procs|, Orphan(s.procs[p].pc.k + 1))
  {
  }

  /** wakeup(initproc) inside reparent. */
  lemma {:induction false} OrphanWakeScan(s: State, p: nat) returns (run: seq<Action>, t: State)
    requires Inv(s) && Runs(s, p) && s.procs[p].pc.OrphanWake?
    ensures Reaches(s, run, t) && OnlyExits(run, p) && Inv(t) && s.procs[p].pc.j <= |s.procs|
    ensures Roused(s, t, p, OnProc(INIT), s.procs[p].pc.j, Orphan(s.procs[p].pc.k + 1))
    decreases |s.procs| - s.procs[p].pc.j
  {
    hide Inv, Enabled, Do, Roused, Rouses;
    ProcHolds(s, p);
    var k, j, a := s.procs[p].pc.k, s.procs[p].pc.j, Leaving(OrphanWakeOne(p));
    if j == |s.procs| {
      OrphanWakeLast(s, p);
      StepKeeps(s, a);
      One(s, a);
      run, t := [a], Do(s, a);
    } else {
      OrphanWakeRound(s, p);
      StepKeeps(s, a);
      var s1 := Do(s, a);
      StillRuns(s, s1, p, OnProc(INIT), j, OrphanWake(k, j + 1));
      RouseFacts(s, s1, p, OnProc(INIT), j, OrphanWake(k, j + 1));
      var rest;
      rest, t := OrphanWakeScan(s1, p);
      First(s, a, rest, t);
      RouseMore(s, s1, t, p, OnProc(INIT), j, OrphanWake(k, j + 1), Orphan(k + 1));
      run := [a] + rest;
    }
  }

  /** `p` has a child in slot `k` or above. */
  ghost predicate ChildFrom(procs: seq<Proc>, p: nat, k: nat) {
    exists c: nat :: k <= c < |procs| && procs[c].parent == Some(p)
  }

  /** Slot `i` after process `p` has given its children from slot `k` on to init, and woken it if there were any. */
  ghost function Heir(s: State, i: nat, p: nat, k: nat): Proc
    requires i < |s.procs|
  {
    var q := s.procs[i];
    if i >= k && q.parent == Some(p) then q.(parent := Some(INIT))
    else if i == INIT && ChildFrom(s.procs, p, k) then Woken(q, OnProc(INIT))
    else q
  }

  /** From `s` to `t`, that and nothing else has happened, and `p` has got to `pc`. */
  ghost predicate GivenAway(s: State, t: State, p: nat, k: nat, pc: Pc) {
    && |t.procs| == |s.procs| && t == s.(procs := t.procs)
    && forall i: nat :: i < |s.procs| ==>
         t.procs[i] == if i == p then s.procs[p].(pc := pc) else Heir(s, i, p, k)
  }

  lemma OrphansOver(s: State, p: nat)
    requires Runs(s, p) && s.procs[p].pc.Orphan? && s.procs[p].pc.k == |s.procs|
    ensures Enabled(s, Leaving(OrphanOne(p)))
    ensures GivenAway(s, Do(s, Leaving(OrphanOne(p))), p, |s.procs|, ExitWake(0))
  {
  }

  lemma OrphanPast(s: State, p: nat)
    requires Runs(s, p) && s.procs[p].pc.Orphan? && s.procs[p].pc.k < |s.procs|
    requires s.procs[s.procs[p].pc.k].parent != Some(p)
    ensures Enabled(s, Leaving(OrphanOne(p)))
    ensures Do(s, Leaving(OrphanOne(p))) == Moved(s, p, s.procs[p].(pc := Orphan(s.procs[p].pc.k + 1)))
  {
  }

  lemma OrphanMeets(s: State, p: nat)
    requires Runs(s, p) && s.procs[p].pc.Orphan? && s.procs[p].pc.k < |s.procs| && s.procs[p].pc.k != p
    requires s.procs[s.procs[p].pc.k].parent == Some(p)
    ensures Enabled(s, Leaving(OrphanOne(p)))
    ensures var k := s.procs[p].pc.k;
            Do(s, Leaving(OrphanOne(p))) ==
            s.(procs := s.procs[k := s.procs[k].(parent := Some(INIT))][p := s.procs[p].(pc := OrphanWake(k, 0))])
  {
  }

  /** A slot that is no child changes nothing of the account. */
  lemma GivenPast(s: State, s1: State, t: State, p: nat, k: nat, pc1: Pc, pc: Pc)
    requires p < |s.procs| && k < |s.procs| && s.procs[k].parent != Some(p)
    requires s1 == Moved(s, p, s.procs[p].(pc := pc1)) && GivenAway(s1, t, p, k + 1, pc)
    ensures GivenAway(s, t, p, k, pc)
  {
    SameFrom(s, s1, p, k);
  }

  lemma SameFrom(s: State, s1: State, p: nat, k: nat)
    requires p < |s.procs| && k < |s.procs| && s.procs[k].parent != Some(p) && |s1.procs| == |s.procs|
    requires forall i: nat :: i < |s.procs| ==> s1.procs[i].parent == s.procs[i].parent
    ensures ChildFrom(s1.procs, p, k + 1) <==> ChildFrom(s.procs, p, k)
  {
    if ChildFrom(s.procs, p, k) {
      var c: nat :| k <= c < |s.procs| && s.procs[c].parent == Some(p);
      assert s1.procs[c].parent == Some(p);
    }
    if ChildFrom(s1.procs, p, k + 1) {
      var c: nat :| k + 1 <= c < |s1.procs| && s1.procs[c].parent == Some(p);
      assert s.procs[c].parent == Some(p);
    }
  }

  /** A child goes to init, init is woken, and then the others follow. */
  lemma GivenMore(s: State, s1: State, s2: State, t: State, p: nat, k: nat, pc1: Pc, pc2: Pc, pc: Pc)
    requires Inv(s) && p < |s.procs| && p != INIT && k < |s.procs| && k != p && s.procs[k].parent == Some(p)
    requires s1 == s.(procs := s.procs[k := s.procs[k].(parent := Some(INIT))][p := s.procs[p].(pc := pc1)])
    requires Roused(s1, s2, p, OnProc(INIT), 0, pc2) && GivenAway(s2, t, p, k + 1, pc)
    ensures GivenAway(s, t, p, k, pc)
  {
    hide Inv;
    assert ChildFrom(s.procs, p, k);
    forall i: nat | i < |s.procs| ensures t.procs[i] == if i == p then s.procs[p].(pc := pc) else Heir(s, i, p, k) {
      ProcHolds(s, i);
      assert i != INIT ==> s.procs[i].chan != Some(OnProc(INIT));
    }
  }

  lemma {:induction false} ReparentAll(s: State, p: nat) returns (run: seq<Action>, t: State)
    requires Inv(s) && Runs(s, p) && s.procs[p].pc.Orphan?
    ensures Reaches(s, run, t) && OnlyExits(run, p) && Inv(t) && s.procs[p].pc.k <= |s.procs|
    ensures GivenAway(s, t, p, s.procs[p].pc.k, ExitWake(0))
    decreases |s.procs| - s.procs[p].pc.k
  {
    hide Inv, Enabled, Do, Roused, GivenAway;
    ProcHolds(s, p);
    var k, a := s.procs[p].pc.k, Leaving(OrphanOne(p));
    if k == |s.procs| {
      OrphansOver(s, p);
      StepKeeps(s, a);
      One(s, a);
      run, t := [a], Do(s, a);
    } else if s.procs[k].parent != Some(p) {
      OrphanPast(s, p);
      StepKeeps(s, a);
      var s1 := Do(s, a);
      var rest;
      rest, t := ReparentAll(s1, p);
      First(s, a, rest, t);
      GivenPast(s, s1, t, p, k, Orphan(k + 1), ExitWake(0));
      run := [a] + rest;
    } else {
      ProcHolds(s, k);
      OrphanMeets(s, p);
      StepKeeps(s, a);
      var s1 := Do(s, a);
      var mid, s2 := OrphanWakeScan(s1, p);
      RousedAt(s1, s2, p, OnProc(INIT), 0, Orphan(k + 1));
      var rest;
      rest, t := ReparentAll(s2, p);
      Then(s1, mid, s2, rest, t);
      First(s, a, mid + rest, t);
      GivenMore(s, s1, s2, t, p, k, OrphanWake(k, 0), Orphan(k + 1), ExitWake(0));
      run := [a] + (mid + rest);
    }
  }

  lemma RousedAt(s: State, t: State, p: nat, c: Chan, k: nat, pc: Pc)
    requires Roused(s, t, p, c, k, pc) && Runs(s, p)
    ensures Runs(t, p) && |t.procs| == |s.procs| && t.procs[p].pc == pc
  {
  }

  lemma ExitWakeRound(s: State, p: nat)
    requires Runs(s, p) && s.procs[p].pc.ExitWake? && s.procs[p].pc.j < |s.procs| && s.procs[p].parent.Some?
    ensures Enabled(s, Leaving(ExitWakeOne(p)))
    ensures var s1, pc := Do(s, Leaving(ExitWakeOne(p))), s.procs[p].pc;
            Rouses(s, s1, p, OnProc(s.procs[p].parent.value), pc.j, ExitWake(pc.j + 1))
  {
  }

  /** wakeup(p->parent). */
  lemma {:induction false} ExitWakeScan(s: State, p: nat) returns (run: seq<Action>, t: State)
    requires Inv(s) && Runs(s, p) && s.procs[p].pc.ExitWake? && s.procs[p].parent.Some?
    ensures Reaches(s, run, t) && OnlyExits(run, p) && Inv(t) && s.procs[p].pc.j <= |s.procs|
    ensures Roused(s, t, p, OnProc(s.procs[p].parent.value), s.procs[p].pc.j, ExitWake(|s.procs|))
    decreases |s.procs| - s.procs[p].pc.j
  {
    hide Inv, Enabled, Do, Roused, Rouses;
    ProcHolds(s, p);
    var c, j, a := OnProc(s.procs[p].parent.value), s.procs[p].pc.j, Leaving(ExitWakeOne(p));
    if j == |s.procs| {
      RousedNone(s, p, c);
      run, t := [], s;
    } else {
      ExitWakeRound(s, p);
      StepKeeps(s, a);
      var s1 := Do(s, a);
      StillRuns(s, s1, p, c, j, ExitWake(j + 1));
      RouseFacts(s, s1, p, c, j, ExitWake(j + 1));
      var rest;
      rest, t := ExitWakeScan(s1, p);
      First(s, a, rest, t);
      RouseMore(s, s1, t, p, c, j, ExitWake(j + 1), ExitWake(|s.procs|));
      run := [a] + rest;
    }
  }

  /**
    The state after exit: the process is a zombie, its children are init's, its parent has been
    woken, and so has init if it was given a child; everybody else is as before.
   */
  ghost predicate AfterExit(s: State, t: State, p: nat) {
    && p < |s.procs| && s.procs[p].parent.Some? && |t.procs| == |s.procs|
    && t == s.(procs := t.procs, exited := s.exited + {s.procs[p].pid})
    && forall i: nat :: i < |s.procs| ==>
         t.procs[i] ==
         if i == p then s.procs[p].(state := ZOMBIE, pc := Dead)
         else if i == s.procs[p].parent.value then Woken(Heir(s, i, p, 0), OnProc(i)) else Heir(s, i, p, 0)
  }

  lemma ExitStarts(s: State, p: nat)
    requires Runs(s, p) && p != INIT && s.procs[p].pc == Idle && s.procs[p].held == {} && s.wait.None?
    ensures Enabled(s, Leaving(StartExit(p)))
    ensures Do(s, Leaving(StartExit(p))) == Moved(s, p, s.procs[p].(pc := Orphan(0))).(wait := Some(p))
  {
  }

  lemma Dies(s: State, p: nat)
    requires Runs(s, p) && s.procs[p].pc == ExitWake(|s.procs|)
    ensures Enabled(s, Leaving(Die(p)))
    ensures Do(s, Leaving(Die(p))) ==
            Moved(s, p, s.procs[p].(state := ZOMBIE, pc := Dead))
              .(wait := None, exited := s.exited + {s.procs[p].pid})
  {
  }

  lemma GivenAt(s: State, t: State, p: nat, k: nat, pc: Pc)
    requires GivenAway(s, t, p, k, pc) && Runs(s, p)
    ensures Runs(t, p) && |t.procs| == |s.procs| && t.procs[p] == s.procs[p].(pc := pc)
  {
  }

  lemma Exited(s: State, s1: State, s2: State, s3: State, t: State, p: nat)
    requires Inv(s) && Runs(s, p) && p != INIT && s.wait.None? && s.procs[p].parent.Some?
    requires s1 == Moved(s, p, s.procs[p].(pc := Orphan(0))).(wait := Some(p))
    requires GivenAway(s1, s2, p, 0, ExitWake(0)) && Roused(s2, s3, p, OnProc(s.procs[p].parent.value), 0,
                                                            ExitWake(|s2.procs|))
    requires p < |s3.procs|
    requires t == Moved(s3, p, s3.procs[p].(state := ZOMBIE, pc := Dead))
                    .(wait := None, exited := s3.exited + {s3.procs[p].pid})
    ensures AfterExit(s, t, p)
  {
    hide Inv;
    SameChildFrom(s, s1, p);
    var h := s.procs[p].parent.value;
    forall i: nat | i < |s.procs|
      ensures t.procs[i] ==
              if i == p then s.procs[p].(state := ZOMBIE, pc := Dead)
              else if i == h then Woken(Heir(s, i, p, 0), OnProc(i)) else Heir(s, i, p, 0)
    {
      ProcHolds(s, i);
      ProcHolds(s, p);
      assert i != p ==> Heir(s1, i, p, 0) == Heir(s, i, p, 0);
    }
  }

  lemma SameChildFrom(s: State, s1: State, p: nat)
    requires |s1.procs| == |s.procs| && forall i: nat :: i < |s.procs| ==> s1.procs[i].parent == s.procs[i].parent
    ensures ChildFrom(s1.procs, p, 0) <==> ChildFrom(s.procs, p, 0)
  {
    if ChildFrom(s.procs, p, 0) {
      var c: nat :| c < |s.procs| && s.procs[c].parent == Some(p);
      assert s1.procs[c].parent == Some(p);
    }
    if ChildFrom(s1.procs, p, 0) {
      var c: nat :| c < |s1.procs| && s1.procs[c].parent == Some(p);
      assert s.procs[c].parent == Some(p);
    }
  }

  /** exit of any process but init: its own steps take it to its end, and that is what they come to. */
  lemma ExitEnds(s: State, p: nat) returns (run: seq<Action>, t: State)
    requires Reachable(s) && Runs(s, p) && p != INIT && s.procs[p].pc == Idle && s.procs[p].held == {} && s.wait.None?
    ensures Reaches(s, run, t) && OnlyExits(run, p) && AfterExit(s, t, p)
  {
    hide Inv, Enabled, Do, Reaches, Reachable, Roused, GivenAway, AfterExit;
    ReachableInv(s);
    ProcHolds(s, p);
    var a, d := Leaving(StartExit(p)), Leaving(Die(p));
    ExitStarts(s, p);
    StepKeeps(s, a);
    var s1 := Do(s, a);
    var run1, s2 := ReparentAll(s1, p);
    GivenAt(s1, s2, p, 0, ExitWake(0));
    var run2, s3 := ExitWakeScan(s2, p);
    RousedAt(s2, s3, p, OnProc(s.procs[p].parent.value), 0, ExitWake(|s2.procs|));
    Dies(s3, p);
    t := Do(s3, d);
    One(s3, d);
    Then(s2, run2, s3, [d], t);
    Then(s1, run1, s2, run2 + [d], t);
    First(s, a, run1 + (run2 + [d]), t);
    run := [a] + (run1 + (run2 + [d]));
    Exited(s, s1, s2, s3, t, p);
  }

  // ---------- acquiresleep and fork ----------

  /** Process `p` becomes `q`, and sleep-lock `l` becomes `k`. */
  function MovedLock(s: State, p: nat, q: Proc, l: nat, k: Lock): State
    requires p < |s.procs| && l < |s.locks|
  {
    s.(procs := s.procs[p := q], locks := s.locks[l := k])
  }

  lemma Takes(s: State, p: nat, l: nat)
    requires Runs(s, p) && (s.procs[p].pc == Idle || s.procs[p].pc == AcqWant(l)) && l < |s.locks|
    requires s.locks[l].guard.None?
    ensures Enabled(s, Locking(TakeLock(p, l)))
    ensures Do(s, Locking(TakeLock(p, l))) ==
            MovedLock(s, p, s.procs[p].(pc := AcqTest(l)), l, s.locks[l].(guard := Some(p)))
  {
  }

  lemma Tries(s: State, p: nat, l: nat)
    requires Runs(s, p) && s.procs[p].pc == AcqTest(l) && l < |s.locks|
    ensures Enabled(s, Locking(TryLock(p)))
    ensures var q, k := s.procs[p], s.locks[l];
            Do(s, Locking(TryLock(p))) ==
            if k.locked then MovedLock(s, p, q.(chan := Some(OnLock(l)), pc := AcqPrep(l)), l, k)
            else MovedLock(s, p, q.(pc := AcqDone(l), held := q.held + {l}), l, Lock(true, q.pid, k.guard, Some(p)))
  {
    assert s.locks[l := s.locks[l]] == s.locks;
  }

  lemma LetsGo(s: State, p: nat, l: nat)
    requires Runs(s, p) && (s.procs[p].pc == AcqPrep(l) || s.procs[p].pc == AcqDone(l)) && l < |s.locks|
    ensures Enabled(s, Locking(DropLock(p)))
    ensures var q := s.procs[p];
            Do(s, Locking(DropLock(p))) ==
            MovedLock(s, p, q.(pc := if q.pc.AcqPrep? then AcqSleep(l) else Idle), l, s.locks[l].(guard := None))
  {
  }

  /** acquiresleep on a free sleep-lock takes it. */
  lemma AcquireTakes(s: State, p: nat, l: nat)
    requires Runs(s, p) && (s.procs[p].pc == Idle || s.procs[p].pc == AcqWant(l)) && l < |s.locks|
    requires s.locks[l].guard.None? && !s.locks[l].locked
    ensures Reaches(s, [Locking(TakeLock(p, l)), Locking(TryLock(p)), Locking(DropLock(p))],
                    MovedLock(s, p, s.procs[p].(pc := Idle, held := s.procs[p].held + {l}), l,
                              Lock(true, s.procs[p].pid, None, Some(p))))
  {
    hide Enabled, Do, Reaches;
    var a, b, c := Locking(TakeLock(p, l)), Locking(TryLock(p)), Locking(DropLock(p));
    Takes(s, p, l);
    var s1 := Do(s, a);
    Tries(s1, p, l);
    var s2 := Do(s1, b);
    LetsGo(s2, p, l);
    One(s2, c);
    First(s1, b, [c], Do(s2, c));
    First(s, a, [b] + [c], Do(s2, c));
    assert [a] + ([b] + [c]) == [a, b, c];
    SameState(s, Do(s2, c), p, s.procs[p].(pc := Idle, held := s.procs[p].held + {l}), l,
              Lock(true, s.procs[p].pid, None, Some(p)));
  }

  /** Process `p` and sleep-lock `l` are all that has changed. */
  lemma SameState(s: State, t: State, p: nat, q: Proc, l: nat, k: Lock)
    requires p < |s.procs| && l < |s.locks| && |t.procs| == |s.procs| && |t.locks| == |s.locks|
    requires t == s.(procs := t.procs, locks := t.locks) && t.procs[p] == q && t.locks[l] == k
    requires forall i: nat :: i < |s.procs| && i != p ==> t.procs[i] == s.procs[i]
    requires forall i: nat :: i < |s.locks| && i != l ==> t.locks[i] == s.locks[i]
    ensures t == MovedLock(s, p, q, l, k) && (k == s.locks[l] ==> t == Moved(s, p, q))
  {
    assert t.procs == s.procs[p := q];
    assert t.locks == s.locks[l := k];
    assert k == s.locks[l] ==> s.locks[l := k] == s.locks;
  }

  lemma FallsAsleep(s: State, p: nat, l: nat)
    requires Runs(s, p) && s.procs[p].pc == AcqSleep(l) && s.procs[p].chan == Some(OnLock(l))
    ensures Enabled(s, Waiting(Sleep(p)))
    ensures Do(s, Waiting(Sleep(p))) == Moved(s, p, s.procs[p].(state := SLEEPING, pc := AcqSlept(l)))
  {
  }

  /** acquiresleep on a held one goes to sleep, registered for its release. */
  lemma AcquireSleeps(s: State, p: nat, l: nat)
    requires Runs(s, p) && (s.procs[p].pc == Idle || s.procs[p].pc == AcqWant(l)) && l < |s.locks|
    requires s.locks[l].guard.None? && s.locks[l].locked
    ensures Reaches(s, [Locking(TakeLock(p, l)), Locking(TryLock(p)), Locking(DropLock(p)), Waiting(Sleep(p))],
                    Moved(s, p, s.procs[p].(state := SLEEPING, chan := Some(OnLock(l)), pc := AcqSlept(l))))
  {
    hide Enabled, Do, Reaches;
    var a, b, c, d := Locking(TakeLock(p, l)), Locking(TryLock(p)), Locking(DropLock(p)), Waiting(Sleep(p));
    Takes(s, p, l);
    var s1 := Do(s, a);
    Tries(s1, p, l);
    var s2 := Do(s1, b);
    LetsGo(s2, p, l);
    var s3 := Do(s2, c);
    FallsAsleep(s3, p, l);
    One(s3, d);
    First(s2, c, [d], Do(s3, d));
    First(s1, b, [c] + [d], Do(s3, d));
    First(s, a, [b] + ([c] + [d]), Do(s3, d));
    assert [a] + ([b] + ([c] + [d])) == [a, b, c, d];
    SameState(s, Do(s3, d), p, s.procs[p].(state := SLEEPING, chan := Some(OnLock(l)), pc := AcqSlept(l)), l,
              s.locks[l]);
  }

  /** fork makes a runnable child with a pid that nobody has had. */
  lemma ForkMakes(s: State, p: nat, n: nat)
    requires Reachable(s) && Runs(s, p) && s.procs[p].pc == Idle && n < |s.procs| && s.procs[n].state == UNUSED
    requires s.wait.None?
    ensures n != p && s.nextpid !in s.reaped
    ensures forall i: nat :: i < |s.procs| && s.procs[i].state != UNUSED ==> s.procs[i].pid != s.nextpid
    ensures Reaches(s, [Living(Alloc(p, n)), Living(Adopt(p)), Living(Start(p))],
                    s.(procs := s.procs[n := s.procs[n].(state := RUNNABLE, pid := s.nextpid, parent := Some(p))],
                       nextpid := s.nextpid + 1))
  {
    hide Inv, Reachable;
    ReachableInv(s);
    PidsNew(s);
    var a, b, c := Living(Alloc(p, n)), Living(Adopt(p)), Living(Start(p));
    var s1 := Do(s, a);
    var s2 := Do(s1, b);
    var t := Do(s2, c);
    One(s2, c);
    First(s1, b, [c], t);
    First(s, a, [b, c], t);
    assert [b] + [c] == [b, c] && [a] + [b, c] == [a, b, c];
    assert t.procs == s.procs[n := s.procs[n].(state := RUNNABLE, pid := s.nextpid, parent := Some(p))];
  }

  /** A fork that fails, for want of memory, leaves only a free slot and a pid that will not be used. */
  lemma ForkUndone(s: State, p: nat, n: nat)
    requires Reachable(s) && Runs(s, p) && s.procs[p].pc == Idle && n < |s.procs| && s.procs[n].state == UNUSED
    ensures n != p && Reaches(s, [Living(Alloc(p, n)), Living(ForkFail(p))],
                              s.(procs := s.procs[n := Freed()], nextpid := s.nextpid + 1))
  {
    hide Inv, Reachable;
    var a, b := Living(Alloc(p, n)), Living(ForkFail(p));
    var s1 := Do(s, a);
    One(s1, b);
    First(s, a, [b], Do(s1, b));
    assert [a] + [b] == [a, b] && Do(s1, b).procs == s.procs[n := Freed()];
  }

  /** Being preempted and run again changes nothing. */
  lemma Preempted(s: State, p: nat)
    requires Runs(s, p)
    ensures Reaches(s, [Living(Yield(p)), Living(Schedule(p))], s)
  {
    var a, b := Living(Yield(p)), Living(Schedule(p));
    var s1 := Do(s, a);
    One(s1, b);
    First(s, a, [b], Do(s1, b));
    assert [a] + [b] == [a, b] && Do(s1, b).procs == s.procs;
  }

  lemma PidsNew(s: State)
    requires Inv(s)
    ensures s.nextpid !in s.reaped
    ensures forall i: nat :: i < |s.procs| && s.procs[i].state != UNUSED ==> s.procs[i].pid != s.nextpid
  {
    hide ProcsOk, ForksOk, GuardOk, WaitOk, LockOk, HeldOk, ParentOk, ScanOk, ExitOk, KidsOk;
  }

  // ---------- waking up ----------

  /** A process woken from its sleep in acquiresleep takes the lock if it finds it free. */
  lemma WokenAcquires(s: State, p: nat, l: nat) returns (run: seq<Action>)
    requires p < |s.procs| && s.procs[p].state == RUNNABLE && s.procs[p].pc == AcqSlept(l) && l < |s.locks|
    requires s.locks[l].guard.None? && !s.locks[l].locked
    ensures Reaches(s, run, MovedLock(s, p, s.procs[p].(state := RUNNING, pc := Idle, held := s.procs[p].held + {l}), l,
                                      Lock(true, s.procs[p].pid, None, Some(p))))
  {
    hide Enabled, Do, Reaches;
    var a, b := Living(Schedule(p)), Waiting(Resume(p));
    Scheduled(s, p);
    var s1 := Do(s, a);
    Resumes(s1, p);
    var s2 := Do(s1, b);
    var rest := [Locking(TakeLock(p, l)), Locking(TryLock(p)), Locking(DropLock(p))];
    AcquireTakes(s2, p, l);
    var q := s.procs[p].(state := RUNNING, pc := Idle, held := s.procs[p].held + {l});
    var t := MovedLock(s2, p, q, l, Lock(true, s.procs[p].pid, None, Some(p)));
    SameState(s, t, p, q, l, Lock(true, s.procs[p].pid, None, Some(p)));
    First(s1, b, rest, t);
    First(s, a, [b] + rest, t);
    run := [a] + ([b] + rest);
  }

  lemma Scheduled(s: State, p: nat)
    requires p < |s.procs| && s.procs[p].state == RUNNABLE
    ensures Enabled(s, Living(Schedule(p))) && Do(s, Living(Schedule(p))) == Moved(s, p, s.procs[p].(state := RUNNING))
  {
  }

  lemma Resumes(s: State, p: nat)
    requires Runs(s, p) && (s.procs[p].pc.AcqSlept? || s.procs[p].pc.WaitSlept?)
    ensures Enabled(s, Waiting(Resume(p)))
    ensures var q := s.procs[p];
            Do(s, Waiting(Resume(p))) == Moved(s, p, q.(pc := if q.pc.AcqSlept? then AcqWant(q.pc.l) else WaitWant))
  {
  }

  lemma StartsScan(s: State, p: nat)
    requires Runs(s, p) && (s.procs[p].pc == Idle || s.procs[p].pc == WaitWant) && s.wait.None?
    ensures Enabled(s, Waiting(TakeWait(p)))
    ensures Do(s, Waiting(TakeWait(p))) == Moved(s, p, s.procs[p].(pc := Scan(0, false))).(wait := Some(p))
  {
  }

  lemma KillWakes(s: State, p: nat)
    requires p < |s.procs| && s.procs[p].state == SLEEPING
    ensures Enabled(s, Living(Kill(p)))
    ensures Do(s, Living(Kill(p))) == Moved(s, p, s.procs[p].(killed := true, state := RUNNABLE))
  {
  }

  lemma StaysReachable(s: State, run: seq<Action>, t: State)
    requires Reachable(s) && Reaches(s, run, t)
    ensures Reachable(t)
  {
    hide Boot, Reaches;
    var boot, first :| Boot(boot) && Reaches(boot, first, s);
    Then(boot, first, s, run, t);
  }

  /** kill reaches a process asleep in wait: it wakes, scans once more, and returns instead of sleeping again. */
  lemma KillEndsWait(s: State, p: nat) returns (run: seq<Action>, t: State)
    requires Reachable(s) && p < |s.procs| && s.procs[p].state == SLEEPING && s.procs[p].pc == WaitSlept && s.wait.None?
    ensures Reaches(s, run, t) && |t.procs| == |s.procs| && t.procs[p].pc == WaitDone && t.procs[p].killed
  {
    hide Enabled, Do, Reaches, Reachable, Inv, HasChild, NoZombies;
    var a, b, c, d := Living(Kill(p)), Living(Schedule(p)), Waiting(Resume(p)), Waiting(TakeWait(p));
    KillWakes(s, p);
    var s1 := Do(s, a);
    Scheduled(s1, p);
    var s2 := Do(s1, b);
    Resumes(s2, p);
    var s3 := Do(s2, c);
    StartsScan(s3, p);
    var s4 := Do(s3, d);
    One(s3, d);
    First(s2, c, [d], s4);
    First(s1, b, [c] + [d], s4);
    First(s, a, [b] + ([c] + [d]), s4);
    var first := [a] + ([b] + ([c] + [d]));
    StaysReachable(s, first, s4);
    var rest;
    if NoZombies(s4.procs, p) {
      rest := WaitRegisters(s4, p);
      t := AfterScan(s4, p, HasChild(s4.procs, p, |s4.procs|));
    } else {
      var z := LeastZombie(s4.procs, p);
      rest := WaitReaps(s4, p, z);
      t := AfterReap(s4, p, z);
    }
    Then(s, first, s4, rest, t);
    run := first + rest;
  }

  lemma LeastZombie(procs: seq<Proc>, p: nat) returns (c: nat)
    requires !NoZombies(procs, p)
    ensures FirstZombie(procs, p, c)
  {
    c := 0;
    while !ZombieChild(procs[c], p)
      invariant c < |procs| && forall d: nat :: d < c ==> !ZombieChild(procs[d], p)
      decreases |procs| - c
    {
      if c + 1 == |procs| { assert NoZombies(procs, p); }
      c := c + 1;
    }
  }

  /** A process that has registered in wait lets go of wait_lock and sleeps. */
  lemma WaitSleeps(s: State, p: nat)
    requires Runs(s, p) && s.procs[p].pc == WaitPrep && s.procs[p].chan == Some(OnProc(p))
    ensures Reaches(s, [Waiting(DropWait(p)), Waiting(Sleep(p))],
                    Moved(s, p, s.procs[p].(state := SLEEPING, pc := WaitSlept)).(wait := None))
  {
    var a, b := Waiting(DropWait(p)), Waiting(Sleep(p));
    var s1 := Do(s, a);
    One(s1, b);
    First(s, a, [b], Do(s1, b));
    assert [a] + [b] == [a, b];
    assert Do(s1, b).procs == s.procs[p := s.procs[p].(state := SLEEPING, pc := WaitSlept)];
  }
}
