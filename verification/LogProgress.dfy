/**
  What the log gets done: it can always come to rest, whoever waits then goes on, whoever waits does
  so asleep, and reading a block into the cache or dropping it changes nothing.
 */
module LogProgress {
  import opened DiskBlocks
  import opened RedoLog
  import opened LogProtocol

  lemma First(s: State, a: Action, rest: seq<Action>)
    requires Shaped(s) && Enabled(s, a) && Legal(Do(s, a), rest)
    ensures Legal(s, [a] + rest) && After(s, [a] + rest) == After(Do(s, a), rest)
  {
    hide Shaped, Enabled, Do;
    assert ([a] + rest)[1..] == rest;
  }

  lemma {:induction false} Then(s: State, acts: seq<Action>, a: Action)
    requires Legal(s, acts) && Shaped(After(s, acts)) && Enabled(After(s, acts), a)
    ensures Legal(s, acts + [a]) && After(s, acts + [a]) == Do(After(s, acts), a)
    decreases |acts|
  {
    hide Shaped, Enabled, Do;
    if acts == [] {
      First(s, a, []);
      assert acts + [a] == [a] + [];
    } else {
      Then(Do(s, acts[0]), acts[1..], a);
      assert (acts + [a])[1..] == acts[1..] + [a];
    }
  }

  // ---------- the log comes to rest ----------

  /** Operations end and commits go on, and nothing else happens. */
  predicate Winding(acts: seq<Action>) { forall i :: 0 <= i < |acts| ==> acts[i].EndOp? || acts[i].CommitStep? }

  lemma WindingMore(a: Action, rest: seq<Action>)
    requires Winding(rest) && (a.EndOp? || a.CommitStep?)
    ensures Winding([a] + rest)
  {
  }

  /** Nothing is running, logged or waited for, and all that was written in `s` is durable and home. */
  ghost predicate Rested(s: State, t: State) {
    && Inv(t) && t.phase.Open? && t.ops == [] && t.lh == [] && t.asleep == {} && t.syncs == s.syncs
    && t.trace == s.trace && t.durable == |t.trace| && t.g == s.g && t.base == s.base && HomeHolds(t)
    && t.ncommit == s.ncommit + if s.Busy() then 1 else 0
  }

  lemma AtRest(s: State)
    requires Inv(s) && s.phase.Open? && s.ops == []
    ensures Rested(s, s)
  {
    hide InvTrace, InvOps, InvCache, InvDurable, InvView, Sound, GoodList, Listed, Unspent, HomeHolds, Shaped;
    AllCommitted(s);
  }

  lemma OneEnds(s: State)
    requires Inv(s) && s.ops != []
    ensures s.phase.Open? && Shaped(s) && Enabled(s, EndOp(0))
    ensures var t := Do(s, EndOp(0));
            && Inv(t) && t.Up() && |t.ops| < |s.ops| && t.syncs == s.syncs && t.trace == s.trace && t.g == s.g
            && t.base == s.base && t.ncommit == s.ncommit && t.Busy()
  {
    hide Inv, Shaped;
    InvShaped(s);
    PhaseSays(s);
    StepKeeps(s, EndOp(0));
  }

  /** Left to itself the log comes to rest: the operations end, and one commit, if any, takes all of it. */
  lemma {:induction false} LogRests(s: State) returns (acts: seq<Action>)
    requires Inv(s) && Shaped(s) && s.Up()
    ensures Legal(s, acts) && Winding(acts) && Rested(s, After(s, acts))
    decreases |s.ops|, CommitLeft(s)
  {
    hide Inv, Do, Enabled, Shaped, HomeHolds, DoCommit, Sound;
    PhaseSays(s);
    if s.Committing() {
      CommitProgress(s);
      var t := Do(s, CommitStep);
      InvShaped(t);
      var rest := LogRests(t);
      First(s, CommitStep, rest);
      WindingMore(CommitStep, rest);
      acts := [CommitStep] + rest;
    } else if s.ops != [] {
      OneEnds(s);
      var t := Do(s, EndOp(0));
      InvShaped(t);
      var rest := LogRests(t);
      First(s, EndOp(0), rest);
      WindingMore(EndOp(0), rest);
      acts := [EndOp(0)] + rest;
    } else {
      AtRest(s);
      acts := [];
    }
  }

  /** begin_op in the end succeeds: from any reachable state a run of the others leads to one that admits it. */
  lemma OpAdmitted(s0: State, before: seq<Action>) returns (acts: seq<Action>)
    requires Init(s0) && Legal(s0, before) && After(s0, before).Up()
    ensures var s := After(s0, before);
            Legal(s, acts) && Winding(acts) && After(s, acts).asleep == {} && Enabled(After(s, acts), BeginOp)
  {
    hide Inv, Legal, After, Winding, Shaped, HomeHolds;
    InitInv(s0);
    RunKeeps(s0, before);
    InvShaped(After(s0, before));
    acts := LogRests(After(s0, before));
  }

  /** sys_sync in the end returns, and then all that was written before the call is durable. */
  lemma SyncEnds(s0: State, before: seq<Action>, p: nat) returns (acts: seq<Action>)
    requires Init(s0) && Legal(s0, before) && After(s0, before).Up() && p in After(s0, before).syncs
    ensures var s := After(s0, before);
            && Legal(s, acts + [SyncCheck(p)]) && Winding(acts)
            && var t := After(s, acts + [SyncCheck(p)]);
               p !in t.syncs && t.trace == s.trace && s.syncs[p].mark <= t.durable == |t.trace|
  {
    hide Inv, Legal, After, Winding, Shaped, HomeHolds;
    InitInv(s0);
    RunKeeps(s0, before);
    var s := After(s0, before);
    InvShaped(s);
    acts := LogRests(s);
    InvShaped(After(s, acts));
    SyncTarget(s, p);
    SyncTarget(After(s, acts), p);
    Then(s, acts, SyncCheck(p));
  }

  lemma SyncTarget(s: State, p: nat)
    requires Inv(s) && p in s.syncs
    ensures s.syncs[p].target <= s.ncommit + 1 && s.syncs[p].mark <= |s.trace|
    ensures s.ncommit < s.syncs[p].target ==> s.Busy()
  {
    hide InvTrace, InvOps, InvCache, InvDurable, InvView, InvPhase, GoodList, Sound, Shaped;
  }

  // ---------- waiting ----------

  /** A process that wants to begin is admitted or has to wait, never both, and may always call sys_sync. */
  lemma AdmittedOrWaits(s: State, p: nat)
    requires Inv(s) && s.Up() && p !in s.asleep && p !in s.syncs
    ensures Enabled(s, BeginOp) <==> !Enabled(s, BeginWait(p))
    ensures Enabled(s, SyncCall(p))
  {
    hide Inv;
  }

  /** A step that calls wakeup on the log, or ends everything. */
  predicate Wakes(s: State, a: Action) {
    (a.EndOp? && |s.ops| > 1) || (a.CommitStep? && s.phase.Finishing?) || a.Crash?
  }

  ghost predicate Unwoken(s: State, acts: seq<Action>)
    requires Legal(s, acts)
    decreases |acts|
  {
    acts == [] || (!Wakes(s, acts[0]) && Unwoken(Do(s, acts[0]), acts[1..]))
  }

  predicate Moves(a: Action, p: nat) { a == BeginWait(p) || a == SyncCall(p) || a == SyncCheck(p) }

  /** The step takes `p` to the sleep in begin_op or in sys_sync. */
  predicate HasToWait(s: State, a: Action, p: nat) {
    || a == BeginWait(p)
    || (a == SyncCall(p) && s.Busy())
    || (a == SyncCheck(p) && p in s.syncs && s.ncommit < s.syncs[p].target)
  }

  lemma AsleepStep(s: State, a: Action, p: nat)
    requires Inv(s) && Enabled(s, a) && p in s.asleep
    ensures !Moves(a, p) && Shaped(s) && Inv(Do(s, a)) && (p in Do(s, a).asleep <==> !Wakes(s, a))
  {
    hide Inv, Shaped, DoCommit, DoRecover, Sound, GoodList, Listed, PutHead, WithBlock;
    InvShaped(s);
    StepKeeps(s, a);
    PhaseSays(s);
    match a {
      case CommitStep => CommitAsleep(s);
      case RecoverStep => NobodyUp(s);
      case _ =>
    }
  }

  lemma CommitAsleep(s: State)
    requires Shaped(s) && s.Committing()
    ensures DoCommit(s).asleep == if s.phase.Finishing? then {} else s.asleep
  {
    hide Sound, GoodList, PutHead;
  }

  lemma NobodyUp(s: State)
    requires Inv(s) && (s.phase.Down? || s.phase.Recovering?)
    ensures s.asleep == {}
  {
    hide InvTrace, InvOps, InvCache, InvDurable, InvView, Sound, GoodList, Listed, Installed, Copied;
  }

  lemma {:induction false} AsleepRun(s: State, acts: seq<Action>, p: nat)
    requires Inv(s) && Legal(s, acts) && p in s.asleep && Unwoken(s, acts)
    ensures p in After(s, acts).asleep && forall i :: 0 <= i < |acts| ==> !Moves(acts[i], p)
    decreases |acts|
  {
    hide Inv, Do, Enabled, Shaped, Wakes, Moves;
    if acts != [] {
      AsleepStep(s, acts[0], p);
      AsleepRun(Do(s, acts[0]), acts[1..], p);
      forall i | 0 <= i < |acts| ensures !Moves(acts[i], p) {
        if i > 0 { assert acts[i] == acts[1..][i - 1]; }
      }
    }
  }

  /** Waiting is not busy: whoever has to wait makes no step until a commit ends or another operation does. */
  lemma WaitsAsleep(s0: State, before: seq<Action>, a: Action, acts: seq<Action>, p: nat)
    requires Init(s0) && Legal(s0, before) && Shaped(After(s0, before)) && Enabled(After(s0, before), a)
    requires HasToWait(After(s0, before), a, p) && Legal(Do(After(s0, before), a), acts)
    requires Unwoken(Do(After(s0, before), a), acts)
    ensures p in After(Do(After(s0, before), a), acts).asleep && forall i :: 0 <= i < |acts| ==> !Moves(acts[i], p)
  {
    hide Inv, Legal, After, Shaped, Unwoken, Moves;
    InitInv(s0);
    RunKeeps(s0, before);
    StepKeeps(After(s0, before), a);
    AsleepRun(Do(After(s0, before), a), acts, p);
  }

  // ---------- the cache ----------

  ghost predicate SameView(s: State, t: State) {
    |t.disk| == |s.disk| && forall b: nat :: b < |s.disk| ==> t.View(b) == s.View(b)
  }

  /**
    A block can be read in whenever it is not cached and dropped whenever it is not pinned; no reader
    can tell, and each undoes the other.
   */
  lemma CacheInvisible(s: State, b: nat)
    requires Inv(s) && Shaped(s) && b < |s.disk| && !s.phase.Down?
    ensures b !in s.cached ==>
              && Enabled(s, Load(b)) && var t := Do(s, Load(b));
                 b in t.cached && SameView(s, t) && Shaped(t) && Enabled(t, Evict(b)) && Do(t, Evict(b)) == s
    ensures b in s.cached && b !in s.Pinned() ==>
              && Enabled(s, Evict(b)) && var t := Do(s, Evict(b));
                 b !in t.cached && SameView(s, t) && Shaped(t) && Enabled(t, Load(b)) && Do(t, Load(b)) == s
  {
    hide InvTrace, InvOps, InvDurable, InvView, InvPhase, InvWait, Sound, GoodList, PinnedBy;
    if b in s.cached && b !in s.Pinned() {
      assert (s.cached - {b})[b := s.disk[b]] == s.cached;
    } else if b !in s.cached {
      assert s.cached[b := s.disk[b]] - {b} == s.cached;
    }
  }
}
