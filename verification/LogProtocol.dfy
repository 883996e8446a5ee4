/**
  The logging protocol as a state machine: system calls that begin, log blocks and
  end in any interleaving; group commit; cache loads and evictions at any moment;
  a crash between any two single-block disk writes, also during recovery.
 */
module LogProtocol {
  import opened DiskBlocks
  import opened RedoLog

  /** One log_write: operation `op` gave home block `b` the contents `data`. */
  datatype Write = Write(op: nat, b: nat, data: Block)

  /** The home contents after a sequence of writes. */
  function Apply(home: map<nat, Block>, tr: seq<Write>): map<nat, Block> {
    if tr == [] then home
    else
      var w := tr[|tr| - 1];
      Apply(home, tr[..|tr| - 1])[w.b := w.data]
  }

  /** An operation between begin_op and end_op, with the log slots it may still add. */
  datatype Op = Op(id: nat, unspent: nat)

  function Unspent(ops: seq<Op>): nat {
    if ops == [] then 0 else Unspent(ops[..|ops| - 1]) + ops[|ops| - 1].unspent
  }

  datatype Phase =
    | Open                     // log.committing is 0
    | CopyLog(tail: nat)       // write_log, about to write slot `tail` (or the header, at the end)
    | Installing(tail: nat)    // install_trans(0), about to write home block `tail`
    | Finishing                // commit() returned, log.committing still 1
    | Down                     // crashed: memory is gone
    | Recovering(tail: nat)    // install_trans(1)

  /** A process in sys_sync's loop; `mark` records how much had been written when it called. */
  datatype Sync = Sync(target: nat, mark: nat)

  /** Blocks whose buffers carry the extra reference that log_write takes and install_trans drops. */
  function PinnedBy(phase: Phase, lh: seq<nat>): set<nat> {
    match phase
    case Down => {}
    case Recovering(_) => {}
    case Installing(t) => set i | t <= i < |lh| :: lh[i]
    case _ => set i | 0 <= i < |lh| :: lh[i]
  }

  datatype State = State(
    g: Geometry,
    disk: Image,
    cached: map<nat, Block>,
    phase: Phase,
    lh: seq<nat>,              // log.lh.block[..log.lh.n]
    ops: seq<Op>,              // log.outstanding is |ops|
    ncommit: nat,
    asleep: set<nat>,          // processes registered on channel &log
    syncs: map<nat, Sync>,
    // history: contents at the start, every write so far, how many of them recovery yields
    base: map<nat, Block>,
    trace: seq<Write>,
    durable: nat,
    nextOp: nat)
  {
    predicate Committing() { phase.CopyLog? || phase.Installing? || phase.Finishing? }

    predicate Up() { !phase.Down? && !phase.Recovering? }

    function Pinned(): set<nat> { PinnedBy(phase, lh) }

    predicate Busy() { Committing() || ops != [] }

    /** What bread returns. */
    function View(b: nat): Block
      requires b < |disk|
    {
      Look(disk, cached, b)
    }

    function Logical(): map<nat, Block> { Apply(base, trace) }

    function DurableContents(): map<nat, Block>
      requires durable <= |trace|
    {
      Apply(base, trace[..durable])
    }

    /** The guard of begin_op. */
    predicate HasRoom() { |lh| + (|ops| + 1) * MAXOPBLOCKS <= LOGBLOCKS }

    /** The two panics of log_write. */
    predicate LogWritePanics() { |lh| >= LOGBLOCKS || |ops| < 1 }
  }

  datatype Action =
    | BeginOp
    | BeginWait(p: nat)
    | LogWrite(k: nat, b: nat, data: Block)
    | EndOp(k: nat)
    | SyncCall(p: nat)
    | SyncCheck(p: nat)
    | Load(b: nat)
    | Evict(b: nat)
    | CommitStep
    | Crash
    | RecoverStep

  predicate Enabled(s: State, a: Action) {
    match a
    case BeginOp => s.phase.Open? && s.HasRoom()
    case BeginWait(p) => s.Up() && p !in s.syncs && p !in s.asleep && (s.Committing() || !s.HasRoom())
    case LogWrite(k, b, data) =>
      // each operation adds at most MAXOPBLOCKS new blocks
      && s.phase.Open? && k < |s.ops| && s.g.Home(b)
      && !s.LogWritePanics() && (b in s.lh || s.ops[k].unspent > 0)
    case EndOp(k) => s.Up() && k < |s.ops|
    case SyncCall(p) => s.Up() && p !in s.syncs && p !in s.asleep
    case SyncCheck(p) => s.Up() && p in s.syncs && p !in s.asleep
    case Load(b) => !s.phase.Down? && b < |s.disk| && b !in s.cached
    case Evict(b) => b in s.cached && b !in s.Pinned()
    case CommitStep => s.Committing()
    case Crash => true
    case RecoverStep => s.phase.Down? || s.phase.Recovering?
  }

  function WithBlock(s: State, b: nat, data: Block): State
    requires b < |s.disk|
  {
    s.(disk := s.disk[b := data], cached := s.cached[b := data])
  }

  function DoLogWrite(s: State, k: nat, b: nat, data: Block): State
    requires k < |s.ops| && (b in s.lh || s.ops[k].unspent > 0)
  {
    var t := s.(cached := s.cached[b := data], trace := s.trace + [Write(s.ops[k].id, b, data)]);
    if b in s.lh then t
    else t.(lh := s.lh + [b], ops := s.ops[k := s.ops[k].(unspent := s.ops[k].unspent - 1)])
  }

  function DoEndOp(s: State, k: nat): State
    requires k < |s.ops|
  {
    var t := s.(ops := s.ops[..k] + s.ops[k + 1..]);
    if t.ops != [] then t.(asleep := {})
    else if s.lh == [] then t.(phase := Finishing)
    else t.(phase := CopyLog(0))
  }

  /** Enough structure for every enabled step to make sense. */
  predicate Shaped(s: State) {
    && Sound(s.g, s.disk) && GoodList(s.g, s.lh) && s.durable <= |s.trace|
    && (s.phase.CopyLog? || s.phase.Installing? || s.phase.Recovering? ==> s.phase.tail <= |s.lh|)
  }

  function DoCommit(s: State): State
    requires Shaped(s) && s.Committing()
  {
    match s.phase
    case CopyLog(t) =>
      if t < |s.lh| then
        WithBlock(s, s.g.Slot(t), s.View(s.lh[t])).(phase := CopyLog(t + 1))
      else
        WithBlock(s, s.g.start, PutHead(s.View(s.g.start), s.lh)).(phase := Installing(0), durable := |s.trace|)
    case Installing(t) =>
      if t < |s.lh| then
        WithBlock(s, s.lh[t], s.View(s.g.Slot(t))).(phase := Installing(t + 1))
      else
        WithBlock(s, s.g.start, PutHead(s.View(s.g.start), [])).(phase := Finishing, lh := [])
    case Finishing =>
      s.(phase := Open, ncommit := s.ncommit + 1, asleep := {})
  }

  function DoCrash(s: State): State
    requires Shaped(s)
  {
    s.(cached := map[], phase := Down, lh := [], ops := [], ncommit := 0, asleep := {}, syncs := map[],
       trace := s.trace[..s.durable])
  }

  function DoRecover(s: State): State
    requires Shaped(s) && (s.phase.Down? || s.phase.Recovering?)
  {
    match s.phase
    case Down => s.(phase := Recovering(0), lh := Listed(s.g, s.disk))
    case Recovering(t) =>
      if t < |s.lh| then
        WithBlock(s, s.lh[t], s.View(s.g.Slot(t))).(phase := Recovering(t + 1))
      else
        WithBlock(s, s.g.start, PutHead(s.View(s.g.start), [])).(phase := Open, lh := [])
  }

  function Do(s: State, a: Action): State
    requires Shaped(s) && Enabled(s, a)
  {
    match a
    case BeginOp => s.(ops := s.ops + [Op(s.nextOp, MAXOPBLOCKS)], nextOp := s.nextOp + 1)
    case BeginWait(p) => s.(asleep := s.asleep + {p})
    case LogWrite(k, b, data) => DoLogWrite(s, k, b, data)
    case EndOp(k) => DoEndOp(s, k)
    case SyncCall(p) =>
      if s.Committing() || s.ops != [] then
        s.(syncs := s.syncs[p := Sync(s.ncommit + 1, |s.trace|)], asleep := s.asleep + {p})
      else s
    case SyncCheck(p) =>
      if s.ncommit < s.syncs[p].target then s.(asleep := s.asleep + {p})
      else s.(syncs := s.syncs - {p})
    case Load(b) => s.(cached := s.cached[b := s.disk[b]])
    case Evict(b) => s.(cached := s.cached - {b})
    case CommitStep => DoCommit(s)
    case Crash => DoCrash(s)
    case RecoverStep => DoRecover(s)
  }

  // ---------- the invariant ----------

  ghost predicate InvTrace(g: Geometry, base: map<nat, Block>, trace: seq<Write>, durable: nat, nextOp: nat) {
    && durable <= |trace|
    && (forall b: nat | g.Home(b) :: b in base)
    && (forall i :: 0 <= i < |trace| ==> g.Home(trace[i].b) && trace[i].op < nextOp)
    // no operation is split between what is durable and what is not
    && (forall i, j :: 0 <= i < durable <= j < |trace| ==> trace[i].op != trace[j].op)
  }

  predicate InvOps(trace: seq<Write>, durable: nat, nextOp: nat, ops: seq<Op>) {
    && durable <= |trace|
    && (forall k :: 0 <= k < |ops| ==> ops[k].id < nextOp && ops[k].unspent <= MAXOPBLOCKS)
    // an operation that is still running has nothing durable
    && (forall i, k :: 0 <= i < durable && 0 <= k < |ops| ==> trace[i].op != ops[k].id)
  }

  predicate InvCache(g: Geometry, disk: Image, cached: map<nat, Block>, pinned: set<nat>) {
    && Fits(g, disk)
    && (forall b :: b in cached ==> b < |disk|)
    && (forall b :: b in pinned ==> b in cached && g.Home(b))
    && (forall b :: b in cached && b !in pinned ==> cached[b] == disk[b])
  }

  ghost predicate InvDurable(g: Geometry, disk: Image, base: map<nat, Block>, trace: seq<Write>, durable: nat) {
    durable <= |trace| && Holds(g, disk, Apply(base, trace[..durable]))
  }

  function Look(disk: Image, cached: map<nat, Block>, b: nat): Block
    requires b < |disk|
  {
    if b in cached then cached[b] else disk[b]
  }

  ghost predicate InvView(g: Geometry, disk: Image, cached: map<nat, Block>, home: map<nat, Block>)
    requires Fits(g, disk)
  {
    forall b: nat | g.Home(b) :: b in home && Look(disk, cached, b) == home[b]
  }

  /** The first n slots hold the cached copies of the listed blocks. */
  predicate Copied(g: Geometry, disk: Image, cached: map<nat, Block>, lh: seq<nat>, n: nat)
    requires Fits(g, disk) && GoodList(g, lh) && n <= |lh|
  {
    forall i :: 0 <= i < n ==> disk[g.Slot(i)] == Look(disk, cached, lh[i])
  }

  /** The first n listed blocks have been copied home. */
  predicate Installed(g: Geometry, disk: Image, lh: seq<nat>, n: nat)
    requires Fits(g, disk) && GoodList(g, lh) && n <= |lh|
  {
    forall i :: 0 <= i < n ==> disk[lh[i]] == disk[g.Slot(i)]
  }

  predicate InvPhase(g: Geometry, disk: Image, cached: map<nat, Block>, phase: Phase, lh: seq<nat>,
                     ops: seq<Op>, length: nat, durable: nat)
  {
    && Sound(g, disk) && GoodList(g, lh)
    && (!phase.Open? ==> ops == [])
    && (phase.Installing? || phase.Finishing? || phase.Down? || phase.Recovering? ==> durable == length)
    && Listed(g, disk) == (if phase.Installing? || phase.Recovering? then lh else
                           if phase.Down? then Listed(g, disk) else [])
    && match phase
       case Open =>
         && |lh| + Unspent(ops) <= LOGBLOCKS
         && (ops == [] ==> lh == [])
         && (lh == [] ==> durable == length)
       case CopyLog(t) => 0 < |lh| && t <= |lh| && Copied(g, disk, cached, lh, t)
       case Installing(t) => t <= |lh| && Copied(g, disk, cached, lh, |lh|) && Installed(g, disk, lh, t)
       case Finishing => lh == []
       case Down => cached == map[] && lh == []
       case Recovering(t) => t <= |lh| && Installed(g, disk, lh, t)
  }

  predicate InvWait(busy: bool, asleep: set<nat>, syncs: map<nat, Sync>, ncommit: nat, length: nat, durable: nat) {
    // whoever sleeps on &log has a commit or a running operation left to wake it
    && (asleep != {} ==> busy)
    && (forall p :: p in syncs ==>
          && syncs[p].target <= ncommit + 1
          && syncs[p].mark <= length
          && (ncommit < syncs[p].target ==> busy)
          && (syncs[p].target <= ncommit ==> syncs[p].mark <= durable))
  }

  ghost predicate Inv(s: State) {
    && Shaped(s)
    && InvTrace(s.g, s.base, s.trace, s.durable, s.nextOp)
    && InvOps(s.trace, s.durable, s.nextOp, s.ops)
    && InvCache(s.g, s.disk, s.cached, s.Pinned())
    && InvDurable(s.g, s.disk, s.base, s.trace, s.durable)
    && (s.Up() ==> InvView(s.g, s.disk, s.cached, s.Logical()))
    && InvPhase(s.g, s.disk, s.cached, s.phase, s.lh, s.ops, |s.trace|, s.durable)
    && InvWait(s.Busy(), s.asleep, s.syncs, s.ncommit, |s.trace|, s.durable)
  }

  // ---------- every step keeps it ----------

  /** Step `a` can be taken and keeps the invariant. */
  ghost predicate Keeps(s: State, a: Action) { Shaped(s) && Enabled(s, a) && Inv(Do(s, a)) }

  lemma {:induction false} UnspentUpdate(ops: seq<Op>, k: nat, o: Op)
    requires k < |ops|
    ensures Unspent(ops[k := o]) == Unspent(ops) - ops[k].unspent + o.unspent
  {
    var ops' := ops[k := o];
    if k == |ops| - 1 {
      assert ops'[..k] == ops[..k];
    } else {
      assert ops'[..|ops| - 1] == ops[..|ops| - 1][k := o];
      UnspentUpdate(ops[..|ops| - 1], k, o);
    }
  }

  lemma {:induction false} UnspentRemove(ops: seq<Op>, k: nat)
    requires k < |ops|
    ensures Unspent(ops[..k] + ops[k + 1..]) == Unspent(ops) - ops[k].unspent
  {
    var ops' := ops[..k] + ops[k + 1..];
    if k == |ops| - 1 {
      assert ops' == ops[..k];
    } else {
      var front := ops[..|ops| - 1];
      assert ops'[..|ops'| - 1] == front[..k] + front[k + 1..];
      UnspentRemove(front, k);
    }
  }

  lemma {:induction false} UnspentBound(ops: seq<Op>)
    requires forall k :: 0 <= k < |ops| ==> ops[k].unspent <= MAXOPBLOCKS
    ensures Unspent(ops) <= |ops| * MAXOPBLOCKS
  {
    if ops != [] { UnspentBound(ops[..|ops| - 1]); }
  }

  lemma OpsAfterBegin(trace: seq<Write>, durable: nat, nextOp: nat, ops: seq<Op>, g: Geometry, base: map<nat, Block>)
    requires InvOps(trace, durable, nextOp, ops) && InvTrace(g, base, trace, durable, nextOp)
    ensures InvOps(trace, durable, nextOp + 1, ops + [Op(nextOp, MAXOPBLOCKS)])
    ensures InvTrace(g, base, trace, durable, nextOp + 1)
    ensures Unspent(ops + [Op(nextOp, MAXOPBLOCKS)]) <= (|ops| + 1) * MAXOPBLOCKS
  {
    UnspentBound(ops + [Op(nextOp, MAXOPBLOCKS)]);
  }

  lemma BeginKeeps(s: State)
    requires Inv(s) && Enabled(s, BeginOp)
    ensures Keeps(s, BeginOp)
  {
    hide InvTrace, InvOps, InvCache, InvDurable, InvView, InvPhase, InvWait, Sound, GoodList, Unspent;
    OpsAfterBegin(s.trace, s.durable, s.nextOp, s.ops, s.g, s.base);
    PhaseAfterBegin(s.g, s.disk, s.cached, s.phase, s.lh, s.ops, |s.trace|, s.durable, Op(s.nextOp, MAXOPBLOCKS));
    WaitBusy(s.Busy(), s.asleep, s.syncs, s.ncommit, |s.trace|, s.durable);
  }

  lemma PhaseAfterBegin(g: Geometry, disk: Image, cached: map<nat, Block>, phase: Phase, lh: seq<nat>, ops: seq<Op>,
                        length: nat, durable: nat, o: Op)
    requires InvPhase(g, disk, cached, phase, lh, ops, length, durable) && phase.Open?
    requires |lh| + Unspent(ops + [o]) <= LOGBLOCKS
    ensures InvPhase(g, disk, cached, phase, lh, ops + [o], length, durable)
  {
    hide Unspent, Sound, GoodList;
  }

  lemma WaitBusy(busy: bool, asleep: set<nat>, syncs: map<nat, Sync>, ncommit: nat, length: nat, durable: nat)
    requires InvWait(busy, asleep, syncs, ncommit, length, durable)
    ensures InvWait(true, asleep, syncs, ncommit, length, durable)
  {
  }

  lemma ViewAfterWrite(g: Geometry, disk: Image, cached: map<nat, Block>, base: map<nat, Block>,
                       trace: seq<Write>, w: Write)
    requires Fits(g, disk) && InvView(g, disk, cached, Apply(base, trace)) && g.Home(w.b)
    ensures InvView(g, disk, cached[w.b := w.data], Apply(base, trace + [w]))
  {
    assert (trace + [w])[..|trace|] == trace;
  }

  lemma TraceAfterWrite(g: Geometry, disk: Image, base: map<nat, Block>, trace: seq<Write>, durable: nat,
                        nextOp: nat, ops: seq<Op>, k: nat, w: Write)
    requires InvTrace(g, base, trace, durable, nextOp) && InvOps(trace, durable, nextOp, ops)
    requires InvDurable(g, disk, base, trace, durable)
    requires k < |ops| && w.op == ops[k].id && g.Home(w.b)
    ensures InvTrace(g, base, trace + [w], durable, nextOp)
    ensures InvOps(trace + [w], durable, nextOp, ops)
    ensures InvDurable(g, disk, base, trace + [w], durable)
  {
    assert (trace + [w])[..durable] == trace[..durable];
  }

  /** Operation `k` has written block `b`: the write is the last of all, readers see it, and `b` is listed. */
  predicate Took(s: State, t: State, k: nat, b: nat, data: Block) {
    && k < |s.ops| && t.trace == s.trace + [Write(s.ops[k].id, b, data)] && t.disk == s.disk
    && b < |t.disk| && t.View(b) == data && t.lh == if b in s.lh then s.lh else s.lh + [b]
  }

  lemma AbsorbedWriteKeeps(s: State, k: nat, b: nat, data: Block)
    requires Inv(s) && Enabled(s, LogWrite(k, b, data)) && b in s.lh
    ensures Keeps(s, LogWrite(k, b, data)) && Took(s, Do(s, LogWrite(k, b, data)), k, b, data)
  {
    hide InvTrace, InvOps, InvCache, InvDurable, InvView, InvPhase, InvWait, GoodList, Sound, PinnedBy;
    var w := Write(s.ops[k].id, b, data);
    TraceAfterWrite(s.g, s.disk, s.base, s.trace, s.durable, s.nextOp, s.ops, k, w);
    CacheFits(s.g, s.disk, s.cached, s.Pinned());
    ViewAfterWrite(s.g, s.disk, s.cached, s.base, s.trace, w);
    CacheAfterWrite(s.g, s.disk, s.cached, s.Pinned(), b, data);
    PinnedAfterWrite(s.lh, b);
    OpenFacts(s.g, s.disk, s.cached, s.lh, s.ops, |s.trace|, s.durable);
    PhaseAfterWrite(s.g, s.disk, s.cached, s.lh, s.ops, |s.trace|, s.durable, s.lh, s.ops, s.cached[b := data]);
    WaitLonger(s.Busy(), s.asleep, s.syncs, s.ncommit, |s.trace|, s.durable);
  }

  lemma CacheFits(g: Geometry, disk: Image, cached: map<nat, Block>, pinned: set<nat>)
    requires InvCache(g, disk, cached, pinned)
    ensures Fits(g, disk)
  {
  }

  /** A write while the log is open: the list only grows, and what is on disk stays. */
  lemma PhaseAfterWrite(g: Geometry, disk: Image, cached: map<nat, Block>, lh: seq<nat>, ops: seq<Op>, length: nat,
                        durable: nat, lh': seq<nat>, ops': seq<Op>, cached': map<nat, Block>)
    requires InvPhase(g, disk, cached, Open, lh, ops, length, durable)
    requires lh' != [] && GoodList(g, lh') && |lh'| + Unspent(ops') <= LOGBLOCKS && ops' != []
    ensures InvPhase(g, disk, cached', Open, lh', ops', length + 1, durable)
  {
    hide Sound, GoodList, Listed, Unspent;
  }

  lemma WaitLonger(busy: bool, asleep: set<nat>, syncs: map<nat, Sync>, ncommit: nat, length: nat, durable: nat)
    requires InvWait(busy, asleep, syncs, ncommit, length, durable)
    ensures InvWait(busy, asleep, syncs, ncommit, length + 1, durable)
  {
  }

  lemma OpenFacts(g: Geometry, disk: Image, cached: map<nat, Block>, lh: seq<nat>, ops: seq<Op>, length: nat,
                  durable: nat)
    requires InvPhase(g, disk, cached, Open, lh, ops, length, durable)
    ensures GoodList(g, lh) && |lh| + Unspent(ops) <= LOGBLOCKS && (ops == [] ==> lh == [])
  {
    hide Sound, GoodList, Listed, Unspent;
  }

  lemma ListAfterWrite(g: Geometry, lh: seq<nat>, ops: seq<Op>, k: nat, b: nat, trace: seq<Write>, durable: nat,
                       nextOp: nat)
    requires GoodList(g, lh) && |lh| < LOGBLOCKS && b !in lh && g.Home(b)
    requires InvOps(trace, durable, nextOp, ops) && k < |ops| && ops[k].unspent > 0
    requires |lh| + Unspent(ops) <= LOGBLOCKS
    ensures GoodList(g, lh + [b])
    ensures var ops' := ops[k := ops[k].(unspent := ops[k].unspent - 1)];
            InvOps(trace, durable, nextOp, ops') && |lh + [b]| + Unspent(ops') <= LOGBLOCKS
  {
    UnspentUpdate(ops, k, ops[k].(unspent := ops[k].unspent - 1));
  }

  lemma CacheAfterWrite(g: Geometry, disk: Image, cached: map<nat, Block>, pinned: set<nat>, b: nat, data: Block)
    requires InvCache(g, disk, cached, pinned) && g.Home(b)
    ensures InvCache(g, disk, cached[b := data], pinned + {b})
  {
  }

  lemma FreshWriteKeeps(s: State, k: nat, b: nat, data: Block)
    requires Inv(s) && Enabled(s, LogWrite(k, b, data)) && b !in s.lh
    ensures Keeps(s, LogWrite(k, b, data)) && Took(s, Do(s, LogWrite(k, b, data)), k, b, data)
  {
    hide InvTrace, InvOps, InvCache, InvDurable, InvView, InvPhase, InvWait, GoodList, Sound, PinnedBy, Unspent;
    var w := Write(s.ops[k].id, b, data);
    TraceAfterWrite(s.g, s.disk, s.base, s.trace, s.durable, s.nextOp, s.ops, k, w);
    OpenFacts(s.g, s.disk, s.cached, s.lh, s.ops, |s.trace|, s.durable);
    ListAfterWrite(s.g, s.lh, s.ops, k, b, s.trace + [w], s.durable, s.nextOp);
    CacheFits(s.g, s.disk, s.cached, s.Pinned());
    ViewAfterWrite(s.g, s.disk, s.cached, s.base, s.trace, w);
    CacheAfterWrite(s.g, s.disk, s.cached, s.Pinned(), b, data);
    PinnedAfterWrite(s.lh, b);
    var ops' := s.ops[k := s.ops[k].(unspent := s.ops[k].unspent - 1)];
    PhaseAfterWrite(s.g, s.disk, s.cached, s.lh, s.ops, |s.trace|, s.durable, s.lh + [b], ops', s.cached[b := data]);
    WaitLonger(s.Busy(), s.asleep, s.syncs, s.ncommit, |s.trace|, s.durable);
  }

  lemma PinnedAfterWrite(lh: seq<nat>, b: nat)
    ensures PinnedBy(Open, lh + [b]) == PinnedBy(Open, lh) + {b}
    ensures b in lh ==> PinnedBy(Open, lh) == PinnedBy(Open, lh) + {b}
  {
    var lh' := lh + [b];
    assert forall i :: 0 <= i < |lh| ==> lh'[i] == lh[i];
    assert lh'[|lh|] == b;
  }

  lemma OpsAfterEnd(trace: seq<Write>, durable: nat, nextOp: nat, ops: seq<Op>, k: nat)
    requires InvOps(trace, durable, nextOp, ops) && k < |ops|
    ensures InvOps(trace, durable, nextOp, ops[..k] + ops[k + 1..])
  {
  }

  lemma EndOthersKeeps(s: State, k: nat)
    requires Inv(s) && Enabled(s, EndOp(k)) && |s.ops| > 1
    ensures Keeps(s, EndOp(k))
  {
    hide InvTrace, InvOps, InvCache, InvDurable, InvView, InvPhase, InvWait, GoodList, Sound, PinnedBy, Holds, Listed,
      PutHead, Unspent;
    var ops' := s.ops[..k] + s.ops[k + 1..];
    OpenWhileBusy(s.g, s.disk, s.cached, s.phase, s.lh, s.ops, |s.trace|, s.durable);
    UnspentRemove(s.ops, k);
    OpsAfterEnd(s.trace, s.durable, s.nextOp, s.ops, k);
    OpenFacts(s.g, s.disk, s.cached, s.lh, s.ops, |s.trace|, s.durable);
    PhaseAfterEnd(s.g, s.disk, s.cached, s.lh, s.ops, |s.trace|, s.durable, ops');
    WaitNobody(s.Busy(), s.asleep, s.syncs, s.ncommit, |s.trace|, s.durable);
  }

  /** The log is open while an operation runs. */
  lemma OpenWhileBusy(g: Geometry, disk: Image, cached: map<nat, Block>, phase: Phase, lh: seq<nat>, ops: seq<Op>,
                      length: nat, durable: nat)
    requires InvPhase(g, disk, cached, phase, lh, ops, length, durable) && ops != []
    ensures phase == Open
  {
    hide Sound, GoodList, Listed, Copied, Installed, Unspent;
  }

  lemma PhaseAfterEnd(g: Geometry, disk: Image, cached: map<nat, Block>, lh: seq<nat>, ops: seq<Op>, length: nat,
                      durable: nat, ops': seq<Op>)
    requires InvPhase(g, disk, cached, Open, lh, ops, length, durable) && ops' != [] && Unspent(ops') <= Unspent(ops)
    ensures InvPhase(g, disk, cached, Open, lh, ops', length, durable)
  {
    hide Sound, GoodList, Listed, Unspent;
  }

  lemma WaitNobody(busy: bool, asleep: set<nat>, syncs: map<nat, Sync>, ncommit: nat, length: nat, durable: nat)
    requires InvWait(busy, asleep, syncs, ncommit, length, durable)
    ensures InvWait(true, {}, syncs, ncommit, length, durable)
  {
  }

  lemma EndLastKeeps(s: State, k: nat)
    requires Inv(s) && Enabled(s, EndOp(k)) && |s.ops| == 1
    ensures Keeps(s, EndOp(k))
  {
    hide InvTrace, InvOps, InvCache, InvDurable, InvView, InvPhase, InvWait, GoodList, Sound, PinnedBy, Holds, Listed,
      PutHead;
    assert s.ops[..k] + s.ops[k + 1..] == [];
    OpenWhileBusy(s.g, s.disk, s.cached, s.phase, s.lh, s.ops, |s.trace|, s.durable);
    OpsAfterEnd(s.trace, s.durable, s.nextOp, s.ops, k);
    PhaseAfterLast(s.g, s.disk, s.cached, s.lh, s.ops, |s.trace|, s.durable);
    PinnedWhole(s.lh, 0);
    WaitBusy(s.Busy(), s.asleep, s.syncs, s.ncommit, |s.trace|, s.durable);
  }

  lemma PhaseAfterLast(g: Geometry, disk: Image, cached: map<nat, Block>, lh: seq<nat>, ops: seq<Op>, length: nat,
                       durable: nat)
    requires InvPhase(g, disk, cached, Open, lh, ops, length, durable)
    ensures InvPhase(g, disk, cached, if lh == [] then Finishing else CopyLog(0), lh, [], length, durable)
  {
    hide Sound, GoodList, Listed, Unspent;
  }

  /** What is pinned from the first log_write to the header write. */
  lemma PinnedWhole(lh: seq<nat>, t: nat)
    ensures PinnedBy(CopyLog(t), lh) == PinnedBy(Open, lh) == PinnedBy(Installing(0), lh) == PinnedBy(Finishing, lh)
  {
  }

  lemma BeginWaitKeeps(s: State, p: nat)
    requires Inv(s) && Enabled(s, BeginWait(p))
    ensures Keeps(s, BeginWait(p))
  {
    hide InvTrace, InvOps, InvCache, InvDurable, InvView, InvPhase, InvWait, GoodList, Sound, PinnedBy, Holds, Listed,
      PutHead;
    if s.phase.Open? { OpenFacts(s.g, s.disk, s.cached, s.lh, s.ops, |s.trace|, s.durable); }
    WaitMore(s.Busy(), s.asleep, s.syncs, s.ncommit, |s.trace|, s.durable, p);
  }

  lemma WaitMore(busy: bool, asleep: set<nat>, syncs: map<nat, Sync>, ncommit: nat, length: nat, durable: nat, p: nat)
    requires InvWait(busy, asleep, syncs, ncommit, length, durable) && busy
    ensures InvWait(busy, asleep + {p}, syncs, ncommit, length, durable)
    ensures InvWait(busy, asleep + {p}, syncs[p := Sync(ncommit + 1, length)], ncommit, length, durable)
  {
  }

  lemma SyncCallKeeps(s: State, p: nat)
    requires Inv(s) && Enabled(s, SyncCall(p))
    ensures Keeps(s, SyncCall(p))
  {
    hide InvTrace, InvOps, InvCache, InvDurable, InvView, InvPhase, InvWait, GoodList, Sound, PinnedBy, Holds, Listed,
      PutHead;
    if s.Busy() { WaitMore(s.Busy(), s.asleep, s.syncs, s.ncommit, |s.trace|, s.durable, p); }
  }

  lemma WaitAfterCheck(busy: bool, asleep: set<nat>, syncs: map<nat, Sync>, ncommit: nat, length: nat, durable: nat,
                       p: nat)
    requires InvWait(busy, asleep, syncs, ncommit, length, durable) && p in syncs
    ensures ncommit < syncs[p].target ==> InvWait(busy, asleep + {p}, syncs, ncommit, length, durable)
    ensures InvWait(busy, asleep, syncs - {p}, ncommit, length, durable)
  {
  }

  lemma SyncCheckKeeps(s: State, p: nat)
    requires Inv(s) && Enabled(s, SyncCheck(p))
    ensures Keeps(s, SyncCheck(p))
  {
    hide InvTrace, InvOps, InvCache, InvDurable, InvView, InvPhase, InvWait, GoodList, Sound, PinnedBy, Holds, Listed,
      PutHead;
    WaitAfterCheck(s.Busy(), s.asleep, s.syncs, s.ncommit, |s.trace|, s.durable, p);
  }

  /** Loading or dropping a clean copy is invisible to every reader. */
  lemma CleanCopy(g: Geometry, disk: Image, cached: map<nat, Block>, pinned: set<nat>, cached': map<nat, Block>, b: nat,
                  home: map<nat, Block>)
    requires InvCache(g, disk, cached, pinned) && b < |disk| && b !in pinned
    requires cached' == cached[b := disk[b]] || cached' == cached - {b}
    ensures InvCache(g, disk, cached', pinned)
    ensures forall a: nat :: a < |disk| ==> Look(disk, cached', a) == Look(disk, cached, a)
    ensures InvView(g, disk, cached, home) ==> InvView(g, disk, cached', home)
  {
  }

  /** No phase depends on more than what readers see. */
  lemma PhaseLooks(g: Geometry, disk: Image, cached: map<nat, Block>, phase: Phase, lh: seq<nat>, ops: seq<Op>,
                   length: nat, durable: nat, cached': map<nat, Block>)
    requires InvPhase(g, disk, cached, phase, lh, ops, length, durable) && !phase.Down?
    requires forall a: nat :: a < |disk| ==> Look(disk, cached', a) == Look(disk, cached, a)
    ensures InvPhase(g, disk, cached', phase, lh, ops, length, durable)
  {
    hide Look, Listed, HeadReadable, GetHead, Unspent, Installed;
  }

  lemma LoadKeeps(s: State, b: nat)
    requires Inv(s) && Enabled(s, Load(b))
    ensures Keeps(s, Load(b))
  {
    hide InvTrace, InvOps, InvCache, InvDurable, InvView, InvPhase, InvWait, GoodList, Sound, PinnedBy, Holds, Listed,
      PutHead;
    var cached' := s.cached[b := s.disk[b]];
    NotPinned(s.g, s.disk, s.cached, s.Pinned(), b);
    CleanCopy(s.g, s.disk, s.cached, s.Pinned(), cached', b, s.Logical());
    PhaseLooks(s.g, s.disk, s.cached, s.phase, s.lh, s.ops, |s.trace|, s.durable, cached');
  }

  lemma NotPinned(g: Geometry, disk: Image, cached: map<nat, Block>, pinned: set<nat>, b: nat)
    requires InvCache(g, disk, cached, pinned)
    ensures (b !in cached ==> b !in pinned) && (b in cached ==> b < |disk|)
  {
  }

  lemma EvictKeeps(s: State, b: nat)
    requires Inv(s) && Enabled(s, Evict(b))
    ensures Keeps(s, Evict(b))
  {
    hide InvTrace, InvOps, InvCache, InvDurable, InvView, InvPhase, InvWait, GoodList, Sound, PinnedBy, Holds, Listed,
      PutHead;
    var cached' := s.cached - {b};
    if s.phase.Down? { DownFacts(s.g, s.disk, s.cached, s.phase, s.lh, s.ops, |s.trace|, s.durable); }
    NotPinned(s.g, s.disk, s.cached, s.Pinned(), b);
    CleanCopy(s.g, s.disk, s.cached, s.Pinned(), cached', b, s.Logical());
    PhaseLooks(s.g, s.disk, s.cached, s.phase, s.lh, s.ops, |s.trace|, s.durable, cached');
  }

  lemma DownFacts(g: Geometry, disk: Image, cached: map<nat, Block>, phase: Phase, lh: seq<nat>, ops: seq<Op>,
                  length: nat, durable: nat)
    requires InvPhase(g, disk, cached, phase, lh, ops, length, durable) && phase.Down?
    ensures cached == map[] && lh == [] && ops == [] && durable == length
  {
    hide Sound, GoodList, Listed;
  }

  /** A write outside the home area goes to disk and cache alike and is invisible to readers. */
  lemma LogAreaWrite(g: Geometry, disk: Image, cached: map<nat, Block>, pinned: set<nat>, b: nat, data: Block,
                     home: map<nat, Block>)
    requires InvCache(g, disk, cached, pinned) && b < |disk| && !g.Home(b)
    ensures InvCache(g, disk[b := data], cached[b := data], pinned)
    ensures InvView(g, disk, cached, home) ==> InvView(g, disk[b := data], cached[b := data], home)
    ensures forall a: nat :: a < |disk| && a != b ==>
              Look(disk[b := data], cached[b := data], a) == Look(disk, cached, a)
  {
  }

  lemma CopiedNext(g: Geometry, disk: Image, cached: map<nat, Block>, lh: seq<nat>, t: nat)
    requires Fits(g, disk) && GoodList(g, lh) && t < |lh| && Copied(g, disk, cached, lh, t)
    ensures var data := Look(disk, cached, lh[t]);
            Copied(g, disk[g.Slot(t) := data], cached[g.Slot(t) := data], lh, t + 1)
  {
  }

  lemma CopyFacts(g: Geometry, disk: Image, cached: map<nat, Block>, phase: Phase, lh: seq<nat>, ops: seq<Op>,
                  length: nat, durable: nat)
    requires InvPhase(g, disk, cached, phase, lh, ops, length, durable) && phase.CopyLog?
    ensures Fits(g, disk) && GoodList(g, lh) && |lh| <= LOGBLOCKS && Sound(g, disk) && Listed(g, disk) == []
    ensures ops == [] && 0 < |lh| && phase.tail <= |lh| && Copied(g, disk, cached, lh, phase.tail)
    ensures forall t: nat :: t < LOGBLOCKS ==> g.Slot(t) < |disk| && !g.Home(g.Slot(t))
    ensures forall i :: 0 <= i < |lh| ==> lh[i] < |disk|
  {
    hide HeadReadable, GetHead, Copied, Distinct;
  }

  lemma CopyPhase(g: Geometry, disk: Image, cached: map<nat, Block>, lh: seq<nat>, t: nat, length: nat, durable: nat)
    requires Sound(g, disk) && Listed(g, disk) == [] && GoodList(g, lh) && 0 < |lh| && t <= |lh|
    requires Copied(g, disk, cached, lh, t)
    ensures InvPhase(g, disk, cached, CopyLog(t), lh, [], length, durable)
  {
    hide HeadReadable, GetHead, Copied, Distinct;
  }

  lemma CopySlotKeeps(s: State)
    requires Inv(s) && s.phase.CopyLog? && s.phase.tail < |s.lh|
    ensures Keeps(s, CommitStep)
  {
    hide InvTrace, InvOps, InvCache, InvDurable, InvView, InvPhase, InvWait, GoodList, Sound, PinnedBy, Holds, Listed,
      PutHead, Copied;
    var t := s.phase.tail;
    CopyFacts(s.g, s.disk, s.cached, s.phase, s.lh, s.ops, |s.trace|, s.durable);
    var data := Look(s.disk, s.cached, s.lh[t]);
    var disk', cached' := s.disk[s.g.Slot(t) := data], s.cached[s.g.Slot(t) := data];
    DurableHolds(s.g, s.disk, s.base, s.trace, s.durable);
    SlotWriteKeeps(s.g, s.disk, t, data, s.DurableContents());
    HoldsSound(s.g, disk', s.DurableContents());
    HoldsDurable(s.g, disk', s.base, s.trace, s.durable);
    LogAreaWrite(s.g, s.disk, s.cached, s.Pinned(), s.g.Slot(t), data, s.Logical());
    CopiedNext(s.g, s.disk, s.cached, s.lh, t);
    CopyPhase(s.g, disk', cached', s.lh, t + 1, |s.trace|, s.durable);
    PinnedWhole(s.lh, t);
    PinnedWhole(s.lh, t + 1);
  }

  /** The header block as the cache sees it is the one on disk. */
  lemma HeaderClean(s: State)
    requires Inv(s)
    ensures s.g.start < |s.disk| && s.View(s.g.start) == s.disk[s.g.start]
    ensures s.g.start !in s.Pinned()
  {
    assert !s.g.Home(s.g.start);
  }

  lemma TakeAll<T>(s: seq<T>)
    ensures s[..|s|] == s
  {
  }

  lemma InstallPhase(g: Geometry, disk: Image, cached: map<nat, Block>, lh: seq<nat>, t: nat, length: nat)
    requires Sound(g, disk) && Listed(g, disk) == lh && GoodList(g, lh) && t <= |lh|
    requires Copied(g, disk, cached, lh, |lh|) && Installed(g, disk, lh, t)
    ensures InvPhase(g, disk, cached, Installing(t), lh, [], length, length)
  {
    hide HeadReadable, GetHead, Copied, Distinct, Installed;
  }

  /** The commit point. */
  lemma WriteHeadKeeps(s: State)
    requires Inv(s) && s.phase.CopyLog? && s.phase.tail == |s.lh|
    ensures Keeps(s, CommitStep)
  {
    hide InvTrace, InvOps, InvCache, InvDurable, InvView, InvPhase, InvWait, GoodList, Sound, PinnedBy, Holds, Listed,
      PutHead, Copied;
    CopyFacts(s.g, s.disk, s.cached, s.phase, s.lh, s.ops, |s.trace|, s.durable);
    HeaderClean(s);
    var data := PutHead(s.disk[s.g.start], s.lh);
    var disk', cached' := s.disk[s.g.start := data], s.cached[s.g.start := data];
    LogAreaWrite(s.g, s.disk, s.cached, s.Pinned(), s.g.start, data, s.Logical());
    AllStaged(s);
    HeadWriteCommits(s.g, s.disk, s.lh, s.Logical());
    HoldsSound(s.g, disk', s.Logical());
    CopiedDespiteHeader(s.g, s.disk, s.cached, s.lh, data);
    InstallPhase(s.g, disk', cached', s.lh, 0, |s.trace|);
    TraceAllDurable(s.g, s.base, s.trace, s.durable, s.nextOp);
    TakeAll(s.trace);
    HoldsDurable(s.g, disk', s.base, s.trace, |s.trace|);
    PinnedWhole(s.lh, s.phase.tail);
    WaitDurable(s.Busy(), s.asleep, s.syncs, s.ncommit, |s.trace|, s.durable);
  }

  lemma WaitDurable(busy: bool, asleep: set<nat>, syncs: map<nat, Sync>, ncommit: nat, length: nat, durable: nat)
    requires InvWait(busy, asleep, syncs, ncommit, length, durable)
    ensures InvWait(busy, asleep, syncs, ncommit, length, length)
  {
  }

  /** When write_log is done, slots and untouched home blocks together hold the logical contents. */
  lemma AllStaged(s: State)
    requires Inv(s) && s.phase.CopyLog? && s.phase.tail == |s.lh|
    ensures forall b: nat | s.g.Home(b) :: b in s.Logical()
    ensures forall i :: 0 <= i < |s.lh| ==> s.disk[s.g.Slot(i)] == s.Logical()[s.lh[i]]
    ensures forall b: nat | s.g.Home(b) && b !in s.lh :: s.disk[b] == s.Logical()[b]
  {
    hide Holds, InvTrace, InvOps;
    forall b: nat | s.g.Home(b) && b !in s.lh ensures s.disk[b] == s.Logical()[b] {
      assert b !in s.Pinned();
    }
  }

  lemma CopiedDespiteHeader(g: Geometry, disk: Image, cached: map<nat, Block>, lh: seq<nat>, data: Block)
    requires Fits(g, disk) && GoodList(g, lh) && Copied(g, disk, cached, lh, |lh|)
    ensures Copied(g, disk[g.start := data], cached[g.start := data], lh, |lh|)
  {
  }

  lemma TraceAllDurable(g: Geometry, base: map<nat, Block>, trace: seq<Write>, durable: nat, nextOp: nat)
    requires InvTrace(g, base, trace, durable, nextOp)
    ensures InvTrace(g, base, trace, |trace|, nextOp)
    ensures InvOps(trace, |trace|, nextOp, [])
  {
  }

  /** Writing a pinned block's cached contents home makes the pin unnecessary. */
  lemma CleanAfterInstall(g: Geometry, disk: Image, cached: map<nat, Block>, pinned: set<nat>, b: nat, data: Block,
                          home: map<nat, Block>)
    requires InvCache(g, disk, cached, pinned) && g.Home(b) && Look(disk, cached, b) == data
    ensures InvCache(g, disk[b := data], cached[b := data], pinned - {b})
    ensures InvView(g, disk, cached, home) ==> InvView(g, disk[b := data], cached[b := data], home)
    ensures forall a: nat :: a < |disk| ==> Look(disk[b := data], cached[b := data], a) == Look(disk, cached, a)
  {
  }

  lemma PinnedAfterInstall(lh: seq<nat>, t: nat)
    requires t < |lh| && Distinct(lh)
    ensures PinnedBy(Installing(t + 1), lh) == PinnedBy(Installing(t), lh) - {lh[t]}
  {
  }

  lemma InstalledNext(g: Geometry, disk: Image, lh: seq<nat>, t: nat)
    requires Fits(g, disk) && GoodList(g, lh) && t < |lh| && Installed(g, disk, lh, t)
    ensures Installed(g, disk[lh[t] := disk[g.Slot(t)]], lh, t + 1)
  {
  }

  lemma CopiedStays(g: Geometry, disk: Image, cached: map<nat, Block>, lh: seq<nat>, t: nat, data: Block)
    requires Fits(g, disk) && GoodList(g, lh) && Copied(g, disk, cached, lh, |lh|)
    requires t < |lh| && data == disk[g.Slot(t)]
    ensures Copied(g, disk[lh[t] := data], cached[lh[t] := data], lh, |lh|)
  {
  }

  lemma InstallFacts(g: Geometry, disk: Image, cached: map<nat, Block>, phase: Phase, lh: seq<nat>, ops: seq<Op>,
                     length: nat, durable: nat)
    requires InvPhase(g, disk, cached, phase, lh, ops, length, durable) && (phase.Installing? || phase.Recovering?)
    ensures Fits(g, disk) && Sound(g, disk) && GoodList(g, lh) && Distinct(lh) && Listed(g, disk) == lh
    ensures |lh| <= LOGBLOCKS
    ensures ops == [] && durable == length && phase.tail <= |lh| && Installed(g, disk, lh, phase.tail)
    ensures phase.Installing? ==> Copied(g, disk, cached, lh, |lh|)
    ensures forall t: nat :: t < LOGBLOCKS ==> g.Slot(t) < |disk|
    ensures forall i :: 0 <= i < |lh| ==> lh[i] < |disk| && g.Home(lh[i])
  {
    hide HeadReadable, GetHead, Copied, Distinct, Installed;
  }

  lemma CopiedAt(g: Geometry, disk: Image, cached: map<nat, Block>, lh: seq<nat>, t: nat)
    requires Fits(g, disk) && GoodList(g, lh) && Copied(g, disk, cached, lh, |lh|) && t < |lh|
    ensures Look(disk, cached, lh[t]) == disk[g.Slot(t)]
  {
  }

  lemma InstallStepKeeps(s: State)
    requires Inv(s) && s.phase.Installing? && s.phase.tail < |s.lh|
    ensures Keeps(s, CommitStep)
  {
    hide InvTrace, InvOps, InvCache, InvDurable, InvView, InvPhase, InvWait, GoodList, Sound, PinnedBy, Holds, Listed,
      PutHead, Copied, Installed, Distinct;
    var t := s.phase.tail;
    InstallFacts(s.g, s.disk, s.cached, s.phase, s.lh, s.ops, |s.trace|, s.durable);
    SlotClean(s, t);
    var data := s.disk[s.g.Slot(t)];
    var disk', cached' := s.disk[s.lh[t] := data], s.cached[s.lh[t] := data];
    DurableHolds(s.g, s.disk, s.base, s.trace, s.durable);
    InstallKeeps(s.g, s.disk, t, s.DurableContents());
    HoldsSound(s.g, disk', s.DurableContents());
    HoldsDurable(s.g, disk', s.base, s.trace, s.durable);
    CopiedAt(s.g, s.disk, s.cached, s.lh, t);
    CleanAfterInstall(s.g, s.disk, s.cached, s.Pinned(), s.lh[t], data, s.Logical());
    PinnedAfterInstall(s.lh, t);
    CopiedStays(s.g, s.disk, s.cached, s.lh, t, data);
    InstalledNext(s.g, s.disk, s.lh, t);
    InstallPhase(s.g, disk', cached', s.lh, t + 1, |s.trace|);
  }

  /** Log slots are never dirty in the cache. */
  lemma SlotClean(s: State, t: nat)
    requires Inv(s) && t < LOGBLOCKS
    ensures s.g.Slot(t) < |s.disk| && s.View(s.g.Slot(t)) == s.disk[s.g.Slot(t)]
  {
    assert !s.g.Home(s.g.Slot(t));
  }

  /** Nothing is pinned once every listed block is home. */
  lemma NonePinned(lh: seq<nat>)
    ensures PinnedBy(Installing(|lh|), lh) == {} && PinnedBy(Finishing, []) == {} && PinnedBy(Open, []) == {}
    ensures PinnedBy(Down, []) == {}
  {
  }

  /** With an empty list on disk and in memory, the log is at rest. */
  lemma RestPhase(g: Geometry, disk: Image, cached: map<nat, Block>, length: nat)
    requires Sound(g, disk) && Listed(g, disk) == []
    ensures InvPhase(g, disk, cached, Finishing, [], [], length, length)
    ensures InvPhase(g, disk, cached, Open, [], [], length, length) && GoodList(g, [])
  {
    hide HeadReadable, GetHead, Fits;
  }

  lemma InstalledFacts(g: Geometry, disk: Image, cached: map<nat, Block>, phase: Phase, lh: seq<nat>, ops: seq<Op>,
                       length: nat, durable: nat)
    requires InvPhase(g, disk, cached, phase, lh, ops, length, durable)
    requires (phase.Installing? || phase.Recovering?) && phase.tail == |lh|
    ensures Sound(g, disk) && Listed(g, disk) == lh && durable == length && ops == []
    ensures forall i :: 0 <= i < |lh| ==> disk[lh[i]] == disk[g.Slot(i)]
  {
    hide HeadReadable, GetHead, Copied, Unspent;
  }

  lemma DurableHolds(g: Geometry, disk: Image, base: map<nat, Block>, trace: seq<Write>, durable: nat)
    requires InvDurable(g, disk, base, trace, durable)
    ensures durable <= |trace| && Holds(g, disk, Apply(base, trace[..durable]))
  {
  }

  lemma HoldsDurable(g: Geometry, disk: Image, base: map<nat, Block>, trace: seq<Write>, durable: nat)
    requires durable <= |trace| && Holds(g, disk, Apply(base, trace[..durable]))
    ensures InvDurable(g, disk, base, trace, durable)
  {
  }

  lemma HoldsSound(g: Geometry, disk: Image, home: map<nat, Block>)
    requires Holds(g, disk, home)
    ensures Sound(g, disk)
  {
  }

  lemma EraseStepKeeps(s: State)
    requires Inv(s) && s.phase.Installing? && s.phase.tail == |s.lh|
    ensures Keeps(s, CommitStep)
  {
    hide InvTrace, InvOps, InvCache, InvDurable, InvView, InvPhase, InvWait, GoodList, Sound, PinnedBy, Holds, Listed,
      PutHead;
    HeaderClean(s);
    var data := PutHead(s.disk[s.g.start], []);
    var disk' := s.disk[s.g.start := data];
    NonePinned(s.lh);
    InstalledFacts(s.g, s.disk, s.cached, s.phase, s.lh, s.ops, |s.trace|, s.durable);
    LogAreaWrite(s.g, s.disk, s.cached, s.Pinned(), s.g.start, data, s.Logical());
    DurableHolds(s.g, s.disk, s.base, s.trace, s.durable);
    EraseKeeps(s.g, s.disk, s.DurableContents());
    HoldsSound(s.g, disk', s.DurableContents());
    HoldsDurable(s.g, disk', s.base, s.trace, s.durable);
    RestPhase(s.g, disk', s.cached[s.g.start := data], |s.trace|);
  }

  lemma FinishFacts(g: Geometry, disk: Image, cached: map<nat, Block>, phase: Phase, lh: seq<nat>, ops: seq<Op>,
                    length: nat, durable: nat)
    requires InvPhase(g, disk, cached, phase, lh, ops, length, durable) && phase.Finishing?
    ensures Sound(g, disk) && Listed(g, disk) == [] && lh == [] && ops == [] && durable == length
  {
    hide HeadReadable, GetHead, GoodList;
  }

  lemma WaitFinished(busy: bool, asleep: set<nat>, syncs: map<nat, Sync>, ncommit: nat, length: nat)
    requires InvWait(busy, asleep, syncs, ncommit, length, length)
    ensures InvWait(false, {}, syncs, ncommit + 1, length, length)
  {
  }

  lemma FinishKeeps(s: State)
    requires Inv(s) && s.phase.Finishing?
    ensures Keeps(s, CommitStep)
  {
    hide InvTrace, InvOps, InvCache, InvDurable, InvView, InvPhase, InvWait, GoodList, Sound, PinnedBy, Holds, Listed,
      PutHead;
    FinishFacts(s.g, s.disk, s.cached, s.phase, s.lh, s.ops, |s.trace|, s.durable);
    RestPhase(s.g, s.disk, s.cached, |s.trace|);
    NonePinned([]);
    WaitFinished(s.Busy(), s.asleep, s.syncs, s.ncommit, |s.trace|);
  }

  lemma TraceAfterCrash(g: Geometry, base: map<nat, Block>, trace: seq<Write>, durable: nat, nextOp: nat)
    requires InvTrace(g, base, trace, durable, nextOp)
    ensures InvTrace(g, base, trace[..durable], durable, nextOp)
    ensures InvOps(trace[..durable], durable, nextOp, [])
  {
  }

  lemma CrashKeeps(s: State)
    requires Inv(s)
    ensures Keeps(s, Crash)
  {
    hide InvTrace, InvOps, InvCache, InvDurable, InvView, InvPhase, InvWait, GoodList, Sound, PinnedBy, Holds;
    TraceAfterCrash(s.g, s.base, s.trace, s.durable, s.nextOp);
    TakeAll(s.trace[..s.durable]);
    NonePinned([]);
    CacheFits(s.g, s.disk, s.cached, s.Pinned());
    DownOk(s.g, s.disk, s.durable);
    DurableHolds(s.g, s.disk, s.base, s.trace, s.durable);
    HoldsDurable(s.g, s.disk, s.base, s.trace[..s.durable], s.durable);
  }

  /** With memory gone there is nothing left to be wrong. */
  lemma DownOk(g: Geometry, disk: Image, length: nat)
    requires Sound(g, disk)
    ensures InvPhase(g, disk, map[], Down, [], [], length, length) && InvCache(g, disk, map[], {})
    ensures InvWait(false, {}, map[], 0, length, length) && GoodList(g, [])
  {
    hide HeadReadable, GetHead;
  }

  lemma RecoverPhase(g: Geometry, disk: Image, cached: map<nat, Block>, lh: seq<nat>, t: nat, length: nat)
    requires Sound(g, disk) && Listed(g, disk) == lh && GoodList(g, lh) && t <= |lh| && Installed(g, disk, lh, t)
    ensures InvPhase(g, disk, cached, Recovering(t), lh, [], length, length)
  {
    hide HeadReadable, GetHead, Distinct, Installed;
  }

  lemma ListedGood(g: Geometry, disk: Image)
    requires Sound(g, disk)
    ensures GoodList(g, Listed(g, disk)) && Installed(g, disk, Listed(g, disk), 0)
  {
  }

  lemma RecoverReadKeeps(s: State)
    requires Inv(s) && s.phase.Down?
    ensures Keeps(s, RecoverStep)
  {
    hide InvTrace, InvOps, InvCache, InvDurable, InvView, InvPhase, InvWait, GoodList, Sound, PinnedBy, Holds, Listed,
      PutHead, Installed;
    DownFacts(s.g, s.disk, s.cached, s.phase, s.lh, s.ops, |s.trace|, s.durable);
    ListedGood(s.g, s.disk);
    RecoverPhase(s.g, s.disk, s.cached, Listed(s.g, s.disk), 0, |s.trace|);
    NonePinned([]);
    RecoverPinned(Recovering(0), Listed(s.g, s.disk));
  }

  /** Without pins, writing disk and cache alike keeps them alike. */
  lemma BothWritten(g: Geometry, disk: Image, cached: map<nat, Block>, b: nat, data: Block)
    requires InvCache(g, disk, cached, {}) && b < |disk|
    ensures InvCache(g, disk[b := data], cached[b := data], {})
  {
  }

  lemma RecoverInstallKeeps(s: State)
    requires Inv(s) && s.phase.Recovering? && s.phase.tail < |s.lh|
    ensures Keeps(s, RecoverStep)
  {
    hide InvTrace, InvOps, InvCache, InvDurable, InvView, InvPhase, InvWait, GoodList, Sound, PinnedBy, Holds, Listed,
      PutHead, Installed, Copied;
    var t := s.phase.tail;
    InstallFacts(s.g, s.disk, s.cached, s.phase, s.lh, s.ops, |s.trace|, s.durable);
    SlotClean(s, t);
    var data := s.disk[s.g.Slot(t)];
    var disk', cached' := s.disk[s.lh[t] := data], s.cached[s.lh[t] := data];
    DurableHolds(s.g, s.disk, s.base, s.trace, s.durable);
    InstallKeeps(s.g, s.disk, t, s.DurableContents());
    HoldsSound(s.g, disk', s.DurableContents());
    HoldsDurable(s.g, disk', s.base, s.trace, s.durable);
    RecoverPinned(s.phase, s.lh);
    RecoverPinned(Recovering(t + 1), s.lh);
    BothWritten(s.g, s.disk, s.cached, s.lh[t], data);
    InstalledNext(s.g, s.disk, s.lh, t);
    RecoverPhase(s.g, disk', cached', s.lh, t + 1, |s.trace|);
  }

  /** With nothing listed and nothing pinned, readers see what the disk means. */
  lemma ViewOfDisk(g: Geometry, disk: Image, cached: map<nat, Block>, home: map<nat, Block>)
    requires Holds(g, disk, home) && Listed(g, disk) == [] && InvCache(g, disk, cached, {})
    ensures InvView(g, disk, cached, home)
  {
    hide HeadReadable, GetHead, GoodList;
    forall b: nat | g.Home(b) ensures b in home && Look(disk, cached, b) == home[b] {
      assert Redo(g, disk, b) == home[b];
    }
  }

  lemma RecoverEraseKeeps(s: State)
    requires Inv(s) && s.phase.Recovering? && s.phase.tail == |s.lh|
    ensures Keeps(s, RecoverStep)
  {
    hide InvTrace, InvOps, InvCache, InvDurable, InvView, InvPhase, InvWait, GoodList, Sound, PinnedBy, Holds, Listed,
      PutHead;
    HeaderClean(s);
    var data := PutHead(s.disk[s.g.start], []);
    var disk', cached' := s.disk[s.g.start := data], s.cached[s.g.start := data];
    NonePinned([]);
    RecoverPinned(s.phase, s.lh);
    InstalledFacts(s.g, s.disk, s.cached, s.phase, s.lh, s.ops, |s.trace|, s.durable);
    LogAreaWrite(s.g, s.disk, s.cached, {}, s.g.start, data, s.Logical());
    DurableHolds(s.g, s.disk, s.base, s.trace, s.durable);
    EraseKeeps(s.g, s.disk, s.DurableContents());
    HoldsSound(s.g, disk', s.DurableContents());
    HoldsDurable(s.g, disk', s.base, s.trace, s.durable);
    TakeAll(s.trace);
    ViewOfDisk(s.g, disk', cached', s.DurableContents());
    RestPhase(s.g, disk', cached', |s.trace|);
  }

  lemma RecoverPinned(phase: Phase, lh: seq<nat>)
    requires phase.Recovering?
    ensures PinnedBy(phase, lh) == {}
  {
  }

  lemma StepKeeps(s: State, a: Action)
    requires Inv(s) && Enabled(s, a)
    ensures Inv(Do(s, a))
  {
    match a
    case BeginOp => BeginKeeps(s);
    case BeginWait(p) => BeginWaitKeeps(s, p);
    case LogWrite(k, b, data) =>
      if b in s.lh { AbsorbedWriteKeeps(s, k, b, data); } else { FreshWriteKeeps(s, k, b, data); }
    case EndOp(k) => if |s.ops| == 1 { EndLastKeeps(s, k); } else { EndOthersKeeps(s, k); }
    case SyncCall(p) => SyncCallKeeps(s, p);
    case SyncCheck(p) => SyncCheckKeeps(s, p);
    case Load(b) => LoadKeeps(s, b);
    case Evict(b) => EvictKeeps(s, b);
    case CommitStep => CommitKeeps(s);
    case Crash => CrashKeeps(s);
    case RecoverStep => RecoverKeeps(s);
  }

  lemma CommitKeeps(s: State)
    requires Inv(s) && Enabled(s, CommitStep)
    ensures Keeps(s, CommitStep)
  {
    if s.phase.Finishing? { FinishKeeps(s); }
    else if s.phase.CopyLog? {
      if s.phase.tail < |s.lh| { CopySlotKeeps(s); } else { WriteHeadKeeps(s); }
    } else if s.phase.tail < |s.lh| { InstallStepKeeps(s); } else { EraseStepKeeps(s); }
  }

  lemma RecoverKeeps(s: State)
    requires Inv(s) && Enabled(s, RecoverStep)
    ensures Keeps(s, RecoverStep)
  {
    if s.phase.Down? { RecoverReadKeeps(s); }
    else if s.phase.tail < |s.lh| { RecoverInstallKeeps(s); } else { RecoverEraseKeeps(s); }
  }

  // ---------- theorems about whole runs ----------

  /** Power-on over any readable disk: nothing in memory, the history starts at what the disk means. */
  ghost predicate Init(s: State) {
    && Sound(s.g, s.disk) && s.phase.Down? && s.cached == map[] && s.lh == [] && s.ops == [] && s.asleep == {}
    && s.syncs == map[] && s.trace == [] && s.durable == 0
    && Holds(s.g, s.disk, s.base)
  }

  ghost predicate Legal(s: State, acts: seq<Action>)
    decreases |acts|
  {
    acts == [] || (Shaped(s) && Enabled(s, acts[0]) && Legal(Do(s, acts[0]), acts[1..]))
  }

  ghost function After(s: State, acts: seq<Action>): State
    requires Legal(s, acts)
    decreases |acts|
  {
    if acts == [] then s else After(Do(s, acts[0]), acts[1..])
  }

  lemma InitInv(s: State)
    requires Init(s)
    ensures Inv(s)
  {
    TakeAll(s.trace);
  }

  lemma StepSame(s: State, a: Action)
    requires Shaped(s) && Enabled(s, a)
    ensures Do(s, a).base == s.base && Do(s, a).g == s.g
  {
    hide Sound, GoodList, DoLogWrite, DoEndOp, DoCommit, DoRecover;
    match a {
      case LogWrite(k, b, data) => LogWriteSame(s, k, b, data);
      case EndOp(k) => EndOpSame(s, k);
      case CommitStep => CommitSame(s);
      case RecoverStep => RecoverSame(s);
      case _ =>
    }
  }

  lemma LogWriteSame(s: State, k: nat, b: nat, data: Block)
    requires k < |s.ops| && (b in s.lh || s.ops[k].unspent > 0)
    ensures DoLogWrite(s, k, b, data).base == s.base && DoLogWrite(s, k, b, data).g == s.g
  {
  }

  lemma EndOpSame(s: State, k: nat)
    requires k < |s.ops|
    ensures DoEndOp(s, k).base == s.base && DoEndOp(s, k).g == s.g
  {
  }

  lemma CommitSame(s: State)
    requires Shaped(s) && s.Committing()
    ensures DoCommit(s).base == s.base && DoCommit(s).g == s.g
  {
    hide Sound, GoodList, PutHead;
  }

  lemma RecoverSame(s: State)
    requires Shaped(s) && (s.phase.Down? || s.phase.Recovering?)
    ensures DoRecover(s).base == s.base && DoRecover(s).g == s.g
  {
    hide Sound, GoodList, PutHead;
  }

  lemma {:induction false} RunKeeps(s: State, acts: seq<Action>)
    requires Inv(s) && Legal(s, acts)
    ensures Inv(After(s, acts)) && After(s, acts).base == s.base && After(s, acts).g == s.g
    decreases |acts|
  {
    hide Inv, Do, Enabled, Shaped;
    if acts != [] {
      StepKeeps(s, acts[0]);
      StepSame(s, acts[0]);
      RunKeeps(Do(s, acts[0]), acts[1..]);
    }
  }

  // ---------- what was asked for ----------

  /**
    What a list of actions asks of the log, told without the log: the operations begun and not
    ended, the writes that have not been lost, how many of them have been committed, the blocks
    written since the last commit, and the disk writes left until the header names them.
   */
  datatype Story = Story(running: seq<nat>, next: nat, writes: seq<Write>, kept: nat, list: seq<nat>, left: nat)

  function Tell(st: Story, a: Action): Story {
    match a
    case BeginOp => st.(running := st.running + [st.next], next := st.next + 1)
    case LogWrite(k, b, data) =>
      if k >= |st.running| then st
      else st.(writes := st.writes + [Write(st.running[k], b, data)],
               list := if b in st.list then st.list else st.list + [b])
    case EndOp(k) =>
      if k >= |st.running| then st
      else
        var others := st.running[..k] + st.running[k + 1..];
        st.(running := others, left := if others == [] && st.list != [] then |st.list| + 1 else 0)
    case CommitStep =>
      if st.left == 1 then st.(kept := |st.writes|, list := [], left := 0)
      else if st.left > 1 then st.(left := st.left - 1) else st
    case Crash => Story([], st.next, if st.kept <= |st.writes| then st.writes[..st.kept] else [], st.kept, [], 0)
    case _ => st
  }

  function Tale(st: Story, acts: seq<Action>): Story
    decreases |acts|
  {
    if acts == [] then st else Tale(Tell(st, acts[0]), acts[1..])
  }

  /** The story of a run from power-on. */
  function Told(s0: State, acts: seq<Action>): Story { Tale(Story([], s0.nextOp, [], 0, [], 0), acts) }

  predicate Ids(ops: seq<Op>, running: seq<nat>) {
    |ops| == |running| && forall k :: 0 <= k < |ops| ==> ops[k].id == running[k]
  }

  /** The log has done what the story says. */
  predicate Follows(s: State, st: Story) {
    && s.trace == st.writes && s.durable == st.kept && s.nextOp == st.next && Ids(s.ops, st.running)
    && st.list == (if s.phase.Open? || s.phase.CopyLog? then s.lh else [])
    && st.left == if s.phase.CopyLog? && s.phase.tail <= |s.lh| then |s.lh| + 1 - s.phase.tail else 0
  }

  lemma EndsFollow(ops: seq<Op>, running: seq<nat>, k: nat)
    requires Ids(ops, running) && k < |ops|
    ensures Ids(ops[..k] + ops[k + 1..], running[..k] + running[k + 1..])
  {
  }

  /** What the phase says about the list and the running operations. */
  lemma PhaseSays(s: State)
    requires Inv(s)
    ensures (s.ops != [] ==> s.phase.Open?) && (s.phase.CopyLog? ==> 0 < |s.lh|)
    ensures (s.phase.Open? && s.ops == []) || s.phase.Finishing? ==> s.lh == []
  {
    hide InvTrace, InvOps, InvCache, InvDurable, InvView, InvWait, Sound, GoodList, Copied, Installed, Listed, Unspent;
  }

  lemma WriteFollows(s: State, k: nat, b: nat, data: Block, st: Story)
    requires s.phase.Open? && k < |s.ops| && (b in s.lh || s.ops[k].unspent > 0) && Follows(s, st)
    ensures Follows(DoLogWrite(s, k, b, data), Tell(st, LogWrite(k, b, data)))
  {
  }

  lemma EndFollows(s: State, k: nat, st: Story)
    requires s.phase.Open? && k < |s.ops| && Follows(s, st)
    ensures Follows(DoEndOp(s, k), Tell(st, EndOp(k)))
  {
    hide Ids;
    EndsFollow(s.ops, st.running, k);
    SameLengths(s.ops, st.running);
    SameLengths(s.ops[..k] + s.ops[k + 1..], st.running[..k] + st.running[k + 1..]);
  }

  lemma SameLengths(ops: seq<Op>, running: seq<nat>)
    requires Ids(ops, running)
    ensures |ops| == |running|
  {
  }

  lemma FollowsStep(s: State, a: Action, st: Story)
    requires Inv(s) && Enabled(s, a) && Follows(s, st)
    ensures Follows(Do(s, a), Tell(st, a))
  {
    hide Inv, DoCommit, DoRecover, DoEndOp, DoLogWrite, Sound, GoodList;
    InvShaped(s);
    PhaseSays(s);
    match a {
      case LogWrite(k, b, data) => WriteFollows(s, k, b, data, st);
      case EndOp(k) => EndFollows(s, k, st);
      case CommitStep => CommitFollows(s, st);
      case RecoverStep => RecoverFollows(s, st);
      case _ =>
    }
  }

  lemma CommitFollows(s: State, st: Story)
    requires Shaped(s) && s.Committing() && Follows(s, st) && (s.phase.Finishing? ==> s.lh == [])
    ensures Follows(DoCommit(s), Tell(st, CommitStep))
  {
    hide Sound, GoodList, PutHead, Ids;
  }

  lemma RecoverFollows(s: State, st: Story)
    requires Shaped(s) && (s.phase.Down? || s.phase.Recovering?) && Follows(s, st)
    ensures Follows(DoRecover(s), Tell(st, RecoverStep))
  {
    hide Sound, GoodList, PutHead, Ids, Listed;
  }

  lemma {:induction false} RunFollows(s: State, acts: seq<Action>, st: Story)
    requires Inv(s) && Legal(s, acts) && Follows(s, st)
    ensures Follows(After(s, acts), Tale(st, acts))
    decreases |acts|
  {
    hide Inv, Do, Enabled, Shaped, Follows, Tell;
    if acts != [] {
      StepKeeps(s, acts[0]);
      FollowsStep(s, acts[0], st);
      RunFollows(Do(s, acts[0]), acts[1..], Tell(st, acts[0]));
    }
  }

  /** After every run, the log has done exactly what the actions of the run asked for. */
  lemma DoesAsTold(s0: State, acts: seq<Action>)
    requires Init(s0) && Legal(s0, acts)
    ensures Inv(After(s0, acts)) && After(s0, acts).base == s0.base && After(s0, acts).g == s0.g
    ensures Follows(After(s0, acts), Told(s0, acts))
  {
    hide Inv, Legal, After, Tale;
    InitInv(s0);
    RunKeeps(s0, acts);
    RunFollows(s0, acts, Story([], s0.nextOp, [], 0, [], 0));
  }

  /**
    At every moment of every run, the disk means exactly the committed part of the writes asked
    for, readers see all of them, and no operation is committed in part.
   */
  lemma CrashSafety(s0: State, acts: seq<Action>)
    requires Init(s0) && Legal(s0, acts)
    ensures var s, st := After(s0, acts), Told(s0, acts);
            && st.kept <= |st.writes| && Holds(s0.g, s.disk, Apply(s0.base, st.writes[..st.kept]))
            && (forall i, j :: 0 <= i < st.kept <= j < |st.writes| ==> st.writes[i].op != st.writes[j].op)
            && (forall i, k :: 0 <= i < st.kept && 0 <= k < |st.running| ==> st.writes[i].op != st.running[k])
            && (s.Up() ==> forall b: nat | s0.g.Home(b) ::
                  b < |s.disk| && b in Apply(s0.base, st.writes) && s.View(b) == Apply(s0.base, st.writes)[b])
  {
    hide Legal, After, Told, Holds, Apply, Inv;
    DoesAsTold(s0, acts);
    SafeNow(After(s0, acts));
  }

  /** What the invariant says about a crash at this moment. */
  lemma SafeNow(s: State)
    requires Inv(s)
    ensures s.durable <= |s.trace| && Holds(s.g, s.disk, Apply(s.base, s.trace[..s.durable]))
    ensures forall i, j :: 0 <= i < s.durable <= j < |s.trace| ==> s.trace[i].op != s.trace[j].op
    ensures forall i, k :: 0 <= i < s.durable && 0 <= k < |s.ops| ==> s.trace[i].op != s.ops[k].id
    ensures s.Up() ==> forall b: nat | s.g.Home(b) ::
              b < |s.disk| && b in Apply(s.base, s.trace) && s.View(b) == Apply(s.base, s.trace)[b]
  {
    hide Holds, Apply, InvPhase, InvWait, InvCache, Sound, GoodList;
    if s.Up() { UpFits(s); }
  }

  lemma UpFits(s: State)
    requires Inv(s)
    ensures Fits(s.g, s.disk)
  {
    hide InvTrace, InvOps, InvDurable, InvView, InvPhase, InvWait, Sound, GoodList;
  }

  lemma InvShaped(s: State)
    requires Inv(s)
    ensures Shaped(s) && s.durable <= |s.trace|
  {
    hide InvTrace, InvOps, InvCache, InvDurable, InvView, InvPhase, InvWait, Sound, GoodList;
  }

  lemma DurableStep(s: State, a: Action)
    requires Inv(s) && Enabled(s, a)
    ensures var s' := Do(s, a);
            s'.durable <= |s'.trace| && s.trace[..s.durable] <= s'.trace[..s'.durable]
  {
    hide Inv, Enabled, Do, Shaped;
    InvShaped(s);
    DurableGrows(s, a);
  }

  lemma DurableGrows(s: State, a: Action)
    requires Shaped(s) && Enabled(s, a)
    ensures var s' := Do(s, a);
            s'.durable <= |s'.trace| && s.trace[..s.durable] <= s'.trace[..s'.durable]
  {
    hide Sound, GoodList, PutHead, Listed, WithBlock;
    match a
    case LogWrite(_, _, _) =>
    case CommitStep => CommitTrace(s);
    case RecoverStep => RecoverTrace(s);
    case _ =>
  }

  lemma CommitTrace(s: State)
    requires Shaped(s) && s.Committing()
    ensures DoCommit(s).trace == s.trace && (DoCommit(s).durable == s.durable || DoCommit(s).durable == |s.trace|)
    ensures DoCommit(s).syncs == s.syncs
  {
  }

  lemma RecoverTrace(s: State)
    requires Shaped(s) && (s.phase.Down? || s.phase.Recovering?)
    ensures DoRecover(s).trace == s.trace && DoRecover(s).durable == s.durable && DoRecover(s).syncs == s.syncs
  {
  }

  /** What was durable stays durable, through any number of crashes. */
  lemma {:induction false} DurableForever(s: State, acts: seq<Action>)
    requires Inv(s) && Legal(s, acts)
    ensures var s' := After(s, acts);
            s'.durable <= |s'.trace| && s.trace[..s.durable] <= s'.trace[..s'.durable]
    decreases |acts|
  {
    hide Inv, Do, Enabled, Shaped;
    InvShaped(s);
    if acts != [] {
      StepKeeps(s, acts[0]);
      DurableStep(s, acts[0]);
      DurableForever(Do(s, acts[0]), acts[1..]);
    }
  }

  ghost function StepsLeft(s: State): nat
    requires s.phase.Recovering? ==> s.phase.tail <= |s.lh|
  {
    if s.phase.Down? then LOGBLOCKS + 2
    else if s.phase.Recovering? then |s.lh| - s.phase.tail + 1 else 0
  }

  /** Recovery left alone: recover_from_log run to its end. */
  ghost function Recovered(s: State): (r: State)
    requires Inv(s) && !s.Up()
    ensures r.phase.Open? && Inv(r) && r.trace == s.trace && r.base == s.base && r.g == s.g && HomeHolds(r)
    decreases StepsLeft(s)
  {
    var t := RecoverOnce(s);
    if t.Up() then t else Recovered(t)
  }

  /** Recovery has come nearer its end, or has left the contents in the home blocks. */
  ghost predicate Nearer(s: State, t: State) {
    && t.trace == s.trace && t.base == s.base && t.g == s.g
    && (s.phase.Recovering? ==> s.phase.tail <= |s.lh|) && (t.phase.Recovering? ==> t.phase.tail <= |t.lh|)
    && (if t.Up() then t.phase.Open? && HomeHolds(t) else StepsLeft(t) < StepsLeft(s))
  }

  ghost function RecoverOnce(s: State): (t: State)
    requires Inv(s) && !s.Up()
    ensures Inv(t) && Nearer(s, t)
  {
    RecoverProgress(s);
    Do(s, RecoverStep)
  }

  /** The home blocks hold the logical contents. */
  ghost predicate HomeHolds(s: State) {
    forall b: nat | s.g.Home(b) :: b in s.Logical() && b < |s.disk| && s.disk[b] == s.Logical()[b]
  }

  lemma GoodShort(g: Geometry, lh: seq<nat>)
    requires GoodList(g, lh)
    ensures |lh| <= LOGBLOCKS
  {
  }

  lemma RecoverProgress(s: State)
    requires Inv(s) && !s.Up()
    ensures Keeps(s, RecoverStep) && Nearer(s, Do(s, RecoverStep))
  {
    hide InvTrace, InvOps, InvCache, InvDurable, InvView, InvPhase, InvWait, HomeHolds, PutHead, Sound, GoodList,
      Listed;
    RecoverKeeps(s);
    var t := Do(s, RecoverStep);
    GoodShort(t.g, t.lh);
    if t.Up() { OpenMeansHome(t); }
  }

  /** With nothing logged, the home blocks themselves hold the contents. */
  lemma OpenMeansHome(s: State)
    requires Inv(s) && s.phase.Open? && s.lh == []
    ensures HomeHolds(s)
  {
    hide Holds, InvTrace, InvOps;
    forall b: nat | s.g.Home(b) ensures b in s.Logical() && b < |s.disk| && s.disk[b] == s.Logical()[b] {
      assert b !in s.Pinned();
      assert Look(s.disk, s.cached, b) == s.Logical()[b];
    }
  }

  /** Lose memory, then recover. */
  ghost function Restart(s: State): (r: State)
    requires Inv(s)
    ensures r.phase.Open? && Inv(r) && r.trace == s.trace[..s.durable]
    ensures forall b: nat | s.g.Home(b) ::
              b in s.DurableContents() && b < |r.disk| && r.disk[b] == s.DurableContents()[b]
  {
    CrashKeeps(s);
    Recovered(Do(s, Crash))
  }

  /** Stop a run anywhere and restart: the home blocks hold the committed writes asked for and nothing else. */
  lemma CrashThenRecover(s0: State, acts: seq<Action>)
    requires Init(s0) && Legal(s0, acts)
    ensures Inv(After(s0, acts)) && Told(s0, acts).kept <= |Told(s0, acts).writes|
    ensures var s, st := After(s0, acts), Told(s0, acts);
            var want := Apply(s0.base, st.writes[..st.kept]);
            forall b: nat | s0.g.Home(b) :: b in want && b < |Restart(s).disk| && Restart(s).disk[b] == want[b]
  {
    hide Legal, After, Told, Inv, Apply, Restart, Ids;
    DoesAsTold(s0, acts);
    InvShaped(After(s0, acts));
    RestartHolds(After(s0, acts), Told(s0, acts).writes, Told(s0, acts).kept);
  }

  lemma RestartHolds(s: State, writes: seq<Write>, kept: nat)
    requires Inv(s) && writes == s.trace && kept == s.durable <= |s.trace|
    ensures var want := Apply(s.base, writes[..kept]);
            forall b: nat | s.g.Home(b) :: b in want && b < |Restart(s).disk| && Restart(s).disk[b] == want[b]
  {
    hide Apply, InvTrace, InvOps, InvCache, InvDurable, InvView, InvPhase, InvWait, Shaped, Sound;
    var r := Restart(s);
    assert s.DurableContents() == Apply(s.base, writes[..kept]);
    forall b: nat | s.g.Home(b)
      ensures b in Apply(s.base, writes[..kept]) && b < |r.disk| && r.disk[b] == Apply(s.base, writes[..kept])[b]
    {
      assert b in s.DurableContents();
    }
  }

  // ---------- commits end ----------

  ghost function CommitLeft(s: State): nat
    requires s.phase.CopyLog? || s.phase.Installing? ==> s.phase.tail <= |s.lh|
  {
    match s.phase
    case CopyLog(t) => 2 * |s.lh| + 3 - t
    case Installing(t) => |s.lh| + 2 - t
    case Finishing => 1
    case _ => 0
  }

  /** A commit has come nearer its end, or has ended. */
  ghost predicate CommitNearer(s: State, t: State) {
    && t.trace == s.trace && t.base == s.base && t.g == s.g && t.syncs == s.syncs && t.ops == s.ops
    && (s.phase.CopyLog? || s.phase.Installing? ==> s.phase.tail <= |s.lh|)
    && (t.phase.CopyLog? || t.phase.Installing? ==> t.phase.tail <= |t.lh|)
    && (if t.Committing() then CommitLeft(t) < CommitLeft(s) && t.ncommit == s.ncommit
        else t.phase.Open? && t.lh == [] && t.asleep == {} && t.ncommit == s.ncommit + 1)
  }

  lemma CommitProgress(s: State)
    requires Inv(s) && s.Committing()
    ensures Keeps(s, CommitStep) && CommitNearer(s, Do(s, CommitStep))
  {
    hide Inv, Sound, GoodList, PutHead, Listed;
    CommitKeeps(s);
    PhaseSays(s);
    CommitSame(s);
    CommitTrace(s);
  }

  lemma AllCommitted(s: State)
    requires Inv(s) && s.phase.Open? && s.lh == []
    ensures s.durable == |s.trace| && HomeHolds(s)
  {
    hide InvTrace, InvOps, InvCache, InvDurable, InvView, InvWait, Sound, GoodList, Unspent, Listed;
    OpenMeansHome(s);
  }

  /**
    In every run, an operation with reservation left can log any block and meets neither panic of
    log_write, and an operation can begin whenever none is running.
   */
  lemma ReservationSuffices(s0: State, acts: seq<Action>, k: nat)
    requires Init(s0) && Legal(s0, acts)
    ensures var s := After(s0, acts);
            && (s.phase.Open? ==> |s.lh| + Unspent(s.ops) <= LOGBLOCKS)
            && (k < |s.ops| && s.ops[k].unspent > 0 ==>
                  && s.phase.Open? && !s.LogWritePanics()
                  && forall b: nat, data: Block :: s.g.Home(b) ==> Enabled(s, LogWrite(k, b, data)))
            && (s.phase.Open? && s.ops == [] ==> Enabled(s, BeginOp))
  {
    hide Legal, After, Inv, Unspent;
    InitInv(s0);
    RunKeeps(s0, acts);
    PhaseSays(After(s0, acts));
    RoomLeft(After(s0, acts), k);
  }

  lemma RoomLeft(s: State, k: nat)
    requires Inv(s)
    ensures s.phase.Open? ==> |s.lh| + Unspent(s.ops) <= LOGBLOCKS
    ensures k < |s.ops| && s.ops[k].unspent > 0 ==> s.phase.Open? && !s.LogWritePanics()
  {
    hide InvTrace, InvOps, InvCache, InvDurable, InvView, InvPhase, InvWait, GoodList, Sound, Unspent;
    if s.phase.Open? { OpenFacts(s.g, s.disk, s.cached, s.lh, s.ops, |s.trace|, s.durable); }
    if k < |s.ops| {
      OpenWhileBusy(s.g, s.disk, s.cached, s.phase, s.lh, s.ops, |s.trace|, s.durable);
      UnspentUpdate(s.ops, k, s.ops[k].(unspent := 0));
    }
  }

  /** Nobody is asleep who could go on: a sync waits for a commit to come, anybody else for room or a commit's end. */
  predicate SleepersWait(s: State) {
    forall p :: p in s.asleep ==> if p in s.syncs then s.ncommit < s.syncs[p].target else s.Committing() || !s.HasRoom()
  }

  lemma SleepersStep(s: State, a: Action)
    requires Inv(s) && Enabled(s, a) && SleepersWait(s)
    ensures SleepersWait(Do(s, a))
  {
    hide Inv, Sound, GoodList, PutHead, Listed, WithBlock, DoCommit, DoRecover;
    InvShaped(s);
    PhaseSays(s);
    match a {
      case CommitStep => CommitSleepers(s);
      case RecoverStep => RecoverSleepers(s);
      case _ =>
    }
  }

  lemma CommitSleepers(s: State)
    requires Shaped(s) && s.Committing() && SleepersWait(s)
    ensures SleepersWait(DoCommit(s))
  {
    hide Sound, GoodList, PutHead;
  }

  /** Nobody is up yet while the log recovers. */
  lemma RecoverSleepers(s: State)
    requires Inv(s) && (s.phase.Down? || s.phase.Recovering?)
    ensures SleepersWait(DoRecover(s))
  {
    hide InvTrace, InvOps, InvCache, InvDurable, InvView, Sound, GoodList, PutHead, Listed, Installed, Copied;
  }

  lemma {:induction false} SleepersRun(s: State, acts: seq<Action>)
    requires Inv(s) && Legal(s, acts) && SleepersWait(s)
    ensures SleepersWait(After(s, acts))
    decreases |acts|
  {
    hide Inv, Do, Enabled, Shaped, SleepersWait;
    if acts != [] {
      StepKeeps(s, acts[0]);
      SleepersStep(s, acts[0]);
      SleepersRun(Do(s, acts[0]), acts[1..]);
    }
  }

  /**
    In every run, end_op's panic is unreachable and every running operation can end, a sleeper has a
    commit or a running operation left to wake it, and nobody sleeps who could go on.
   */
  lemma NobodyStranded(s0: State, acts: seq<Action>)
    requires Init(s0) && Legal(s0, acts)
    ensures var s := After(s0, acts);
            && (s.ops != [] ==> !s.Committing())
            && (s.asleep != {} ==> s.Committing() || s.ops != [])
            && (forall p :: p in s.syncs && s.ncommit < s.syncs[p].target ==> s.Committing() || s.ops != [])
            && SleepersWait(s)
            && (forall k: nat :: k < |s.ops| ==> Enabled(s, EndOp(k)))
            && (forall p :: p in s.syncs && p !in s.asleep && s.Up() ==> Enabled(s, SyncCheck(p)))
  {
    hide Legal, After, Inv;
    InitInv(s0);
    RunKeeps(s0, acts);
    SleepersRun(s0, acts);
    PhaseSays(After(s0, acts));
    SomebodyLeft(After(s0, acts));
  }

  lemma SomebodyLeft(s: State)
    requires Inv(s)
    ensures s.ops != [] ==> !s.Committing()
    ensures s.asleep != {} ==> s.Busy()
    ensures forall p :: p in s.syncs && s.ncommit < s.syncs[p].target ==> s.Busy()
  {
    hide InvTrace, InvOps, InvCache, InvDurable, InvView, InvPhase, GoodList, Sound;
    if s.ops != [] { OpenWhileBusy(s.g, s.disk, s.cached, s.phase, s.lh, s.ops, |s.trace|, s.durable); }
  }

  /** `tr` is all durable. */
  predicate Safe(tr: seq<Write>, s: State) { s.durable <= |s.trace| && tr <= s.trace[..s.durable] }

  /** Process p is still in sys_sync since `tr` had been written, or that has become durable. */
  predicate Syncing(s: State, p: nat, tr: seq<Write>) {
    if p in s.syncs then s.syncs[p].mark == |tr| && tr <= s.trace else Safe(tr, s)
  }

  /** No crash, and p makes no other call of sys_sync. */
  predicate OneSync(acts: seq<Action>, p: nat) {
    forall i :: 0 <= i < |acts| ==> !acts[i].Crash? && acts[i] != SyncCall(p)
  }

  lemma SyncsStep(s: State, a: Action, p: nat)
    requires Shaped(s) && Enabled(s, a) && !a.Crash? && a != SyncCall(p)
    ensures var t := Do(s, a);
            && s.trace <= t.trace && (p in t.syncs ==> p in s.syncs && t.syncs[p] == s.syncs[p])
            && (p in s.syncs && p !in t.syncs ==>
                  s.ncommit >= s.syncs[p].target && t.trace == s.trace && t.durable == s.durable)
  {
    hide Sound, GoodList, PutHead, Listed, WithBlock;
    match a
    case CommitStep => CommitTrace(s);
    case RecoverStep => RecoverTrace(s);
    case _ =>
  }

  lemma SyncedMark(s: State, p: nat)
    requires Inv(s) && p in s.syncs && s.ncommit >= s.syncs[p].target
    ensures s.syncs[p].mark <= s.durable <= |s.trace|
  {
    hide InvTrace, InvOps, InvCache, InvDurable, InvView, InvPhase, GoodList, Sound;
  }

  lemma SyncingStep(s: State, a: Action, p: nat, tr: seq<Write>)
    requires Inv(s) && Enabled(s, a) && !a.Crash? && a != SyncCall(p) && Syncing(s, p, tr)
    ensures Syncing(Do(s, a), p, tr)
  {
    hide Inv, Enabled, Do, Shaped;
    InvShaped(s);
    SyncsStep(s, a, p);
    DurableStep(s, a);
    if p in s.syncs && s.ncommit >= s.syncs[p].target { SyncedMark(s, p); }
  }

  lemma {:induction false} SyncingRun(s: State, acts: seq<Action>, p: nat, tr: seq<Write>)
    requires Inv(s) && Legal(s, acts) && OneSync(acts, p) && Syncing(s, p, tr)
    ensures Inv(After(s, acts)) && Syncing(After(s, acts), p, tr)
    decreases |acts|
  {
    hide Inv, Do, Enabled, Syncing, Shaped;
    if acts != [] {
      StepKeeps(s, acts[0]);
      SyncingStep(s, acts[0], p, tr);
      SyncingRun(Do(s, acts[0]), acts[1..], p, tr);
    }
  }

  /**
    sys_sync returns only when everything written before the call is durable: from the call after
    `acts` on, once p has left sys_sync or is about to, and for ever after, through any crash.
   */
  lemma SyncIsDurable(s0: State, acts: seq<Action>, p: nat, during: seq<Action>, later: seq<Action>)
    requires Init(s0) && Legal(s0, acts) && Shaped(After(s0, acts)) && Enabled(After(s0, acts), SyncCall(p))
    requires Legal(Do(After(s0, acts), SyncCall(p)), during) && OneSync(during, p)
    requires Legal(After(Do(After(s0, acts), SyncCall(p)), during), later)
    ensures var s := After(s0, acts);
            var t := After(Do(s, SyncCall(p)), during);
            p !in t.syncs || t.ncommit >= t.syncs[p].target ==>
              Safe(Told(s0, acts).writes, t) && Safe(Told(s0, acts).writes, After(t, later))
  {
    hide Legal, After, Inv, Do, Enabled, Syncing, OneSync, Shaped, Told;
    DoesAsTold(s0, acts);
    var s := After(s0, acts);
    CallSyncs(s, p);
    StepKeeps(s, SyncCall(p));
    SyncingRun(Do(s, SyncCall(p)), during, p, s.trace);
    var t := After(Do(s, SyncCall(p)), during);
    DurableForever(t, later);
    SyncReturns(t, p, s.trace);
  }

  lemma CallSyncs(s: State, p: nat)
    requires Inv(s) && Enabled(s, SyncCall(p))
    ensures Syncing(Do(s, SyncCall(p)), p, s.trace)
  {
    hide InvTrace, InvOps, InvCache, InvDurable, InvView, InvWait, GoodList, Sound, Listed, Holds, Unspent;
  }

  lemma SyncReturns(t: State, p: nat, tr: seq<Write>)
    requires Inv(t) && Syncing(t, p, tr)
    ensures p !in t.syncs || t.ncommit >= t.syncs[p].target ==> Safe(tr, t)
  {
    hide Inv;
    if p in t.syncs && t.ncommit >= t.syncs[p].target { SyncedMark(t, p); }
  }
}
