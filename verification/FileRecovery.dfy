/**
  Files across crashes: the file system on top of the log. An image of the disk carries a snapshot
  of the files when its blocks spell out the free map, the inodes and the files' blocks. Whatever
  operations run, together or one by one, and wherever the machine stops, recovery leaves an image
  that carries the snapshot of the last commit, and reading it back gives a store that is in order.
 */
module FileRecovery {
  import opened DiskBlocks
  import opened FileBlocks
  import opened FileStore
  import opened RedoLog
  import opened LogProtocol

  // ---------- what a block says about the files ----------

  const INODE_WORDS: nat := 16 // words of an inode on disk; the first two hold its type and links

  function ToBits(x: byte): bv8 { x as bv8 }

  /** The inode in place `slot` of a block. */
  function InodeAt(blk: Block, slot: nat): Inode
    requires slot < IPB
  {
    Inode(Entry(blk, INODE_WORDS * slot + 2), GetWords(blk, INODE_WORDS * slot + 3, NDIRECT + 1))
  }

  /** The bytes of the free map in block `b`. */
  ghost predicate MapPart(blk: Block, S: Snap, b: nat) {
    forall k: nat :: k < |S.bitmap| && ByteBlock(S.bmapstart, k) == b ==> ToBits(blk[k % BSIZE]) == S.bitmap[k]
  }

  /** The inodes in block `b`. */
  ghost predicate InodePart(blk: Block, S: Snap, b: nat) {
    forall i: nat :: i in S.inodes && S.InodeBlock(i) == b ==> InodeAt(blk, i % IPB) == S.inodes[i]
  }

  /** Block `b` as a block of a file. */
  ghost predicate DataPart(blk: Block, S: Snap, b: nat) {
    b in S.owner && !S.owner[b].Meta? ==> b in S.disk && blk == S.disk[b]
  }

  /** `blk` is what block `b` holds in snapshot `S`. */
  ghost predicate HoldsAt(blk: Block, S: Snap, b: nat) {
    MapPart(blk, S, b) && InodePart(blk, S, b) && DataPart(blk, S, b)
  }

  ghost predicate Carries(g: Geometry, home: map<nat, Block>, S: Snap) {
    forall b: nat | g.Home(b) :: b in home && HoldsAt(home[b], S, b)
  }

  ghost predicate CarriesDisk(g: Geometry, img: Image, S: Snap) {
    |img| == g.size && forall b: nat | g.Home(b) :: HoldsAt(img[b], S, b)
  }

  /** A block that an operation has not logged says the same about the files before and after. */
  lemma KeptAt(S: Snap, S': Snap, L: set<nat>, blk: Block, b: nat)
    requires Step(S, S', L) && HoldsAt(blk, S, b) && b !in L
    ensures HoldsAt(blk, S', b)
  {
    hide InodeAt, ToBits;
  }

  /** Operations one after the other are one step, of all the blocks they logged. */
  lemma StepTrans(S: Snap, S1: Snap, S2: Snap, L1: set<nat>, L2: set<nat>)
    requires Step(S, S1, L1) && Step(S1, S2, L2)
    ensures Step(S, S2, L1 + L2)
  {
    OnlyWider(S.disk, S.bitmap, S1.disk, S1.bitmap, S.bmapstart, L1, L1 + L2);
    OnlyWider(S1.disk, S1.bitmap, S2.disk, S2.bitmap, S.bmapstart, L2, L1 + L2);
    OnlyTrans(S.disk, S.bitmap, S1.disk, S1.bitmap, S2.disk, S2.bitmap, S.bmapstart, L1 + L2, L1 + L2);
    hide OnlyLogged;
  }

  // ---------- where things are ----------

  /** The log, the free map and the inodes are metadata, each in blocks of its own. */
  ghost predicate Layout(g: Geometry, S: Snap) {
    && g.Ok() && g.size == S.size
    && (forall b: nat :: b < g.size && !g.Home(b) ==> IsMeta(S.owner, b))
    && (forall k: nat :: k < |S.bitmap| ==> Kept(g, S.owner, ByteBlock(S.bmapstart, k)))
    && (forall i :: i in S.inodes ==> Kept(g, S.owner, S.InodeBlock(i)))
    && (forall k: nat, i :: k < |S.bitmap| && i in S.inodes ==> ByteBlock(S.bmapstart, k) != S.InodeBlock(i))
  }

  predicate Kept(g: Geometry, owner: Owners, b: nat) { g.Home(b) && IsMeta(owner, b) }

  lemma LayoutKept(g: Geometry, S: Snap, S': Snap, L: set<nat>)
    requires Layout(g, S) && Step(S, S', L)
    ensures Layout(g, S')
  {
  }

  /** The files as they are read from an image: what `S` says of its contents is not used. */
  ghost function ReadBack(g: Geometry, img: Image, S: Snap): Snap
    requires |img| == g.size && Layout(g, S)
  {
    S.(disk := map b: nat | b < g.size :: img[b],
       bitmap := seq(|S.bitmap|, k requires 0 <= k < |S.bitmap| => ToBits(img[ByteBlock(S.bmapstart, k)][k % BSIZE])),
       inodes := map i | i in S.inodes :: InodeAt(img[S.InodeBlock(i)], i % IPB))
  }

  lemma SameMaps(g: Geometry, img: Image, S: Snap)
    requires Layout(g, S) && CarriesDisk(g, img, S)
    ensures ReadBack(g, img, S).bitmap == S.bitmap && ReadBack(g, img, S).inodes == S.inodes
  {
    hide InodeAt, ToBits;
    var R := ReadBack(g, img, S);
    forall k: nat | k < |S.bitmap| ensures R.bitmap[k] == S.bitmap[k] {
      assert HoldsAt(img[ByteBlock(S.bmapstart, k)], S, ByteBlock(S.bmapstart, k));
    }
    forall i | i in S.inodes ensures R.inodes[i] == S.inodes[i] {
      assert HoldsAt(img[S.InodeBlock(i)], S, S.InodeBlock(i));
    }
    assert R.inodes.Keys == S.inodes.Keys;
  }

  /** The blocks of files are the same in `disk` and `disk'`. */
  ghost predicate SameFiles(owner: Owners, disk: Disk, disk': Disk) {
    forall b :: b in owner ==> b in disk' && (!owner[b].Meta? ==> b in disk && disk'[b] == disk[b])
  }

  lemma SameData(g: Geometry, img: Image, S: Snap)
    requires S.Ok() && Layout(g, S) && CarriesDisk(g, img, S)
    ensures SameFiles(S.owner, S.disk, ReadBack(g, img, S).disk)
  {
    hide Owned, MapPart, InodePart, InodeAt, ToBits;
    forall b | b in S.owner
      ensures b < S.size && (!S.owner[b].Meta? ==> b in S.disk && img[b] == S.disk[b])
    {
      InUse(S.bitmap, S.owner, S.size, b);
      if !S.owner[b].Meta? {
        assert g.Home(b);
        assert HoldsAt(img[b], S, b);
      }
    }
  }

  /** Ownership and contents depend on the blocks of files alone. */
  lemma OwnedBack(owner: Owners, disk: Disk, I: Inodes, V: Views, disk': Disk)
    requires Owned(owner, disk, I, V) && SameFiles(owner, disk, disk')
    ensures Owned(owner, disk', I, V)
  {
    hide InodeOk, OwnerOk;
    forall i | i in I ensures InodeOk(owner, disk', I, V, i) {
      InodeBack(owner, disk, I, V, disk', i);
    }
  }

  lemma InodeBack(owner: Owners, disk: Disk, I: Inodes, V: Views, disk': Disk, i: nat)
    requires i in I && InodeOk(owner, disk, I, V, i) && SameFiles(owner, disk, disk')
    ensures InodeOk(owner, disk', I, V, i)
  {
    hide Entry, NoHoles;
  }

  lemma ContentBack(owner: Owners, disk: Disk, I: Inodes, V: Views, disk': Disk, i: nat)
    requires Owned(owner, disk, I, V) && i in I && SameFiles(owner, disk, disk')
    ensures i in V && Content(disk', V[i], I[i].size) == Content(disk, V[i], I[i].size)
  {
    InodeFacts(owner, disk, I, V, i);
    hide Owned, Stored;
    forall p: nat | p < I[i].size ensures ByteAt(disk', V[i], p) == ByteAt(disk, V[i], p) {
      BlockThere(V[i], I[i].size, p);
    }
  }

  /** The two snapshots are in order and have the same inodes, free map and files. */
  ghost predicate SameStore(R: Snap, S: Snap) {
    && R.Ok() && R.bitmap == S.bitmap && R.inodes == S.inodes && R.V == S.V && R.owner == S.owner
    && forall i :: i in S.inodes ==>
         i in S.V && Content(R.disk, S.V[i], S.inodes[i].size) == Content(S.disk, S.V[i], S.inodes[i].size)
  }

  /** An image that carries an orderly snapshot reads back as one, with the same files. */
  lemma ReadBackOk(g: Geometry, img: Image, S: Snap)
    requires S.Ok() && Layout(g, S) && CarriesDisk(g, img, S)
    ensures SameStore(ReadBack(g, img, S), S)
  {
    hide Owned, BitsOk, Content, SameFiles, CarriesDisk;
    CarriedSize(g, img, S);
    var R := ReadBack(g, img, S);
    SameMaps(g, img, S);
    SameData(g, img, S);
    OwnedBack(S.owner, S.disk, S.inodes, S.V, R.disk);
    forall i | i in S.inodes
      ensures i in S.V && Content(R.disk, S.V[i], S.inodes[i].size) == Content(S.disk, S.V[i], S.inodes[i].size)
    {
      ContentBack(S.owner, S.disk, S.inodes, S.V, R.disk, i);
    }
  }

  lemma CarriedSize(g: Geometry, img: Image, S: Snap)
    requires CarriesDisk(g, img, S)
    ensures |img| == g.size
  {
  }

  // ---------- files and log together ----------

  /**
    The log, the snapshot the disk stands for, and the snapshot that the writes of the operations
    that have ended amount to; the two differ between the end of the last operation and the header
    write of its commit.
   */
  datatype Joint = Joint(log: State, safe: Snap, next: Snap)

  /**
    A step of the log, or the end of the last running operation: by then the operations since the
    last commit have taken the files to `to` and have logged the blocks of `L`.
   */
  datatype Event = Act(a: Action) | Settle(k: nat, to: Snap, L: set<nat>)

  predicate EndsLast(s: State, a: Action) { a.EndOp? && |s.ops| == 1 }

  /** The blocks written since the last commit are all in `L`, and those of `L` hold what `to` says. */
  ghost predicate Amounts(s: State, to: Snap, L: set<nat>) {
    && (forall i :: s.durable <= i < |s.trace| ==> s.trace[i].b in L)
    && (forall b: nat | s.g.Home(b) && b in L :: b < |s.disk| && HoldsAt(s.View(b), to, b))
  }

  ghost predicate Allowed(j: Joint, e: Event) {
    && Shaped(j.log)
    && match e
       case Act(a) => Enabled(j.log, a) && !EndsLast(j.log, a)
       case Settle(k, to, L) =>
         && Enabled(j.log, EndOp(k)) && |j.log.ops| == 1
         && Step(j.safe, to, L) && to.Ok() && Amounts(j.log, to, L)
  }

  /** The header write, after which the disk means what has been written. */
  predicate Commits(s: State, a: Action) { a.CommitStep? && s.phase.CopyLog? && s.phase.tail == |s.lh| }

  ghost function Happen(j: Joint, e: Event): Joint
    requires Allowed(j, e)
  {
    match e
    case Act(a) =>
      var log := Do(j.log, a);
      if Commits(j.log, a) then Joint(log, j.next, j.next)
      else if a.Crash? then Joint(log, j.safe, j.safe)
      else Joint(log, j.safe, j.next)
    case Settle(k, to, L) =>
      Joint(Do(j.log, EndOp(k)), if j.log.lh == [] then to else j.safe, to)
  }

  ghost predicate InvFiles(g: Geometry, base: map<nat, Block>, trace: seq<Write>, durable: nat, waiting: bool,
                           safe: Snap,
                           next: Snap)
  {
    && durable <= |trace| && safe.Ok() && next.Ok() && Layout(g, safe) && Layout(g, next)
    && Carries(g, Apply(base, trace[..durable]), safe)
    && (if waiting then Carries(g, Apply(base, trace), next) else next == safe)
  }

  ghost predicate JointInv(j: Joint) {
    Inv(j.log) && InvFiles(j.log.g, j.log.base, j.log.trace, j.log.durable, j.log.phase.CopyLog?, j.safe, j.next)
  }

  /** A step that neither commits nor crashes adds at most to what is not yet durable. */
  lemma QuietStep(s: State, a: Action)
    requires Shaped(s) && Enabled(s, a) && !EndsLast(s, a) && !Commits(s, a) && !a.Crash?
    requires s.phase.CopyLog? ==> s.ops == []
    ensures var t := Do(s, a);
            && t.base == s.base && t.g == s.g && t.durable == s.durable && s.trace <= t.trace
            && (t.phase.CopyLog? <==> s.phase.CopyLog?) && (s.phase.CopyLog? ==> t.trace == s.trace)
  {
    hide Sound, GoodList, PutHead, Listed;
    match a
    case EndOp(k) =>
      assert |s.ops[..k] + s.ops[k + 1..]| == |s.ops| - 1;
    case _ =>
  }

  lemma CommitEffect(s: State)
    requires Shaped(s) && Commits(s, CommitStep)
    ensures var t := Do(s, CommitStep);
            t.base == s.base && t.g == s.g && t.durable == |s.trace| && t.trace == s.trace && t.phase.Installing?
  {
    hide Sound, GoodList, PutHead, Listed;
  }

  lemma CopyMeansIdle(s: State)
    requires Inv(s)
    ensures s.phase.CopyLog? ==> s.ops == []
    ensures s.phase.Open? && s.lh == [] ==> s.durable == |s.trace|
    ensures s.durable <= |s.trace| && Shaped(s)
  {
    hide InvTrace, InvOps, InvCache, InvDurable, InvView, InvWait, Sound, GoodList, Listed, Copied, Installed, Unspent;
  }

  /** The first writes stay the first writes. */
  lemma FilesMore(g: Geometry, base: map<nat, Block>, trace: seq<Write>, durable: nat, waiting: bool, safe: Snap,
                  next: Snap, trace': seq<Write>)
    requires InvFiles(g, base, trace, durable, waiting, safe, next) && trace <= trace' && (waiting ==> trace' == trace)
    ensures InvFiles(g, base, trace', durable, waiting, safe, next)
  {
    hide Snap.Ok, Layout, Carries, Apply;
    assert trace'[..durable] == trace[..durable];
  }

  lemma FilesCommit(g: Geometry, base: map<nat, Block>, trace: seq<Write>, durable: nat, safe: Snap, next: Snap)
    requires InvFiles(g, base, trace, durable, true, safe, next)
    ensures InvFiles(g, base, trace, |trace|, false, next, next)
  {
    hide Snap.Ok, Layout, Carries, Apply;
    assert trace[..|trace|] == trace;
  }

  lemma FilesCrash(g: Geometry, base: map<nat, Block>, trace: seq<Write>, durable: nat, waiting: bool, safe: Snap,
                   next: Snap)
    requires InvFiles(g, base, trace, durable, waiting, safe, next)
    ensures InvFiles(g, base, trace[..durable], durable, false, safe, safe)
  {
    hide Snap.Ok, Layout, Carries, Apply;
    assert trace[..durable][..durable] == trace[..durable];
  }

  lemma ActKeeps(j: Joint, a: Action)
    requires JointInv(j) && Allowed(j, Act(a))
    ensures JointInv(Happen(j, Act(a)))
  {
    hide Inv, InvFiles, Do, Shaped, Enabled;
    var s := j.log;
    CopyMeansIdle(s);
    StepKeeps(s, a);
    if Commits(s, a) {
      CommitEffect(s);
      FilesCommit(s.g, s.base, s.trace, s.durable, j.safe, j.next);
    } else if a.Crash? {
      CrashEffect(s);
      FilesCrash(s.g, s.base, s.trace, s.durable, s.phase.CopyLog?, j.safe, j.next);
    } else {
      QuietStep(s, a);
      FilesMore(s.g, s.base, s.trace, s.durable, s.phase.CopyLog?, j.safe, j.next, Do(s, a).trace);
    }
  }

  lemma CrashEffect(s: State)
    requires Shaped(s)
    ensures Enabled(s, Crash)
    ensures var t := Do(s, Crash);
            t.base == s.base && t.g == s.g && t.durable == s.durable && t.trace == s.trace[..s.durable] && t.phase.Down?
  {
    hide Sound, GoodList;
  }

  /** A block that the later writes leave alone is as it was. */
  lemma {:induction false} ApplyOutside(home: map<nat, Block>, tr: seq<Write>, d: nat, b: nat)
    requires d <= |tr| && b in Apply(home, tr[..d]) && forall i :: d <= i < |tr| ==> tr[i].b != b
    ensures b in Apply(home, tr) && Apply(home, tr)[b] == Apply(home, tr[..d])[b]
    decreases |tr|
  {
    if d == |tr| {
      assert tr[..d] == tr;
    } else {
      var less := tr[..|tr| - 1];
      assert less[..d] == tr[..d] && forall i :: 0 <= i < |less| ==> less[i] == tr[i];
      ApplyOutside(home, less, d, b);
    }
  }

  /** What readers see of a home block is what has been written. */
  lemma SeesLogical(s: State, b: nat)
    requires Inv(s) && s.Up() && s.g.Home(b)
    ensures b < |s.disk| && b in s.Logical() && s.View(b) == s.Logical()[b]
  {
    hide InvTrace, InvOps, InvDurable, InvPhase, InvWait, Sound, GoodList;
  }

  /** When the last operation ends, the writes so far carry the snapshot the operations have led to. */
  lemma SettledCarries(j: Joint, to: Snap, L: set<nat>)
    requires JointInv(j) && j.log.Up() && Step(j.safe, to, L) && Amounts(j.log, to, L)
    ensures Carries(j.log.g, j.log.Logical(), to)
  {
    hide Inv, Step, HoldsAt, Snap.Ok, Layout, Apply;
    var s := j.log;
    forall b: nat | s.g.Home(b) ensures b in s.Logical() && HoldsAt(s.Logical()[b], to, b) {
      SeesLogical(s, b);
      if b !in L {
        ApplyOutside(s.base, s.trace, s.durable, b);
        KeptAt(j.safe, to, L, s.Logical()[b], b);
      }
    }
  }

  lemma SettleKeeps(j: Joint, k: nat, to: Snap, L: set<nat>)
    requires JointInv(j) && Allowed(j, Settle(k, to, L))
    ensures JointInv(Happen(j, Settle(k, to, L)))
  {
    var s := j.log;
    hide Inv, Do, Shaped, Step, Snap.Ok, Layout, Carries, Apply, Amounts;
    CopyMeansIdle(s);
    StepKeeps(s, EndOp(k));
    EndEffect(s, k);
    SettledCarries(j, to, L);
    LayoutKept(s.g, j.safe, to, L);
    assert s.durable == |s.trace| ==> s.trace[..s.durable] == s.trace;
  }

  lemma EndEffect(s: State, k: nat)
    requires Inv(s) && Enabled(s, EndOp(k)) && |s.ops| == 1
    ensures s.phase.Open? && Shaped(s)
    ensures var t := Do(s, EndOp(k));
            && t.base == s.base && t.g == s.g && t.durable == s.durable && t.trace == s.trace
            && t.phase == if s.lh == [] then Finishing else CopyLog(0)
  {
    hide InvTrace, InvOps, InvCache, InvDurable, InvView, InvPhase, InvWait, Sound, GoodList;
    OpenWhileBusy(s.g, s.disk, s.cached, s.phase, s.lh, s.ops, |s.trace|, s.durable);
    assert s.ops[..k] + s.ops[k + 1..] == [];
  }

  // ---------- whole runs ----------

  ghost predicate Happens(j: Joint, events: seq<Event>)
    decreases |events|
  {
    events == [] || (Allowed(j, events[0]) && Happens(Happen(j, events[0]), events[1..]))
  }

  ghost function Finally(j: Joint, events: seq<Event>): Joint
    requires Happens(j, events)
    decreases |events|
  {
    if events == [] then j else Finally(Happen(j, events[0]), events[1..])
  }

  /** Power-on over a disk that carries an orderly snapshot. */
  ghost predicate Start(j: Joint) {
    Init(j.log) && j.next == j.safe && j.safe.Ok() && Layout(j.log.g, j.safe) && Carries(j.log.g, j.log.base, j.safe)
  }

  lemma StartInv(j: Joint)
    requires Start(j)
    ensures JointInv(j)
  {
    hide Inv, Snap.Ok, Layout, Carries;
    InitInv(j.log);
    assert j.log.trace[..0] == [];
  }

  lemma {:induction false} EventsKeep(j: Joint, events: seq<Event>)
    requires JointInv(j) && Happens(j, events)
    ensures JointInv(Finally(j, events))
    decreases |events|
  {
    hide JointInv, Allowed, Happen;
    if events != [] {
      match events[0] {
        case Act(a) => ActKeeps(j, a);
        case Settle(k, to, L) => SettleKeeps(j, k, to, L);
      }
      EventsKeep(Happen(j, events[0]), events[1..]);
    }
  }

  /**
    For every run of operations, commits and crashes: stop it anywhere and restart, and the disk
    carries the snapshot of the last commit, from which the same files read back in good order.
   */
  lemma FilesSurvive(j0: Joint, events: seq<Event>)
    requires Start(j0) && Happens(j0, events)
    ensures var j := Finally(j0, events);
            && Inv(j.log) && j.safe.Ok() && Layout(j.log.g, j.safe) && Restart(j.log).g == j.log.g
            && CarriesDisk(j.log.g, Restart(j.log).disk, j.safe)
            && SameStore(ReadBack(j.log.g, Restart(j.log).disk, j.safe), j.safe)
  {
    hide Inv, Start, Happens, Finally, Snap.Ok, Layout, CarriesDisk, SameStore;
    StartInv(j0);
    EventsKeep(j0, events);
    var j := Finally(j0, events);
    Restarted(j.log, j.safe);
    ReadBackOk(j.log.g, Restart(j.log).disk, j.safe);
  }

  lemma Restarted(s: State, S: Snap)
    requires Inv(s) && s.durable <= |s.trace| && Carries(s.g, Apply(s.base, s.trace[..s.durable]), S)
    ensures CarriesDisk(s.g, Restart(s).disk, S) && Restart(s).g == s.g
  {
    hide Inv, HoldsAt;
    RestartSize(s);
  }

  lemma InvSized(s: State)
    requires Inv(s)
    ensures |s.disk| == s.g.size
  {
    hide InvTrace, InvOps, InvCache, InvDurable, InvView, InvPhase, InvWait, GoodList, HeadReadable, GetHead;
  }

  lemma RestartSize(s: State)
    requires Inv(s)
    ensures Restart(s).g == s.g && |Restart(s).disk| == s.g.size
  {
    hide Inv, Sound;
    InvSized(Restart(s));
    InvSized(s);
  }

  /** What survives is a snapshot that was there at the start or at the end of an operation. */
  lemma {:induction false} SafeWasReached(j: Joint, events: seq<Event>)
    requires Happens(j, events)
    ensures Reached(j, events, Finally(j, events).safe) && Reached(j, events, Finally(j, events).next)
    decreases |events|
  {
    hide Allowed;
    if events != [] {
      var j1 := Happen(j, events[0]);
      SafeWasReached(j1, events[1..]);
      ReachedLater(j, j1, events, Finally(j, events).safe);
      ReachedLater(j, j1, events, Finally(j, events).next);
    }
  }

  ghost predicate Reached(j: Joint, events: seq<Event>, S: Snap) {
    S == j.safe || S == j.next || exists i: nat :: i < |events| && events[i].Settle? && events[i].to == S
  }

  lemma ReachedLater(j: Joint, j1: Joint, events: seq<Event>, S: Snap)
    requires events != [] && Allowed(j, events[0]) && j1 == Happen(j, events[0]) && Reached(j1, events[1..], S)
    ensures Reached(j, events, S)
  {
    hide Allowed, Do;
    if S != j1.safe && S != j1.next {
      var i: nat :| i < |events[1..]| && events[1..][i].Settle? && events[1..][i].to == S;
      assert events[i + 1] == events[1..][i];
    }
  }

  // ---------- such runs exist: an operation can be written and fits the log ----------

  function FromBits(x: bv8): byte { x as nat }

  lemma BitsRoundTrip(x: bv8)
    ensures ToBits(FromBits(x)) == x
  {
  }

  function InodeWords(ino: Inode): seq<nat> { [ino.size] + ino.addrs }

  /** The inodes fit the form they have on disk. */
  ghost predicate Storable(I: Inodes) {
    forall i :: i in I ==> |I[i].addrs| == NDIRECT + 1 && Uints(InodeWords(I[i]))
  }

  /** The inode in place `slot` of block `b`. */
  function InumAt(S: Snap, b: nat, slot: nat): int { (b - S.inodestart) * IPB + slot }

  /** The block with the inodes of its first `n` places. */
  ghost function PutInodes(blk: Block, S: Snap, b: nat, n: nat): Block
    requires Storable(S.inodes) && n <= IPB
  {
    if n == 0 then blk
    else
      var less, i := PutInodes(blk, S, b, n - 1), InumAt(S, b, n - 1);
      if i in S.inodes then PutWords(less, INODE_WORDS * (n - 1) + 2, InodeWords(S.inodes[i])) else less
  }

  /** The block with its bytes of the free map. */
  ghost function PutMap(blk: Block, S: Snap, b: nat): Block {
    seq(BSIZE, p requires 0 <= p < BSIZE => MapByte(blk[p], S, (b - S.bmapstart) * BSIZE + p))
  }

  function MapByte(old_: byte, S: Snap, k: int): byte { if 0 <= k < |S.bitmap| then FromBits(S.bitmap[k]) else old_ }

  /** What an operation that leads to `S` leaves in block `b`. */
  ghost function WriteBack(blk: Block, S: Snap, b: nat): Block
    requires Storable(S.inodes)
  {
    if b in S.owner && !S.owner[b].Meta? && b in S.disk then S.disk[b]
    else if exists k: nat :: k < |S.bitmap| && ByteBlock(S.bmapstart, k) == b then PutMap(blk, S, b)
    else PutInodes(blk, S, b, IPB)
  }

  lemma PutMapHolds(blk: Block, S: Snap, b: nat)
    ensures MapPart(PutMap(blk, S, b), S, b)
  {
    hide ToBits, FromBits;
    forall k: nat | k < |S.bitmap| && ByteBlock(S.bmapstart, k) == b
      ensures ToBits(PutMap(blk, S, b)[k % BSIZE]) == S.bitmap[k]
    {
      assert (b - S.bmapstart) * BSIZE + k % BSIZE == k;
      BitsRoundTrip(S.bitmap[k]);
    }
  }

  /** Writing the inode of one place leaves the other places alone. */
  lemma {:induction false} PutInodesHold(blk: Block, S: Snap, b: nat, n: nat, slot: nat)
    requires Storable(S.inodes) && slot < n <= IPB && InumAt(S, b, slot) in S.inodes
    ensures InodeAt(PutInodes(blk, S, b, n), slot) == S.inodes[InumAt(S, b, slot)]
    decreases n
  {
    hide Entry, GetWords, PutWords;
    var less, i := PutInodes(blk, S, b, n - 1), InumAt(S, b, n - 1);
    if slot < n - 1 {
      PutInodesHold(blk, S, b, n - 1, slot);
      if i in S.inodes { OtherPlace(less, n - 1, S.inodes[i], slot); }
    } else {
      OwnPlace(less, slot, S.inodes[i]);
    }
  }

  lemma OwnPlace(blk: Block, slot: nat, ino: Inode)
    requires slot < IPB && |ino.addrs| == NDIRECT + 1 && Uints(InodeWords(ino))
    ensures InodeAt(PutWords(blk, INODE_WORDS * slot + 2, InodeWords(ino)), slot) == ino
  {
    hide Entry, GetWords, PutWords;
    var at, list := INODE_WORDS * slot + 2, InodeWords(ino);
    var new_ := PutWords(blk, at, list);
    PutWordsAt(blk, at, list, at);
    forall k | 0 <= k < NDIRECT + 1 ensures ino.addrs[k] == Entry(new_, at + 1 + k) {
      PutWordsAt(blk, at, list, at + 1 + k);
    }
    WordsAre(new_, at + 1, ino.addrs);
  }

  lemma OtherPlace(blk: Block, place: nat, ino: Inode, slot: nat)
    requires slot < place < IPB && |ino.addrs| == NDIRECT + 1 && Uints(InodeWords(ino))
    ensures InodeAt(PutWords(blk, INODE_WORDS * place + 2, InodeWords(ino)), slot) == InodeAt(blk, slot)
  {
    hide Entry, GetWords, PutWords;
    var at, list, from := INODE_WORDS * place + 2, InodeWords(ino), INODE_WORDS * slot + 2;
    var new_ := PutWords(blk, at, list);
    forall k | from <= k < from + 1 + NDIRECT + 1 ensures Entry(new_, k) == Entry(blk, k) {
      PutWordsAt(blk, at, list, k);
    }
    SameWords(new_, blk, from + 1, NDIRECT + 1);
  }

  /** Any block of the layout can be made to hold what the snapshot says. */
  lemma WriteBackHolds(g: Geometry, blk: Block, S: Snap, b: nat)
    requires S.Ok() && Layout(g, S) && Storable(S.inodes)
    ensures HoldsAt(WriteBack(blk, S, b), S, b)
  {
    hide Owned, BitsOk, PutMap, PutInodes, InodeAt, ToBits;
    PutMapHolds(blk, S, b);
    forall i: nat | i in S.inodes && S.InodeBlock(i) == b ensures InodeAt(PutInodes(blk, S, b, IPB),
                                                                          i % IPB) == S.inodes[i] {
      assert InumAt(S, b, i % IPB) == i;
      PutInodesHold(blk, S, b, IPB, i % IPB);
    }
    OwnedThere(S.owner, S.disk, S.inodes, S.V);
  }

  lemma OwnedThere(owner: Owners, disk: Disk, I: Inodes, V: Views)
    requires Owned(owner, disk, I, V)
    ensures forall b :: b in owner ==> b in disk
  {
  }

  lemma OkStorable(S: Snap)
    requires S.Ok()
    ensures Storable(S.inodes)
  {
    hide Owned, BitsOk;
    forall i | i in S.inodes ensures |S.inodes[i].addrs| == NDIRECT + 1 && Uints(InodeWords(S.inodes[i])) {
      InodeStorable(S.owner, S.disk, S.inodes, S.V, i);
    }
  }

  lemma InodeStorable(owner: Owners, disk: Disk, I: Inodes, V: Views, i: nat)
    requires Owned(owner, disk, I, V) && i in I
    ensures |I[i].addrs| == NDIRECT + 1 && Uints(InodeWords(I[i]))
  {
    InodeFacts(owner, disk, I, V, i);
    OwnedRange(owner, disk, I, V);
    hide Owned, InodeOk, Entry;
    forall k: nat | k < |I[i].addrs| ensures I[i].addrs[k] < UINT {
      SlotFacts(disk, I[i], V[i], k);
    }
  }

  lemma OwnedRange(owner: Owners, disk: Disk, I: Inodes, V: Views)
    requires Owned(owner, disk, I, V)
    ensures forall b :: b in owner ==> b < UINT
  {
  }

  /** The log after the first n blocks of `order` have been logged by the only operation. */
  function Logging(s: State, order: seq<nat>, data: map<nat, Block>, n: nat): State
    requires n <= |order| && (forall b :: b in order ==> b in data) && n <= MAXOPBLOCKS
    decreases n
  {
    if n == 0 then s.(ops := [Op(s.nextOp, MAXOPBLOCKS)], nextOp := s.nextOp + 1)
    else
      var t, b := Logging(s, order, data, n - 1), order[n - 1];
      t.(cached := t.cached[b := data[b]], trace := t.trace + [Write(s.nextOp, b, data[b])], lh := t.lh + [b],
         ops := [Op(s.nextOp, MAXOPBLOCKS - n)])
  }

  function Puts(order: seq<nat>, data: map<nat, Block>, n: nat): seq<Event>
    requires n <= |order| && forall b :: b in order ==> b in data
  {
    if n == 0 then [] else [Act(LogWrite(0, order[|order| - n], data[order[|order| - n]]))] + Puts(order, data, n - 1)
  }

  /** A quiet log, and an operation that leads from the snapshot on disk to `to` within its reservation. */
  ghost predicate Ready(j: Joint, to: Snap, L: set<nat>, order: seq<nat>, data: map<nat, Block>) {
    && JointInv(j) && j.log.phase.Open? && j.log.ops == [] && Step(j.safe, to, L) && to.Ok()
    && |order| <= MAXOPBLOCKS && Distinct(order) && (forall b :: b in order <==> b in L)
    && (forall b :: b in order ==> b in data && j.log.g.Home(b) && HoldsAt(data[b], to, b))
  }

  /** What logging the first n blocks leaves as it was, and what it records. */
  predicate OnlyLogs(s: State, t: State, order: seq<nat>, n: nat)
    requires n <= |order| && n <= MAXOPBLOCKS
  {
    && t == s.(cached := t.cached, trace := t.trace, lh := order[..n], ops := [Op(s.nextOp, MAXOPBLOCKS - n)],
               nextOp := s.nextOp + 1)
    && s.trace <= t.trace && forall i :: |s.trace| <= i < |t.trace| ==> t.trace[i].b in order
  }

  predicate Caches(t: State, order: seq<nat>, data: map<nat, Block>, n: nat)
    requires n <= |order| && forall b :: b in order ==> b in data
  {
    forall i :: 0 <= i < n ==> order[i] in t.cached && t.cached[order[i]] == data[order[i]]
  }

  lemma {:induction false} LoggingIs(s: State, order: seq<nat>, data: map<nat, Block>, n: nat)
    requires n <= |order| <= MAXOPBLOCKS && (forall b :: b in order ==> b in data) && s.lh == [] && Distinct(order)
    ensures OnlyLogs(s, Logging(s, order, data, n), order, n) && Caches(Logging(s, order, data, n), order, data, n)
    decreases n
  {
    hide OnlyLogs, Caches;
    if n > 0 {
      LoggingIs(s, order, data, n - 1);
      LogsMore(s, order, data, n);
      CachesMore(s, order, data, n);
    } else {
      LogsNothing(s, order, data);
    }
  }

  lemma LogsNothing(s: State, order: seq<nat>, data: map<nat, Block>)
    requires (forall b :: b in order ==> b in data) && s.lh == []
    ensures OnlyLogs(s, Logging(s, order, data, 0), order, 0) && Caches(Logging(s, order, data, 0), order, data, 0)
  {
    assert order[..0] == [];
  }

  lemma LogsMore(s: State, order: seq<nat>, data: map<nat, Block>, n: nat)
    requires 0 < n <= |order| <= MAXOPBLOCKS && (forall b :: b in order ==> b in data)
    requires OnlyLogs(s, Logging(s, order, data, n - 1), order, n - 1)
    ensures OnlyLogs(s, Logging(s, order, data, n), order, n)
  {
    assert order[..n - 1] + [order[n - 1]] == order[..n];
  }

  lemma CachesMore(s: State, order: seq<nat>, data: map<nat, Block>, n: nat)
    requires 0 < n <= |order| <= MAXOPBLOCKS && (forall b :: b in order ==> b in data) && Distinct(order)
    requires Caches(Logging(s, order, data, n - 1), order, data, n - 1)
    ensures Caches(Logging(s, order, data, n), order, data, n)
  {
  }

  lemma ReadyFacts(j: Joint, to: Snap, L: set<nat>, order: seq<nat>, data: map<nat, Block>)
    requires Ready(j, to, L, order, data)
    ensures |order| <= MAXOPBLOCKS && forall b :: b in order ==> b in data
  {
    hide JointInv, Step, Snap.Ok, HoldsAt;
  }

  lemma QuietLog(s: State)
    requires Inv(s) && s.phase.Open? && s.ops == []
    ensures s.lh == [] && s.durable == |s.trace| && Sound(s.g, s.disk) && |s.disk| == s.g.size && Shaped(s)
  {
    hide InvTrace, InvOps, InvCache, InvDurable, InvView, InvWait, HeadReadable, GetHead, Copied, Installed, Unspent;
  }

  /** Shape and contents of the log on the way. */
  lemma LoggingShaped(j: Joint, to: Snap, L: set<nat>, order: seq<nat>, data: map<nat, Block>, n: nat)
    requires Ready(j, to, L, order, data) && n <= |order|
    ensures j.log.lh == [] && Shaped(Logging(j.log, order, data, n))
  {
    hide Inv, InvFiles, Step, Snap.Ok, HoldsAt, Sound, Logging;
    QuietLog(j.log);
    LoggingIs(j.log, order, data, n);
    GoodFirsts(j.log.g, order, n);
  }

  /** The next block can be logged, and is. */
  lemma LoggingGoesOn(j: Joint, to: Snap, L: set<nat>, order: seq<nat>, data: map<nat, Block>, n: nat)
    requires Ready(j, to, L, order, data) && n < |order|
    ensures var j1, put := Joint(Logging(j.log, order, data, n), j.safe, j.next), LogWrite(0, order[n], data[order[n]]);
            Allowed(j1, Act(put)) && Happen(j1, Act(put)) == Joint(Logging(j.log, order, data, n + 1), j.safe, j.next)
  {
    hide Inv, InvFiles, Step, Snap.Ok, HoldsAt, Sound, GoodList, Shaped;
    QuietLog(j.log);
    LoggingShaped(j, to, L, order, data, n);
    LoggingIs(j.log, order, data, n);
    NotYet(order, n);
  }

  lemma GoodFirsts(g: Geometry, order: seq<nat>, n: nat)
    requires n <= |order| <= MAXOPBLOCKS && Distinct(order) && forall b :: b in order ==> g.Home(b)
    ensures GoodList(g, order[..n])
  {
    assert forall i :: 0 <= i < n ==> order[..n][i] == order[i] && order[i] in order;
  }

  lemma NotYet(order: seq<nat>, n: nat)
    requires n < |order| && Distinct(order)
    ensures order[n] !in order[..n] && order[n] in order
  {
  }

  lemma LastAllowed(j: Joint, to: Snap, L: set<nat>, order: seq<nat>, data: map<nat, Block>)
    requires Ready(j, to, L, order, data)
    ensures Allowed(Joint(Logging(j.log, order, data, |order|), j.safe, j.next), Settle(0, to, L))
  {
    hide Inv, InvFiles, Step, Snap.Ok, HoldsAt, Sound, Shaped;
    QuietLog(j.log);
    LoggingShaped(j, to, L, order, data, |order|);
    LoggingIs(j.log, order, data, |order|);
    var t := Logging(j.log, order, data, |order|);
    forall b: nat | t.g.Home(b) && b in L ensures b < |t.disk| && HoldsAt(t.View(b), to, b) {
      var i :| 0 <= i < |order| && order[i] == b;
      assert t.cached[order[i]] == data[order[i]];
    }
  }

  lemma {:induction false} PutsHappen(j: Joint, to: Snap, L: set<nat>, order: seq<nat>, data: map<nat, Block>, n: nat)
    requires Ready(j, to, L, order, data) && n <= |order|
    ensures var j1 := Joint(Logging(j.log, order, data, |order| - n), j.safe, j.next);
            var events := Puts(order, data, n) + [Settle(0, to, L)];
            Happens(j1, events) && Finally(j1, events).next == to && Finally(j1, events).log.Committing()
    decreases n
  {
    hide Ready, Allowed, Logging, Happen, Happens, Finally, Puts;
    ReadyFacts(j, to, L, order, data);
    var j1 := Joint(Logging(j.log, order, data, |order| - n), j.safe, j.next);
    var last := [Settle(0, to, L)];
    PutsFirst(order, data, n);
    if n == 0 {
      LastAllowed(j, to, L, order, data);
      OneEvent(j1, last[0]);
      SettleNext(j1, 0, to, L);
      assert Puts(order, data, n) + last == last;
    } else {
      LoggingGoesOn(j, to, L, order, data, |order| - n);
      PutsHappen(j, to, L, order, data, n - 1);
      var put := Act(LogWrite(0, order[|order| - n], data[order[|order| - n]]));
      FirstEvent(j1, put, Puts(order, data, n - 1) + last);
      assert Puts(order, data, n) + last == [put] + (Puts(order, data, n - 1) + last);
    }
  }

  lemma PutsFirst(order: seq<nat>, data: map<nat, Block>, n: nat)
    requires n <= |order| && forall b :: b in order ==> b in data
    ensures n == 0 ==> Puts(order, data, n) == []
    ensures n > 0 ==>
              var b := order[|order| - n];
              Puts(order, data, n) == [Act(LogWrite(0, b, data[b]))] + Puts(order, data, n - 1)
  {
  }

  lemma SettleNext(j: Joint, k: nat, to: Snap, L: set<nat>)
    requires Allowed(j, Settle(k, to, L))
    ensures Happen(j, Settle(k, to, L)).next == to && Happen(j, Settle(k, to, L)).log.Committing()
  {
    hide Amounts, Step, Snap.Ok, Sound, GoodList;
  }

  lemma OneEvent(j: Joint, e: Event)
    requires Allowed(j, e)
    ensures Happens(j, [e]) && Finally(j, [e]) == Happen(j, e)
  {
    hide Allowed, Happen;
    assert [e][1..] == [];
    var j1 := Happen(j, e);
    assert Happens(j1, []) && Finally(j1, []) == j1;
  }

  /** An operation that logs no more than its reservation runs on a quiet log to its end, without a panic. */
  lemma OperationHappens(j: Joint, to: Snap, L: set<nat>, order: seq<nat>, data: map<nat, Block>)
    requires Ready(j, to, L, order, data)
    ensures var events := [Act(BeginOp)] + (Puts(order, data, |order|) + [Settle(0, to, L)]);
            Happens(j, events) && Finally(j, events).next == to && Finally(j, events).log.Committing()
  {
    hide Happens, Finally, Puts;
    BeginAllowed(j, to, L, order, data);
    PutsHappen(j, to, L, order, data, |order|);
    var rest := Puts(order, data, |order|) + [Settle(0, to, L)];
    FirstEvent(j, Act(BeginOp), rest);
  }

  lemma FirstEvent(j: Joint, e: Event, rest: seq<Event>)
    requires Allowed(j, e) && Happens(Happen(j, e), rest)
    ensures Happens(j, [e] + rest) && Finally(j, [e] + rest) == Finally(Happen(j, e), rest)
  {
    hide Allowed, Happen;
    assert ([e] + rest)[1..] == rest;
  }

  lemma BeginAllowed(j: Joint, to: Snap, L: set<nat>, order: seq<nat>, data: map<nat, Block>)
    requires Ready(j, to, L, order, data)
    ensures Allowed(j, Act(BeginOp)) && Happen(j, Act(BeginOp)) == Joint(Logging(j.log, order, data, 0), j.safe, j.next)
  {
    hide Inv, InvFiles, Step, Snap.Ok, HoldsAt, Sound, Shaped;
    QuietLog(j.log);
    assert j.log.ops + [Op(j.log.nextOp, MAXOPBLOCKS)] == [Op(j.log.nextOp, MAXOPBLOCKS)];
  }

  /** A commit left alone ends, and then the disk stands for the files after the operations. */
  lemma {:induction false} CommitHappens(j: Joint) returns (events: seq<Event>)
    requires JointInv(j) && j.log.Committing()
    ensures Happens(j, events) && JointInv(Finally(j, events)) && Settled(Finally(j, events), j.next)
    decreases var s := j.log; if Shaped(s) then CommitLeft(s) else 0
  {
    hide JointInv, Allowed, Happen, Happens, Finally, CommitLeft, Shaped;
    var e := Act(CommitStep);
    CommitAllowed(j);
    ActKeeps(j, CommitStep);
    var j1 := Happen(j, e);
    if j1.log.Committing() {
      var rest := CommitHappens(j1);
      FirstEvent(j, e, rest);
      events := [e] + rest;
    } else {
      OneEvent(j, e);
      CommitSettles(j1);
      events := [e];
    }
  }

  /** Nothing is running, and the disk stands for `S`. */
  predicate Settled(j: Joint, S: Snap) {
    j.log.phase.Open? && j.log.ops == [] && j.log.lh == [] && j.safe == S && j.next == S
  }

  lemma CommitAllowed(j: Joint)
    requires JointInv(j) && j.log.Committing()
    ensures Shaped(j.log) && Allowed(j, Act(CommitStep))
    ensures var j1 := Happen(j, Act(CommitStep));
            && j1.next == j.next && Shaped(j1.log) && j1.log.ops == []
            && (if j1.log.Committing() then CommitLeft(j1.log) < CommitLeft(j.log)
                else j1.log.phase.Open? && j1.log.lh == [])
  {
    hide Inv, InvFiles, Sound, GoodList, PutHead, Listed;
    CommitProgress(j.log);
    PhaseSays(j.log);
    InvShaped(j.log);
    InvShaped(Do(j.log, CommitStep));
  }

  lemma CommitSettles(j: Joint)
    requires JointInv(j) && j.log.phase.Open? && j.log.lh == []
    ensures j.safe == j.next
  {
    hide Inv, Carries, Layout, Snap.Ok;
  }

  lemma {:induction false} OneAfterOther(j: Joint, first: seq<Event>, rest: seq<Event>)
    requires Happens(j, first) && Happens(Finally(j, first), rest)
    ensures Happens(j, first + rest) && Finally(j, first + rest) == Finally(Finally(j, first), rest)
    decreases |first|
  {
    hide Allowed, Happen;
    if first == [] {
      assert first + rest == rest;
    } else {
      OneAfterOther(Happen(j, first[0]), first[1..], rest);
      assert (first + rest)[1..] == first[1..] + rest;
    }
  }

  /**
    And its blocks can always be written: every step of the files has a run of the log that makes it,
    commits it, and leaves the log as quiet as before.
   */
  lemma EveryStepRuns(j: Joint, to: Snap, L: set<nat>, order: seq<nat>)
    requires JointInv(j) && j.log.phase.Open? && j.log.ops == [] && Step(j.safe, to, L) && to.Ok()
    requires |order| <= MAXOPBLOCKS && Distinct(order) && (forall b :: b in order <==> b in L)
    requires forall b :: b in L ==> j.log.g.Home(b)
    ensures exists events :: Happens(j, events) && JointInv(Finally(j, events)) && Settled(Finally(j, events), to)
  {
    hide JointInv, Step, Snap.Ok, Distinct, Happens, Finally, Settled, Puts;
    var data := Contents(j, to, L, order);
    OperationHappens(j, to, L, order, data);
    var first := [Act(BeginOp)] + (Puts(order, data, |order|) + [Settle(0, to, L)]);
    EventsKeep(j, first);
    var rest := CommitHappens(Finally(j, first));
    OneAfterOther(j, first, rest);
  }

  /** The contents an operation has to write. */
  lemma Contents(j: Joint, to: Snap, L: set<nat>, order: seq<nat>) returns (data: map<nat, Block>)
    requires JointInv(j) && j.log.phase.Open? && j.log.ops == [] && Step(j.safe, to, L) && to.Ok()
    requires |order| <= MAXOPBLOCKS && Distinct(order) && (forall b :: b in order <==> b in L)
    requires forall b :: b in L ==> j.log.g.Home(b)
    ensures |order| <= MAXOPBLOCKS && (forall b :: b in order ==> b in data) && Ready(j, to, L, order, data)
  {
    hide Inv, Step, Snap.Ok, Layout, HoldsAt, WriteBack, Distinct;
    OkStorable(to);
    LayoutKept(j.log.g, j.safe, to, L);
    data := map b | b in L :: WriteBack(Zeros(), to, b);
    forall b | b in L ensures HoldsAt(data[b], to, b) {
      WriteBackHolds(j.log.g, Zeros(), to, b);
    }
  }

  // ---------- where runs start ----------

  /** Block `b` of a fresh disk: a home block holds what the snapshot says, and the log is empty. */
  ghost function Formatted(g: Geometry, S: Snap, b: nat): Block
    requires Storable(S.inodes)
  {
    if g.Home(b) then WriteBack(Zeros(), S, b) else Zeros()
  }

  ghost function FormattedDisk(g: Geometry, S: Snap): Image
    requires Storable(S.inodes)
  {
    seq(g.size, b requires 0 <= b => Formatted(g, S, b))
  }

  /** Every orderly snapshot can be put on a disk, and runs can start from there. */
  lemma EverySnapshotStarts(g: Geometry, S: Snap) returns (j: Joint)
    requires S.Ok() && Layout(g, S)
    ensures Start(j) && j.safe == S && j.log.g == g
  {
    hide Snap.Ok, HoldsAt, WriteBack, Formatted, Entry, GetWords, Storable;
    OkStorable(S);
    var img := FormattedDisk(g, S);
    var base := map b: nat | b < g.size && g.Home(b) :: img[b];
    EmptyLog(g, S);
    forall b: nat | g.Home(b) ensures b in base && HoldsAt(base[b], S, b) {
      FormattedHolds(g, S, b);
    }
    j := Joint(State(g, img, map[], Down, [], [], 0, {}, map[], base, [], 0, 0), S, S);
  }

  lemma FormattedHolds(g: Geometry, S: Snap, b: nat)
    requires S.Ok() && Layout(g, S) && Storable(S.inodes) && g.Home(b)
    ensures HoldsAt(Formatted(g, S, b), S, b)
  {
    hide Snap.Ok, Layout, HoldsAt, WriteBack, Storable;
    WriteBackHolds(g, Zeros(), S, b);
  }

  lemma EmptyLog(g: Geometry, S: Snap)
    requires g.Ok() && Storable(S.inodes)
    ensures Sound(g, FormattedDisk(g, S)) && Listed(g, FormattedDisk(g, S)) == []
  {
    hide WriteBack, Storable, Entry;
    assert FormattedDisk(g, S)[g.start] == Zeros();
    ZeroEntry(0);
  }

  /**
    A new file system: with its log, inodes and free map inside the first `meta` blocks and apart
    from one another, it is in order, and runs can start from its disk.
   */
  method Mkfs(g: Geometry, meta: nat, bmapstart: nat, inodestart: nat, inums: set<nat>, blank: Disk)
    returns (fs: Store, ghost j: Joint)
    requires g.Ok() && g.start + LOGBLOCKS < meta <= g.size && forall b: nat :: b < g.size ==> b in blank
    requires forall i :: i in inums ==> g.Home(inodestart + i / IPB) && inodestart + i / IPB < meta
    requires forall k: nat :: k <= g.size / 8 ==> g.Home(ByteBlock(bmapstart, k)) && ByteBlock(bmapstart, k) < meta
    requires forall i, k: nat :: i in inums && k <= g.size / 8 ==> ByteBlock(bmapstart, k) != inodestart + i / IPB
    ensures fs.Valid() && fs.inodes.Keys == inums && Start(j) && j.safe == fs.Snapshot()
  {
    hide Owned, BitsOk, Start;
    fs := new Store(g.size, meta, bmapstart, inodestart, inums, blank);
    j := EverySnapshotStarts(g, fs.Snapshot());
  }
}
