/**
  The buffer cache: an LRU ring of NBUF buffers threaded through prev/next links.

  Each public step of the class is one critical section of the C code, so a sequence
  of calls is an arbitrary interleaving of processes, and Valid() is what every
  interleaving keeps.
 */
module BufferCache {
  import opened Basics
  import opened DiskBlocks

  const ROOTDEV: nat := 1
  const HEAD: nat := NBUF      // index of the list head, bcache.head

  /** struct buf; `dev` is 0 until bget first assigns the buffer. */
  datatype Buf = Buf(dev: nat, blockno: nat, valid: bool, locked: bool, refcnt: nat,
                     prev: nat, next: nat, data: Block)

  // ---------- the ring ----------

  /** The i-th element of the ring, with the head before position 0 and after the last one. */
  function At(order: seq<nat>, i: int): nat
    requires -1 <= i <= |order|
  {
    if i == -1 || i == |order| then HEAD else order[i]
  }

  predicate Permutation(order: seq<nat>) {
    && |order| == NBUF
    && (forall i :: 0 <= i < |order| ==> order[i] < NBUF)
    && (forall i, j :: 0 <= i < j < |order| ==> order[i] != order[j])
  }

  predicate Linked(s: seq<Buf>, order: seq<nat>)
    requires |s| == NBUF + 1 && forall i :: 0 <= i < |order| ==> order[i] < NBUF
  {
    && (forall i :: -1 <= i < |order| ==> s[At(order, i)].next == At(order, i + 1))
    && (forall i :: 0 <= i <= |order| ==> s[At(order, i)].prev == At(order, i - 1))
  }

  predicate Ring(s: seq<Buf>, order: seq<nat>) {
    |s| == NBUF + 1 && Permutation(order) && Linked(s, order)
  }

  function Front(order: seq<nat>, k: nat): (r: seq<nat>)
    requires k < |order|
  {
    [order[k]] + order[..k] + order[k + 1..]
  }

  lemma FrontIsPermutation(order: seq<nat>, k: nat)
    requires Permutation(order) && k < |order|
    ensures Permutation(Front(order, k))
  {
  }

  function SetPrev(s: seq<Buf>, i: nat, v: nat): seq<Buf>
    requires i < |s|
  {
    s[i := s[i].(prev := v)]
  }

  function SetNext(s: seq<Buf>, i: nat, v: nat): seq<Buf>
    requires i < |s|
  {
    s[i := s[i].(next := v)]
  }

  /** The element between p and n is taken out. */
  function Unlinked(s: seq<Buf>, p: nat, n: nat): seq<Buf>
    requires p < |s| && n < |s|
  {
    SetNext(SetPrev(s, n, p), p, n)
  }

  /** Link b in between the head and `first`. */
  function Pushed(s: seq<Buf>, b: nat, first: nat): seq<Buf>
    requires |s| == NBUF + 1 && b < NBUF && first < |s|
  {
    SetNext(SetPrev(SetPrev(SetNext(s, b, first), b, HEAD), first, b), HEAD, b)
  }

  lemma AtRest(order: seq<nat>, k: nat, i: int)
    requires k < |order| && -1 <= i <= |order| - 1
    ensures At(order[..k] + order[k + 1..], i) == At(order, if i < k then i else i + 1)
  {
  }

  lemma UnlinkLinks(s: seq<Buf>, order: seq<nat>, k: nat)
    requires Ring(s, order) && k < |order|
    ensures Linked(Unlinked(s, At(order, k - 1), At(order, k + 1)), order[..k] + order[k + 1..])
  {
    var rest := order[..k] + order[k + 1..];
    var s' := Unlinked(s, At(order, k - 1), At(order, k + 1));
    forall i | -1 <= i < |rest| ensures s'[At(rest, i)].next == At(rest, i + 1) {
      UnlinkNext(s, order, k, i);
    }
    forall i | 0 <= i <= |rest| ensures s'[At(rest, i)].prev == At(rest, i - 1) {
      UnlinkPrev(s, order, k, i);
    }
  }

  lemma UnlinkNext(s: seq<Buf>, order: seq<nat>, k: nat, i: int)
    requires Ring(s, order) && k < |order| && -1 <= i < |order| - 1
    ensures var rest := order[..k] + order[k + 1..];
            Unlinked(s, At(order, k - 1), At(order, k + 1))[At(rest, i)].next == At(rest, i + 1)
  {
    AtRest(order, k, i);
    AtRest(order, k, i + 1);
    var i' := if i < k then i else i + 1;
    assert s[At(order, i')].next == At(order, i' + 1);
    assert At(order, i') == At(order, k - 1) <==> i' == k - 1;
  }

  lemma UnlinkPrev(s: seq<Buf>, order: seq<nat>, k: nat, i: int)
    requires Ring(s, order) && k < |order| && 0 <= i <= |order| - 1
    ensures var rest := order[..k] + order[k + 1..];
            Unlinked(s, At(order, k - 1), At(order, k + 1))[At(rest, i)].prev == At(rest, i - 1)
  {
    AtRest(order, k, i);
    AtRest(order, k, i - 1);
    var i' := if i < k then i else i + 1;
    assert s[At(order, i')].prev == At(order, i' - 1);
    assert At(order, i') == At(order, k + 1) <==> i' == k + 1;
  }

  lemma PushLinks(s: seq<Buf>, rest: seq<nat>, b: nat)
    requires |s| == NBUF + 1 && b < NBUF && b !in rest
    requires (forall i :: 0 <= i < |rest| ==> rest[i] < NBUF) && Linked(s, rest)
    requires forall i, j :: 0 <= i < j < |rest| ==> rest[i] != rest[j]
    ensures s[HEAD].next == At(rest, 0) && Linked(Pushed(s, b, At(rest, 0)), [b] + rest)
  {
    var order := [b] + rest;
    assert s[HEAD].next == At(rest, 0) by { assert At(rest, -1) == HEAD; }
    var s' := Pushed(s, b, At(rest, 0));
    forall i | -1 <= i < |order| ensures s'[At(order, i)].next == At(order, i + 1) {
      if i >= 1 {
        assert At(order, i) == At(rest, i - 1);
        assert s[At(rest, i - 1)].next == At(rest, i);
      }
    }
    forall i | 0 <= i <= |order| ensures s'[At(order, i)].prev == At(order, i - 1) {
      if i >= 2 {
        assert At(order, i) == At(rest, i - 1);
        assert s[At(rest, i - 1)].prev == At(rest, i - 2);
      }
    }
  }

  // ---------- what the buffers hold ----------

  /** `slot` is the index of the cache: which buffer each cached block is in. */
  predicate Indexed(s: seq<Buf>, size: nat, slot: map<nat, nat>) {
    && |s| == NBUF + 1
    && (forall b :: b in slot ==> b < size && slot[b] < NBUF && s[slot[b]].dev == ROOTDEV && s[slot[b]].blockno == b)
    && (forall i :: 0 <= i < NBUF && s[i].dev != 0 ==> s[i].blockno in slot && slot[s[i].blockno] == i)
  }

  /** A reference is a process using or waiting for the buffer, or the log's pin. */
  predicate Counted(s: seq<Buf>, pinned: set<nat>, users: seq<nat>) {
    && |s| == NBUF + 1 && |users| == NBUF
    && (forall i :: 0 <= i < NBUF ==>
          && s[i].refcnt == users[i] + (if s[i].dev != 0 && s[i].blockno in pinned then 1 else 0)
          && (s[i].locked ==> s[i].dev != 0 && users[i] >= 1))
  }

  predicate Loaded(s: seq<Buf>, slot: map<nat, nat>, b: nat) {
    b in slot && slot[b] < |s| && s[slot[b]].valid
  }

  /** `last[b]` is what the last process to release block b left in it: the cache and the disk agree
      with it, except that a pinned block may be newer than the disk. */
  predicate BlockOk(s: seq<Buf>, slot: map<nat, nat>, disk: seq<Block>, last: seq<Block>, pinned: set<nat>, b: nat)
    requires b < |disk| == |last|
  {
    if !Loaded(s, slot, b) then disk[b] == last[b] && b !in pinned
    else
      var x := s[slot[b]];
      x.locked || (x.data == last[b] && (b in pinned || x.data == disk[b]))
  }

  predicate Coherent(s: seq<Buf>, slot: map<nat, nat>, disk: seq<Block>, last: seq<Block>, pinned: set<nat>,
                     users: seq<nat>)
  {
    && Indexed(s, |disk|, slot) && Counted(s, pinned, users) && |last| == |disk|
    && (forall b: nat | b < |disk| :: BlockOk(s, slot, disk, last, pinned, b))
    && (forall b :: b in pinned ==> b < |disk|)
  }

  /** Rewriting the buffer of one block concerns that block alone. */
  lemma OneBlock(s: seq<Buf>, slot: map<nat, nat>, disk: seq<Block>, last: seq<Block>, pinned: set<nat>,
                 users: seq<nat>, i: nat, x: Buf, d: Block, l: Block, pinned': set<nat>, u: nat)
    requires Coherent(s, slot, disk, last, pinned, users) && i < NBUF && s[i].dev != 0
    requires x.dev == s[i].dev && x.blockno == s[i].blockno
    requires var b := x.blockno;
             && (pinned' == pinned || pinned' == pinned + {b} || pinned' == pinned - {b})
             && x.refcnt == u + (if b in pinned' then 1 else 0)
             && (x.locked ==> u >= 1)
             && BlockOk(s[i := x], slot, disk[b := d], last[b := l], pinned', b)
    ensures Coherent(s[i := x], slot, disk[x.blockno := d], last[x.blockno := l], pinned', users[i := u])
  {
    var b := x.blockno;
    var s', disk', last' := s[i := x], disk[b := d], last[b := l];
    forall a: nat | a < |disk| && a != b ensures BlockOk(s', slot, disk', last', pinned', a) {
      assert BlockOk(s, slot, disk, last, pinned, a);
    }
  }

  /** The index after buffer i, so far holding x, has been given to block b. */
  function Reassigned(slot: map<nat, nat>, x: Buf, b: nat, i: nat): map<nat, nat> {
    (if x.dev != 0 then slot - {x.blockno} else slot)[b := i]
  }

  /** i is the unreferenced buffer nearest the tail of the ring. */
  ghost predicate LastFree(s: seq<Buf>, order: seq<nat>, i: nat) {
    && |s| == NBUF + 1 && Permutation(order)
    && exists k :: 0 <= k < |order| && order[k] == i && s[i].refcnt == 0
                   && forall j :: k < j < |order| ==> s[order[j]].refcnt > 0
  }

  /** Reusing buffer i for block b forgets a block whose contents the disk has. */
  lemma Recycle(s: seq<Buf>, slot: map<nat, nat>, disk: seq<Block>, last: seq<Block>, pinned: set<nat>,
                users: seq<nat>, i: nat, b: nat)
    requires Coherent(s, slot, disk, last, pinned, users) && i < NBUF && s[i].refcnt == 0
    requires b < |disk| && b !in slot
    ensures var s' := s[i := s[i].(dev := ROOTDEV, blockno := b, valid := false, refcnt := 1)];
            var slot' := Reassigned(slot, s[i], b, i);
            Coherent(s', slot', disk, last, pinned, users[i := 1])
  {
    var s' := s[i := s[i].(dev := ROOTDEV, blockno := b, valid := false, refcnt := 1)];
    var slot' := Reassigned(slot, s[i], b, i);
    assert BlockOk(s, slot, disk, last, pinned, b);
    forall a: nat | a < |disk| ensures BlockOk(s', slot', disk, last, pinned, a) {
      assert BlockOk(s, slot, disk, last, pinned, a);
    }
  }

  /** What may be recycled: a pinned block is cached, counted once for its pin and not free; a free buffer is clean. */
  lemma NeverRecycled(s: seq<Buf>, slot: map<nat, nat>, disk: seq<Block>, last: seq<Block>, pinned: set<nat>,
                      users: seq<nat>, i: nat, b: nat)
    requires Coherent(s, slot, disk, last, pinned, users) && i < NBUF && s[i].dev != 0 && s[i].blockno == b
    ensures b in slot && slot[b] == i && (b in pinned ==> s[i].refcnt == users[i] + 1)
    ensures s[i].refcnt == 0 ==>
              b !in pinned && !s[i].locked && disk[b] == last[b] && (s[i].valid ==> s[i].data == disk[b])
    ensures b in pinned ==> s[i].valid
  {
    assert BlockOk(s, slot, disk, last, pinned, b);
  }

  predicate SameButLinks(s: seq<Buf>, s': seq<Buf>) {
    |s| == |s'| && forall i :: 0 <= i < |s| ==> s'[i] == s[i].(prev := s'[i].prev, next := s'[i].next)
  }

  lemma RelinkKeeps(s: seq<Buf>, s': seq<Buf>, slot: map<nat, nat>, disk: seq<Block>, last: seq<Block>,
                    pinned: set<nat>, users: seq<nat>)
    requires Coherent(s, slot, disk, last, pinned, users) && SameButLinks(s, s')
    ensures Coherent(s', slot, disk, last, pinned, users)
  {
    forall a: nat | a < |disk| ensures BlockOk(s', slot, disk, last, pinned, a) {
      assert BlockOk(s, slot, disk, last, pinned, a);
    }
  }

  lemma SameLinksKeep(s: seq<Buf>, s': seq<Buf>, order: seq<nat>)
    requires Ring(s, order) && |s'| == |s|
    requires forall i :: 0 <= i < |s| ==> s'[i].prev == s[i].prev && s'[i].next == s[i].next
    ensures Ring(s', order)
  {
  }

  /** Unlinking and pushing to the front, together. */
  lemma RingStep(s: seq<Buf>, order: seq<nat>, k: int)
    requires Ring(s, order) && 0 <= k < |order|
    ensures var i := order[k];
            && i < NBUF && s[i].next == At(order, k + 1) != i && s[i].prev == At(order, k - 1) != i
            && s[i].next <= NBUF && s[i].prev <= NBUF
            && var t := Unlinked(s, s[i].prev, s[i].next);
               && t[HEAD].next <= NBUF && t[HEAD].next != i
               && Ring(Pushed(t, i, t[HEAD].next), Front(order, k))
               && SameButLinks(s, Pushed(t, i, t[HEAD].next))
  {
    hide Linked, Unlinked, Pushed;
    NeighboursIn(s, order, k);
    var rest, t := order[..k] + order[k + 1..], Unlinked(s, s[order[k]].prev, s[order[k]].next);
    UnlinkLinks(s, order, k);
    UnlinkSame(s, s[order[k]].prev, s[order[k]].next);
    RestOf(order, k);
    PushLinks(t, rest, order[k]);
    PushSame(t, order[k], t[HEAD].next);
    FrontIsPermutation(order, k);
  }

  /** The links of the element at position k. */
  lemma NeighboursIn(s: seq<Buf>, order: seq<nat>, k: nat)
    requires Ring(s, order) && k < |order|
    ensures var i := order[k];
            && i < NBUF && s[i].next == At(order, k + 1) != i && s[i].prev == At(order, k - 1) != i
            && s[i].next <= NBUF && s[i].prev <= NBUF
  {
    assert At(order, k) == order[k];
    assert s[At(order, k)].next == At(order, k + 1) && s[At(order, k)].prev == At(order, k - 1);
  }

  lemma UnlinkSame(s: seq<Buf>, p: nat, n: nat)
    requires p < |s| && n < |s|
    ensures SameButLinks(s, Unlinked(s, p, n))
  {
  }

  lemma PushSame(s: seq<Buf>, b: nat, first: nat)
    requires |s| == NBUF + 1 && b < NBUF && first < |s|
    ensures SameButLinks(s, Pushed(s, b, first))
  {
  }

  lemma RestOf(order: seq<nat>, k: nat)
    requires Permutation(order) && k < |order|
    ensures var rest := order[..k] + order[k + 1..];
            && Front(order, k) == [order[k]] + rest && order[k] !in rest
            && At(rest, 0) <= NBUF && At(rest, 0) != order[k]
            && (forall i :: 0 <= i < |rest| ==> rest[i] < NBUF)
            && (forall i, j :: 0 <= i < j < |rest| ==> rest[i] != rest[j])
  {
  }

  /** A permutation of the buffers reaches every buffer. */
  lemma PositionOf(order: seq<nat>, i: nat) returns (k: nat)
    requires Permutation(order) && i < NBUF
    ensures k < |order| && order[k] == i
  {
    if i !in order {
      var seen := set j | 0 <= j < |order| :: order[j];
      DistinctCount(order, seen);
      UptoCount(NBUF);
      SubsetCard(seen, Upto(NBUF) - {i});
    }
    k :| k < |order| && order[k] == i;
  }

  function Upto(n: nat): set<nat> {
    if n == 0 then {} else Upto(n - 1) + {n - 1}
  }

  lemma {:induction false} UptoCount(n: nat)
    ensures |Upto(n)| == n && forall j: nat :: j in Upto(n) <==> j < n
  {
    if n > 0 { UptoCount(n - 1); }
  }

  lemma {:induction false} DistinctCount(order: seq<nat>, seen: set<nat>)
    requires forall i, j :: 0 <= i < j < |order| ==> order[i] != order[j]
    requires seen == set j | 0 <= j < |order| :: order[j]
    ensures |seen| == |order|
  {
    if order != [] {
      var n := |order| - 1;
      var front := set j | 0 <= j < n :: order[..n][j];
      DistinctCount(order[..n], front);
      assert seen == front + {order[n]};
    }
  }

  lemma AllReferenced(s: seq<Buf>, order: seq<nat>)
    requires |s| == NBUF + 1 && Permutation(order) && forall j :: 0 <= j < |order| ==> s[order[j]].refcnt > 0
    ensures forall i :: 0 <= i < NBUF ==> s[i].refcnt > 0
  {
    forall i | 0 <= i < NBUF ensures s[i].refcnt > 0 {
      var k := PositionOf(order, i);
    }
  }

  /** Buffer i is locked and loaded with block b. */
  predicate HeldIn(s: seq<Buf>, slot: map<nat, nat>, i: nat, b: nat) {
    i < NBUF < |s| && b in slot && slot[b] == i && s[i].locked && s[i].valid
  }

  function LockedIn(s: seq<Buf>, slot: map<nat, nat>): set<nat> {
    set b | b in slot && slot[b] < |s| && s[slot[b]].locked
  }

  /** The blocks held, each with its buffer and what is in it. */
  function HoldingIn(s: seq<Buf>, slot: map<nat, nat>): map<nat, (nat, Block)> {
    map b | b in slot && slot[b] < |s| && HeldIn(s, slot, slot[b], b) :: (slot[b], s[slot[b]].data)
  }

  lemma HoldingLocked(s: seq<Buf>, slot: map<nat, nat>)
    ensures HoldingIn(s, slot).Keys <= LockedIn(s, slot)
  {
  }

  /** Obtaining buffer i for block b adds one holder and leaves all others what they hold. */
  lemma HoldingMore(s: seq<Buf>, slot: map<nat, nat>, s': seq<Buf>, slot': map<nat, nat>, size: nat, i: nat, b: nat)
    requires Indexed(s, size, slot) && Indexed(s', size, slot')
    requires i < NBUF && !s[i].locked && b in slot' && slot'[b] == i && s'[i].locked && s'[i].valid
    requires forall j :: 0 <= j < NBUF && j != i ==> s'[j] == s[j]
    requires forall c :: c in slot' && c != b ==> c in slot && slot[c] == slot'[c]
    requires forall c :: c in slot && slot[c] != i ==> c in slot'
    ensures HoldingIn(s', slot') == HoldingIn(s, slot)[b := (i, s'[i].data)]
  {
  }

  /** Only the buffer of block b differs, apart from links. */
  lemma HoldingOne(s: seq<Buf>, slot: map<nat, nat>, s': seq<Buf>, size: nat, i: nat, b: nat, x: Buf)
    requires Indexed(s, size, slot) && |s'| == |s| && i < NBUF && HeldIn(s, slot, i, b) && SameButLinks(s[i := x], s')
    ensures x.locked && x.valid ==> HoldingIn(s', slot) == HoldingIn(s, slot)[b := (i, x.data)]
    ensures !x.locked ==> HoldingIn(s', slot) == HoldingIn(s, slot) - {b}
  {
  }

  /** Every holder other than that of `except` still holds the same contents. */
  predicate Undisturbed(s: seq<Buf>, slot: map<nat, nat>, s': seq<Buf>, slot': map<nat, nat>, except: nat) {
    forall c :: c in slot && c != except && HeldIn(s, slot, slot[c], c) ==>
                  c in slot' && HeldIn(s', slot', slot[c], c) && s'[slot[c]].data == s[slot[c]].data
  }

  /** Obtaining buffer i for block b, when nobody has b locked, disturbs no holder. */
  lemma ObtainDisturbsNobody(s: seq<Buf>, slot: map<nat, nat>, s': seq<Buf>, slot': map<nat, nat>, size: nat, i: nat,
                             b: nat)
    requires Indexed(s, size, slot) && Indexed(s', size, slot')
    requires i < NBUF && !s[i].locked && b in slot' && slot'[b] == i
    requires forall j :: 0 <= j < NBUF && j != i ==> s'[j] == s[j]
    requires forall c :: c in slot' && c != b ==> c in slot && slot[c] == slot'[c]
    requires forall c :: c in slot && slot[c] != i ==> c in slot'
    ensures Undisturbed(s, slot, s', slot', b)
    ensures LockedIn(s', slot') == LockedIn(s, slot) + if s'[i].locked then {b} else {}
  {
  }

  lemma NobodyDisturbed(s: seq<Buf>, slot: map<nat, nat>, b: nat)
    ensures Undisturbed(s, slot, s, slot, b)
  {
  }

  /** A block that is not locked is not in a locked buffer. */
  lemma NotLocked(s: seq<Buf>, slot: map<nat, nat>, size: nat, i: nat, b: nat)
    requires Indexed(s, size, slot) && b !in LockedIn(s, slot) && i < NBUF
    ensures b in slot && slot[b] == i ==> !s[i].locked
  {
  }

  /** What bget does to the index concerns the block it gives up and the block it takes in. */
  lemma ObtainSlots(s: seq<Buf>, slot: map<nat, nat>, slot': map<nat, nat>, size: nat, i: nat, b: nat)
    requires Indexed(s, size, slot) && i < NBUF
    requires if b in slot then slot' == slot && slot[b] == i else slot' == Reassigned(slot, s[i], b, i)
    ensures forall c :: c in slot' && c != b ==> c in slot && slot[c] == slot'[c]
    ensures forall c :: c in slot && slot[c] != i ==> c in slot'
  {
  }

  class Cache {
    var bufs: array<Buf>
    var disk: seq<Block>
    ghost var order: seq<nat>            // ring order, most recently released first
    ghost var slot: map<nat, nat>
    ghost var last: seq<Block>           // the plain block map the cache stands for
    ghost var pinned: set<nat>
    ghost var users: seq<nat>
    ghost var history: seq<Image>        // the disk after each single-block write

    ghost predicate Valid()
      reads this, bufs
    {
      && bufs.Length == NBUF + 1
      && Ring(bufs[..], order)
      && Coherent(bufs[..], slot, disk, last, pinned, users)
    }

    /** Every buffer is in use: where bget panics unless the block is cached. */
    predicate Exhausted()
      requires bufs.Length == NBUF + 1
      reads this, bufs
    {
      forall i :: 0 <= i < NBUF ==> bufs[i].refcnt > 0
    }

    lemma ValidFacts()
      requires Valid()
      ensures bufs.Length == NBUF + 1 && |last| == |disk| && |users| == NBUF
      ensures Ring(bufs[..], order) && Coherent(bufs[..], slot, disk, last, pinned, users)
      ensures Indexed(bufs[..], |disk|, slot)
    {
    }

    /** The caller has buffer i locked and loaded with block b. */
    ghost predicate Held(i: nat, b: nat)
      reads this, bufs
    {
      HeldIn(bufs[..], slot, i, b)
    }

    /** binit, over a disk with contents `image`. */
    constructor (image: seq<Block>)
      ensures Valid() && fresh(bufs)
      ensures disk == image && last == image && pinned == {} && slot == map[] && history == [image]
      ensures users == seq(NBUF, i => 0) && forall i :: 0 <= i < NBUF ==> order[i] == NBUF - 1 - i
    {
      var blank := Zeros();
      bufs := new Buf[NBUF + 1](i => Buf(0, 0, false, false, 0, HEAD, HEAD, blank));
      disk, last, pinned, slot, history, users := image, image, {}, map[], [image], seq(NBUF, i => 0);
      order := [];
      new;
      var b := 0;
      while b < NBUF
        invariant 0 <= b <= NBUF && bufs.Length == NBUF + 1
        invariant |order| == b && forall i :: 0 <= i < b ==> order[i] == b - 1 - i
        invariant fresh(bufs) && Linked(bufs[..], order)
        invariant forall i :: 0 <= i < NBUF ==> bufs[i].dev == 0 && bufs[i].refcnt == 0 && !bufs[i].locked
        invariant disk == image && last == image && pinned == {} && slot == map[] && history == [image]
        invariant users == seq(NBUF, i => 0)
      {
        ghost var s := bufs[..];
        PushLinks(s, order, b);
        LinkFirst(b);
        order := [b] + order;
        b := b + 1;
      }
    }

    /** The four assignments that put b behind the head. */
    method LinkFirst(b: nat)
      requires bufs.Length == NBUF + 1 && b < NBUF && bufs[HEAD].next <= NBUF
      requires bufs[HEAD].next != b
      modifies bufs
      ensures bufs[..] == Pushed(old(bufs[..]), b, old(bufs[HEAD].next))
    {
      bufs[b] := bufs[b].(next := bufs[HEAD].next);
      bufs[b] := bufs[b].(prev := HEAD);
      bufs[bufs[HEAD].next] := bufs[bufs[HEAD].next].(prev := b);
      bufs[HEAD] := bufs[HEAD].(next := b);
    }

    /** bget's first loop: the buffer of a cached block, else HEAD. */
    method Lookup(blockno: nat) returns (b: nat)
      requires Valid()
      ensures if blockno in slot then b < NBUF && b == slot[blockno] else b == HEAD
    {
      assert At(order, -1) == HEAD;
      b := bufs[HEAD].next;
      ghost var k := 0;
      while b != HEAD
        invariant 0 <= k <= |order| && b == At(order, k)
        invariant forall j :: 0 <= j < k ==> !(bufs[order[j]].dev == ROOTDEV && bufs[order[j]].blockno == blockno)
        decreases |order| - k
      {
        if bufs[b].dev == ROOTDEV && bufs[b].blockno == blockno {
          return;
        }
        b := bufs[b].next;
        k := k + 1;
      }
      NotCached(bufs[..], blockno);
    }

    /** bget's second loop: the least recently used unreferenced buffer, else HEAD. */
    method LeastRecent() returns (b: nat)
      requires Valid()
      ensures if b == HEAD then forall i :: 0 <= i < NBUF ==> bufs[i].refcnt > 0
              else b < NBUF && LastFree(bufs[..], order, b)
    {
      assert At(order, |order|) == HEAD;
      b := bufs[HEAD].prev;
      ghost var k := |order| - 1;
      while b != HEAD
        invariant -1 <= k < |order| && b == At(order, k)
        invariant forall j :: k < j < |order| ==> bufs[order[j]].refcnt > 0
        decreases k + 1
      {
        if bufs[b].refcnt == 0 {
          return;
        }
        b := bufs[b].prev;
        k := k - 1;
      }
      AllReferenced(bufs[..], order);
    }

    /** bget up to the point where bcache.lock is released. None is the "no buffers" panic. */
    method Bget(blockno: nat) returns (r: Option<nat>)
      requires Valid() && blockno < |disk|
      modifies this`slot, this`users, bufs
      ensures Valid()
      ensures r.None? <==> blockno !in old(slot) && forall i :: 0 <= i < NBUF ==> old(bufs[i].refcnt) > 0
      ensures r.None? ==> slot == old(slot) && users == old(users) && bufs[..] == old(bufs[..])
      ensures r.Some? ==>
                var i := r.value;
                && i < NBUF && blockno in slot && slot[blockno] == i
                && bufs[i].blockno == blockno && bufs[i].dev == ROOTDEV
                && (forall j :: 0 <= j < NBUF && j != i ==> bufs[j] == old(bufs[j]) && users[j] == old(users)[j])
                && if blockno in old(slot) then
                     slot == old(slot) && users[i] == old(users)[i] + 1
                     && bufs[i] == old(bufs[..])[i].(refcnt := old(bufs[..])[i].refcnt + 1)
                   else
                     LastFree(old(bufs[..]), order, i) && users[i] == 1 && !bufs[i].valid
                     && !bufs[i].locked && !old(bufs[..])[i].locked
                     && slot == Reassigned(old(slot), old(bufs[..])[i], blockno, i)
    {
      ghost var s := bufs[..];
      var b := Lookup(blockno);
      if b != HEAD {
        bufs[b] := bufs[b].(refcnt := bufs[b].refcnt + 1);
        TakeReference(s, b, blockno);
        users := users[b := users[b] + 1];
        return Some(b);
      }
      b := LeastRecent();
      if b != HEAD {
        Recycle(s, slot, disk, last, pinned, users, b, blockno);
        slot := Reassigned(slot, bufs[b], blockno, b);
        users := users[b := 1];
        bufs[b] := bufs[b].(dev := ROOTDEV, blockno := blockno, valid := false, refcnt := 1);
        assert bufs[..] == s[b := bufs[b]];
        SameLinksKeep(s, bufs[..], order);
        return Some(b);
      }
      r := None;
    }

    lemma TakeReference(s: seq<Buf>, i: nat, b: nat)
      requires bufs.Length == NBUF + 1 && Ring(s, order) && Coherent(s, slot, disk, last, pinned, users)
      requires i < NBUF && s[i].dev == ROOTDEV && s[i].blockno == b
      requires bufs[..] == s[i := s[i].(refcnt := s[i].refcnt + 1)]
      ensures Ring(bufs[..], order) && b in slot && slot[b] == i
      ensures Coherent(bufs[..], slot, disk, last, pinned, users[i := users[i] + 1])
    {
      SameLinksKeep(s, bufs[..], order);
      assert BlockOk(s, slot, disk, last, pinned, b);
      OneBlock(s, slot, disk, last, pinned, users, i, bufs[i], disk[b], last[b], pinned, users[i] + 1);
      assert disk[b := disk[b]] == disk && last[b := last[b]] == last;
    }

    lemma NotCached(s: seq<Buf>, b: nat)
      requires Permutation(order) && Indexed(s, |disk|, slot)
      requires forall j :: 0 <= j < NBUF ==> !(s[order[j]].dev == ROOTDEV && s[order[j]].blockno == b)
      ensures b !in slot
    {
      if b in slot {
        var j := PositionOf(order, slot[b]);
      }
    }

    /** acquiresleep on a buffer obtained from bget, at the moment the lock is free. */
    method Lock(i: nat)
      requires Valid() && i < NBUF && users[i] >= 1 && bufs[i].dev != 0 && !bufs[i].locked
      modifies bufs
      ensures Valid() && bufs[..] == old(bufs[..])[i := old(bufs[i]).(locked := true)]
      ensures bufs[i].blockno < |last| && (bufs[i].valid ==> bufs[i].data == last[bufs[i].blockno])
    {
      ghost var s, b := bufs[..], bufs[i].blockno;
      assert BlockOk(s, slot, disk, last, pinned, b);
      bufs[i] := bufs[i].(locked := true);
      assert bufs[..] == s[i := s[i].(locked := true)];
      OneBlock(s, slot, disk, last, pinned, users, i, bufs[i], disk[b], last[b], pinned, users[i]);
      assert users[i := users[i]] == users && disk[b := disk[b]] == disk && last[b := last[b]] == last;
      SameLinksKeep(s, bufs[..], order);
    }

    /** The rest of bread: read the block if the buffer was just assigned. */
    method Load(i: nat)
      requires Valid() && i < NBUF && bufs[i].locked
      modifies bufs
      ensures Valid() && bufs[i].blockno < |last|
      ensures bufs[..] == old(bufs[..])[i := bufs[i]]
      ensures bufs[i] == old(bufs[i]).(valid := true, data := bufs[i].data)
      ensures bufs[i].data == if old(bufs[i].valid) then old(bufs[i].data) else last[bufs[i].blockno]
    {
      ghost var s, b := bufs[..], bufs[i].blockno;
      assert BlockOk(s, slot, disk, last, pinned, b);
      if !bufs[i].valid {
        bufs[i] := bufs[i].(data := disk[bufs[i].blockno]);
        bufs[i] := bufs[i].(valid := true);
        Unchanged(s, i, b);
      }
    }

    /** A buffer rewritten under its lock leaves everything else as it was. */
    lemma Unchanged(s: seq<Buf>, i: nat, b: nat)
      requires bufs.Length == NBUF + 1 && Ring(s, order) && Coherent(s, slot, disk, last, pinned, users)
      requires i < NBUF && s[i].dev != 0 && s[i].blockno == b && s[i].locked
      requires bufs[..] == s[i := s[i].(valid := true, data := bufs[i].data)]
      requires b in pinned ==> s[i].valid
      ensures Valid()
    {
      SameLinksKeep(s, bufs[..], order);
      assert slot[b] == i;
      OneBlock(s, slot, disk, last, pinned, users, i, bufs[i], disk[b], last[b], pinned, users[i]);
      assert users[i := users[i]] == users && disk[b := disk[b]] == disk && last[b := last[b]] == last;
    }

    /** The holder changes the contents of its buffer. */
    method Store(i: nat, ghost b: nat, data: Block)
      requires Valid() && Held(i, b)
      modifies bufs
      ensures Valid() && bufs[..] == old(bufs[..])[i := old(bufs[i]).(data := data)]
    {
      ghost var s := bufs[..];
      bufs[i] := bufs[i].(data := data);
      Unchanged(s, i, b);
    }

    /** bwrite: one atomic single-block write. */
    method Bwrite(i: nat, ghost b: nat)
      requires Valid() && Held(i, b)
      modifies this`disk, this`history
      ensures Valid() && b < |old(disk)| && disk == old(disk)[b := bufs[i].data] && history == old(history) + [disk]
    {
      assert bufs[i].blockno == b;
      OneBlock(bufs[..], slot, disk, last, pinned, users, i, bufs[i], bufs[i].data, last[b], pinned, users[i]);
      assert bufs[..][i := bufs[i]] == bufs[..] && users[i := users[i]] == users && last[b := last[b]] == last;
      disk := disk[bufs[i].blockno := bufs[i].data];
      history := history + [disk];
    }

    /** brelse, first half: give up the sleep-lock. What is left behind must be on disk or pinned. */
    method Unlock(i: nat, ghost b: nat)
      requires Valid() && Held(i, b) && (b in pinned || bufs[i].data == disk[b])
      modifies this`last, bufs
      ensures Valid() && b < |old(last)| && last == old(last)[b := old(bufs[i].data)]
      ensures bufs[..] == old(bufs[..])[i := old(bufs[i]).(locked := false)]
    {
      ghost var s := bufs[..];
      bufs[i] := bufs[i].(locked := false);
      assert bufs[..] == s[i := s[i].(locked := false)];
      OneBlock(s, slot, disk, last, pinned, users, i, bufs[i], disk[b], bufs[i].data, pinned, users[i]);
      assert users[i := users[i]] == users && disk[b := disk[b]] == disk;
      last := last[b := bufs[i].data];
      SameLinksKeep(s, bufs[..], order);
    }

    /** brelse, second half: drop the reference; an unreferenced buffer becomes the most recent one. */
    method Unref(i: nat)
      requires Valid() && i < NBUF && bufs[i].dev != 0
      requires users[i] >= (if bufs[i].locked then 2 else 1)
      modifies this`users, this`order, bufs
      ensures Valid() && users == old(users)[i := old(users[i]) - 1]
      ensures SameButLinks(old(bufs[..])[i := old(bufs[i]).(refcnt := old(bufs[i].refcnt) - 1)], bufs[..])
      ensures bufs[i].refcnt > 0 ==> order == old(order)
      ensures bufs[i].refcnt == 0 ==>
                exists k :: 0 <= k < |old(order)| && old(order)[k] == i && order == Front(old(order), k)
    {
      ghost var s, b := bufs[..], bufs[i].blockno;
      bufs[i] := bufs[i].(refcnt := bufs[i].refcnt - 1);
      DropReference(s, i, b);
      users := users[i := users[i] - 1];
      if bufs[i].refcnt == 0 {
        MoveToFront(i);
      }
    }

    lemma DropReference(s: seq<Buf>, i: nat, b: nat)
      requires bufs.Length == NBUF + 1 && Ring(s, order) && Coherent(s, slot, disk, last, pinned, users)
      requires i < NBUF && s[i].dev != 0 && s[i].blockno == b && s[i].refcnt > 0
      requires bufs[..] == s[i := s[i].(refcnt := s[i].refcnt - 1)]
      requires users[i] >= (if s[i].locked then 2 else 1)
      ensures Ring(bufs[..], order)
      ensures Coherent(bufs[..], slot, disk, last, pinned, users[i := users[i] - 1])
    {
      SameLinksKeep(s, bufs[..], order);
      assert BlockOk(s, slot, disk, last, pinned, b);
      OneBlock(s, slot, disk, last, pinned, users, i, bufs[i], disk[b], last[b], pinned, users[i] - 1);
      assert disk[b := disk[b]] == disk && last[b := last[b]] == last;
    }

    /** The two assignments that take buffer i out of the ring. */
    method LinkOut(i: nat)
      requires bufs.Length == NBUF + 1 && i < NBUF && bufs[i].next <= NBUF && bufs[i].prev <= NBUF
      requires bufs[i].next != i && bufs[i].prev != i
      modifies bufs
      ensures bufs[..] == Unlinked(old(bufs[..]), old(bufs[i].prev), old(bufs[i].next))
    {
      bufs[bufs[i].next] := bufs[bufs[i].next].(prev := bufs[i].prev);
      bufs[bufs[i].prev] := bufs[bufs[i].prev].(next := bufs[i].next);
    }

    method MoveToFront(i: nat)
      requires Valid() && i < NBUF
      modifies this`order, bufs
      ensures Valid() && SameButLinks(old(bufs[..]), bufs[..])
      ensures exists k :: 0 <= k < |old(order)| && old(order)[k] == i && order == Front(old(order), k)
    {
      ghost var s := bufs[..];
      ghost var k: int := PositionOf(order, i);
      RingStep(s, order, k);
      LinkOut(i);
      LinkFirst(i);
      RelinkKeeps(s, bufs[..], slot, disk, last, pinned, users);
      order := Front(order, k);
    }

    /** bpin: one more reference, so that the buffer cannot be recycled before it is installed. */
    method Bpin(i: nat, ghost b: nat)
      requires Valid() && Held(i, b) && b !in pinned
      modifies this`pinned, bufs
      ensures Valid() && pinned == old(pinned) + {b}
      ensures bufs[..] == old(bufs[..])[i := old(bufs[i]).(refcnt := old(bufs[i].refcnt) + 1)]
      ensures LockedSet() == old(LockedSet()) && Holding() == old(Holding())
    {
      ghost var s := bufs[..];
      bufs[i] := bufs[i].(refcnt := bufs[i].refcnt + 1);
      assert bufs[..] == s[i := bufs[i]];
      OneBlock(s, slot, disk, last, pinned, users, i, bufs[i], disk[b], last[b], pinned + {b}, users[i]);
      assert users[i := users[i]] == users && disk[b := disk[b]] == disk && last[b := last[b]] == last;
      pinned := pinned + {b};
      SameLinksKeep(s, bufs[..], order);
    }

    method Bunpin(i: nat, ghost b: nat)
      requires Valid() && Held(i, b) && b in pinned
      modifies this`pinned, bufs
      ensures Valid() && pinned == old(pinned) - {b}
      ensures bufs[..] == old(bufs[..])[i := old(bufs[i]).(refcnt := old(bufs[i].refcnt) - 1)]
      ensures LockedSet() == old(LockedSet()) && Holding() == old(Holding())
    {
      ghost var s := bufs[..];
      bufs[i] := bufs[i].(refcnt := bufs[i].refcnt - 1);
      assert bufs[..] == s[i := bufs[i]];
      OneBlock(s, slot, disk, last, pinned, users, i, bufs[i], disk[b], last[b], pinned - {b}, users[i]);
      assert users[i := users[i]] == users && disk[b := disk[b]] == disk && last[b := last[b]] == last;
      pinned := pinned - {b};
      SameLinksKeep(s, bufs[..], order);
    }

    /** Blocks whose buffers are locked. */
    ghost function LockedSet(): set<nat>
      reads this, bufs
      requires Valid()
    {
      LockedIn(bufs[..], slot)
    }

    /** Who holds what. */
    ghost function Holding(): map<nat, (nat, Block)>
      reads this, bufs
    {
      HoldingIn(bufs[..], slot)
    }

    lemma NotHolding(b: nat)
      requires Valid() && b !in LockedSet()
      ensures b !in Holding()
    {
      HoldingLocked(bufs[..], slot);
    }

    /** What the processes holding buffers rely on: nobody else touches them. */
    twostate predicate HoldersUndisturbed(except: nat)
      reads this, bufs
    {
      bufs == old(bufs) && Undisturbed(old(bufs[..]), old(slot), bufs[..], slot, except)
    }

    /** bread, for a block nobody has locked: the contents are the last ones released. */
    method Bread(b: nat) returns (r: Option<nat>)
      requires Valid() && b < |disk| && b !in LockedSet()
      modifies this`slot, this`users, bufs
      ensures Valid() && HoldersUndisturbed(b)
      ensures r.None? <==> b !in old(slot) && old(Exhausted())
      ensures r.None? ==> LockedSet() == old(LockedSet()) && Holding() == old(Holding()) && Exhausted()
      ensures r.Some? ==> r.value < NBUF < bufs.Length && Held(r.value, b) && bufs[r.value].data == last[b]
      ensures r.Some? ==> LockedSet() == old(LockedSet()) + {b} && Holding() == old(Holding())[b := (r.value, last[b])]
    {
      hide Valid, Ring, Coherent, Indexed, LastFree, LockedIn, HoldingIn, Undisturbed, Reassigned;
      ghost var s, slot0 := bufs[..], slot;
      ValidFacts();
      r := Bget(b);
      ValidFacts();
      if r.None? {
        NobodyDisturbed(s, slot, b);
        return;
      }
      var i := r.value;
      NotLocked(s, slot0, |disk|, i, b);
      Lock(i);
      Load(i);
      ValidFacts();
      ObtainSlots(s, slot0, slot, |disk|, i, b);
      ObtainDisturbsNobody(s, slot0, bufs[..], slot, |disk|, i, b);
      HoldingMore(s, slot0, bufs[..], slot, |disk|, i, b);
    }

    /** brelse. */
    method Brelse(i: nat, ghost b: nat)
      requires Valid() && Held(i, b) && (b in pinned || bufs[i].data == disk[b])
      modifies this`last, this`users, this`order, bufs
      ensures Valid() && HoldersUndisturbed(b)
      ensures b < |old(last)| && last == old(last)[b := old(bufs[i].data)]
      ensures LockedSet() == old(LockedSet()) - {b} && Holding() == old(Holding()) - {b}
      ensures bufs[i].refcnt == old(bufs[i].refcnt) - 1
      ensures bufs[i].refcnt > 0 ==> order == old(order)
      ensures bufs[i].refcnt == 0 ==>
                exists k :: 0 <= k < |old(order)| && old(order)[k] == i && order == Front(old(order), k)
    {
      hide HoldingIn;
      ghost var s := bufs[..];
      Unlock(i, b);
      Unref(i);
      HoldingOne(s, slot, bufs[..], |disk|, i, b, s[i].(locked := false, refcnt := s[i].refcnt - 1));
    }

    /** A held block is rewritten, on disk as well, and released. */
    method Replace(i: nat, ghost b: nat, data: Block)
      requires Valid() && Held(i, b)
      modifies this`disk, this`history, this`last, this`users, this`order, bufs
      ensures Valid() && LockedSet() == old(LockedSet()) - {b} && b < |old(disk)| && b < |old(last)|
      ensures Holding() == old(Holding()) - {b}
      ensures disk == old(disk)[b := data] && last == old(last)[b := data] && history == old(history) + [disk]
    {
      hide Ring, Coherent, LockedIn, Undisturbed, HoldingIn;
      WriteThrough(i, b, data);
      Brelse(i, b);
    }

    /** Two breads in a row, of distinct blocks. */
    method BreadTwo(a: nat, b: nat) returns (ok: bool, i: nat, j: nat)
      requires Valid() && a < |disk| && b < |disk| && a != b && a !in LockedSet() && b !in LockedSet()
      modifies this`slot, this`users, bufs
      ensures Valid() && |last| == |disk| && (!ok ==> Exhausted())
      ensures ok ==> i < NBUF && j < NBUF && bufs.Length == NBUF + 1
      ensures ok ==> Held(i, a) && bufs[i].data == last[a] && Held(j, b) && bufs[j].data == last[b]
      ensures ok ==> i != j && LockedSet() == old(LockedSet()) + {a, b}
      ensures ok ==> Holding() == old(Holding())[a := (i, last[a])][b := (j, last[b])]
    {
      hide Ring, Counted, BlockOk, LockedIn, HoldingIn;
      ok, i, j := false, 0, 0;
      var r := Bread(a);
      if r.None? { return; }
      i := r.value;
      r := Bread(b);
      if r.None? { return; }
      ok, j := true, r.value;
    }

    /** Two brelses in a row. */
    method BrelseTwo(i: nat, ghost a: nat, j: nat, ghost b: nat)
      requires Valid() && Held(i, a) && Held(j, b) && a != b
      requires (a in pinned || bufs[i].data == disk[a]) && (b in pinned || bufs[j].data == disk[b])
      modifies this`last, this`users, this`order, bufs
      ensures Valid() && LockedSet() == old(LockedSet()) - {a, b} && a < |old(last)| && b < |old(last)|
      ensures last == old(last)[a := old(bufs[i].data)][b := old(bufs[j].data)]
      ensures Holding() == old(Holding()) - {a, b}
    {
      hide Ring, Counted, BlockOk, LockedIn, HoldingIn;
      Brelse(i, a);
      Brelse(j, b);
    }

    /** memmove into a held buffer, then bwrite. */
    method WriteThrough(i: nat, ghost b: nat, data: Block)
      requires Valid() && Held(i, b)
      modifies this`disk, this`history, bufs
      ensures Valid() && Held(i, b) && bufs[i].data == data && HoldersUndisturbed(b)
      ensures LockedSet() == old(LockedSet()) && Holding() == old(Holding())[b := (i, data)]
      ensures b < |old(disk)| && disk == old(disk)[b := data] && history == old(history) + [disk]
    {
      hide HoldingIn;
      ghost var s := bufs[..];
      Store(i, b, data);
      HoldingOne(s, slot, bufs[..], |disk|, i, b, s[i].(data := data));
      Bwrite(i, b);
    }

    /** The held block a is copied to the held block b, which is written and perhaps unpinned; both are released. */
    method CopyThrough(from: nat, ghost a: nat, to: nat, ghost b: nat, unpin: bool)
      requires Valid() && Held(from, a) && Held(to, b) && a != b && from != to
      requires (unpin ==> b in pinned) && (a in pinned || (a < |disk| && bufs[from].data == disk[a]))
      modifies this`disk, this`history, this`last, this`users, this`order, this`pinned, bufs
      ensures Valid() && LockedSet() == old(LockedSet()) - {a, b}
      ensures from < old(bufs.Length) && b < |old(disk)| && a < |old(last)| && b < |old(last)|
      ensures var data := old(bufs[from].data);
              disk == old(disk)[b := data] && last == old(last)[a := data][b := data]
                && history == old(history) + [disk]
      ensures pinned == if unpin then old(pinned) - {b} else old(pinned)
      ensures Holding() == old(Holding()) - {a, b}
    {
      hide Ring, Coherent, LockedIn, HoldingIn;
      WriteThrough(to, b, bufs[from].data);
      if unpin {
        Bunpin(to, b);
      }
      BrelseTwo(from, a, to, b);
    }

    /** An unlocked, unpinned block is the same on disk and in the plain block map. */
    lemma CleanOnDisk(b: nat)
      requires Valid() && b < |disk| && b !in pinned && b !in LockedSet()
      ensures |last| == |disk| && disk[b] == last[b]
    {
      assert BlockOk(bufs[..], slot, disk, last, pinned, b);
    }
  }
}
