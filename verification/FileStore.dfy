/**
  fs.c below directories: the block allocator, bmap, readi, writei and itrunc over the free map,
  the inodes and the blocks, and filewrite on top, with the blocks each operation logs.
 */
module FileStore {
  import opened Basics
  import opened DiskBlocks
  import opened FileBlocks

  function Min(a: nat, b: nat): nat { if a < b then a else b }

  function BitBlock(bmapstart: nat, b: nat): nat { bmapstart + b / BPB }

  /** The blocks logged for taking the blocks of `F`: themselves, zeroed, and their blocks of the free map. */
  ghost function TakingLogs(bmapstart: nat, F: set<nat>): set<nat> { F + BitBlocks(bmapstart, F) }

  ghost function BitBlocks(bmapstart: nat, F: set<nat>): set<nat> { set b | b in F :: BitBlock(bmapstart, b) }

  lemma TakingNone(bmapstart: nat)
    ensures TakingLogs(bmapstart, {}) == {}
  {
  }

  lemma TakingJoin(bmapstart: nat, F: set<nat>, G: set<nat>)
    ensures TakingLogs(bmapstart, F + G) == TakingLogs(bmapstart, F) + TakingLogs(bmapstart, G)
  {
  }

  function Max(a: nat, b: nat): nat { if a > b then a else b }

  /** How many blocks the bytes [off, off+n) touch. */
  function Span(off: nat, n: nat): nat { if n == 0 then 0 else (off + n - 1) / BSIZE - off / BSIZE + 1 }

  ghost function BlocksOf(v: seq<nat>, lo: nat, hi: nat): set<nat> { set k: nat | lo <= k < hi && k < |v| :: v[k] }

  ghost predicate NewEntry(v: seq<nat>, v': seq<nat>) {
    exists k: nat :: NDIRECT <= k < |v| && k < |v'| && v[k] == 0 && v'[k] != 0
  }

  /**
    The blocks logged while blocks k0 .. k0+c of a file are written: those blocks, whatever was
    taken for them with its bits of the free map, and the indirect block `t` if it got an entry.
   */
  ghost function Trail(bmapstart: nat, owner: Owners, owner': Owners, v: seq<nat>, v': seq<nat>, t: nat, k0: nat,
                       c: nat): set<nat> {
    TakingLogs(bmapstart, Fresh(owner, owner')) + BlocksOf(v', k0, k0 + c) + if NewEntry(v, v') then {t} else {}
  }

  /** What was taken: the indirect block and blocks written, but not the first when it was there already (`u` is 1). */
  ghost predicate TrailOk(owner: Owners, owner': Owners, v: seq<nat>, v': seq<nat>, t: nat, k0: nat, c: nat, u: nat) {
    && |v'| == |v| && Grown(owner, owner') && Fresh(owner, owner') <= BlocksOf(v', k0 + u, k0 + c) + {t}
    && (t == 0 ==> forall k: nat :: NDIRECT <= k < |v'| ==> v'[k] == 0)
    && (forall k: nat :: k < |v| && v[k] != 0 ==> v'[k] == v[k]) && (c > 0 ==> u <= c)
  }

  /** What one round of writei logs: blocks taken with their bits, the indirect block if it got an entry, the block. */
  ghost function ChunkLogs(bmapstart: nat, owner: Owners, owner': Owners, v: seq<nat>, t: nat, bn: nat,
                           a: nat): set<nat>
  {
    TakingLogs(bmapstart, Fresh(owner, owner')) + (if NDIRECT <= bn < |v| && v[bn] == 0 && a != 0 then {t} else {})
    + if a != 0 then {a} else {}
  }

  function Unaligned(off: nat): nat { if off % BSIZE != 0 then 1 else 0 }

  /** Inside a write: `s` has gone to file `i` at `off0`; its size is not yet set; nobody else is disturbed. */
  ghost predicate Doing(disk: Disk, I: Inodes, V: Views, disk': Disk, I': Inodes, V': Views, i: nat, off0: nat,
                        s: seq<byte>) {
    && i in I && i in V && i in I' && i in V' && I'[i].size == I[i].size && OthersKept(disk, I, V, disk', I', V', i)
    && Written(disk', V'[i], off0, s) && BytesKept(disk, V[i], disk', V'[i], off0, off0 + |s|)
  }

  ghost predicate Trailing(bmapstart: nat, L: set<nat>, L': set<nat>, owner: Owners, owner': Owners, v: seq<nat>,
                           v': seq<nat>, t: nat,
                           k0: nat, c: nat, u: nat)
  {
    L' == L + Trail(bmapstart, owner, owner', v, v', t, k0, c) && TrailOk(owner, owner', v, v', t, k0, c, u)
  }

  /** After `tot` bytes of `n` from `off0`, `c` blocks are done; every round but the last ends a block. */
  predicate Lap(off0: nat, tot: nat, n: nat, c: nat) {
    if tot == 0 then c == 0
    else Blocks(off0 + tot) == off0 / BSIZE + c && c > 0 && (tot < n ==> (off0 + tot) % BSIZE == 0)
  }

  /** `c` of length `size` is `c0` with `s` laid over it at `off`; nothing has happened yet when `s` is empty. */
  ghost predicate SoFar(c0: seq<byte>, c: seq<byte>, size: nat, off: nat, s: seq<byte>) {
    |c| == size && if s == [] then c == c0 else off <= |c0| && c == Splice(c0, off, s)
  }

  /**
    Only blocks of `L` differ: a data block outside `L` holds what it held, and so does a byte of
    the free map whose block is outside `L`.
   */
  ghost predicate OnlyLogged(disk: Disk, bitmap: seq<bv8>, disk': Disk, bitmap': seq<bv8>, bmapstart: nat,
                             L: set<nat>) {
    && disk'.Keys == disk.Keys && |bitmap'| == |bitmap|
    && (forall b :: b in disk && b !in L ==> disk'[b] == disk[b])
    && (forall k: nat :: k < |bitmap| && ByteBlock(bmapstart, k) !in L ==> bitmap'[k] == bitmap[k])
  }

  /** The block that byte `k` of the free map is in. */
  function ByteBlock(bmapstart: nat, k: nat): nat { bmapstart + k / BSIZE }

  /** What is not logged belongs to a file only if it did, and metadata stays metadata. */
  ghost predicate OwnersKept(owner: Owners, owner': Owners, L: set<nat>) {
    && (forall b :: b in owner' && !owner'[b].Meta? && b !in L ==> b in owner && !owner[b].Meta?)
    && (forall b :: b in owner && owner[b].Meta? ==> b in owner' && owner'[b].Meta?)
    && (forall b :: b in owner' && owner'[b].Meta? ==> b in owner && owner[b].Meta?)
  }

  /** The whole of the files at one moment. */
  datatype Snap = Snap(size: nat, bmapstart: nat, inodestart: nat, disk: Disk, bitmap: seq<bv8>, inodes: Inodes,
                       owner: Owners, V: Views)
  {
    ghost predicate Ok() {
      Owned(owner, disk, inodes, V) && BitsOk(bitmap, owner, size) && forall b: nat :: b < size ==> b in disk
    }

    function InodeBlock(i: nat): nat { inodestart + i / IPB }
  }

  /** From `S` to `S'`, nothing has changed that is not in a block of `L`. */
  ghost predicate Step(S: Snap, S': Snap, L: set<nat>) {
    && S'.size == S.size && S'.bmapstart == S.bmapstart && S'.inodestart == S.inodestart
    && OnlyLogged(S.disk, S.bitmap, S'.disk, S'.bitmap, S.bmapstart, L) && OwnersKept(S.owner, S'.owner, L)
    && S'.inodes.Keys == S.inodes.Keys
    && (forall j :: j in S.inodes && S.InodeBlock(j) !in L ==> S'.inodes[j] == S.inodes[j])
  }

  /** File `i` holds what it held with `s` laid over it at `off`, up to its new size. */
  ghost predicate Laid(S: Snap, S': Snap, i: nat, off: nat, s: seq<byte>) {
    && i in S.inodes && i in S.V && i in S'.inodes && i in S'.V && off <= S.inodes[i].size
    && var c := Splice(Content(S.disk, S.V[i], S.inodes[i].size), off, s);
       S'.inodes[i].size <= |c| && Content(S'.disk, S'.V[i], S'.inodes[i].size) == c[..S'.inodes[i].size]
  }

  /** No block below `size` is free. */
  predicate NoneFree(owner: Owners, size: nat) { forall b: nat :: b < size ==> b in owner }

  /**
    Why a write of `n` bytes from `off0` may stop at `newoff` other than for want of blocks: it starts
    past the end; or it would pass the largest file, and less than one operation fits; or the source
    ends, and less than a block of it is left.
   */
  predicate Stopped(size0: nat, off0: nat, n: nat, readable: nat, newoff: nat) {
    || off0 > size0
    || (off0 + n > MAXFILE * BSIZE && newoff + 3 * BSIZE > MAXFILE * BSIZE)
    || (readable < n && off0 + readable < newoff + BSIZE)
  }

  /** From `S` to `S'` in operations, each of which logs no more than its reservation and changes nothing else. */
  ghost predicate InOps(S: Snap, S': Snap, snaps: seq<Snap>, ops: seq<set<nat>>) {
    && |snaps| == |ops| + 1 && snaps[0] == S && snaps[|ops|] == S'
    && forall i: nat :: i < |ops| ==> |ops[i]| <= MAXOPBLOCKS && Step(snaps[i], snaps[i + 1], ops[i])
  }

  lemma NoOps(S: Snap)
    ensures InOps(S, S, [S], [])
  {
  }

  lemma OneOpMore(S: Snap, S1: Snap, S2: Snap, snaps: seq<Snap>, ops: seq<set<nat>>, L: set<nat>)
    requires InOps(S, S1, snaps, ops) && Step(S1, S2, L) && |L| <= MAXOPBLOCKS
    ensures InOps(S, S2, snaps + [S2], ops + [L])
  {
    hide Step;
  }

  /** As far as `s` the file holds what it held and then `s`, and no other file has changed. */
  ghost predicate Grew(S0: Snap, S: Snap, i: nat, off: nat, s: seq<byte>) {
    && i in S0.inodes && i in S0.V && i in S.inodes && i in S.V
    && OthersKept(S0.disk, S0.inodes, S0.V, S.disk, S.inodes, S.V, i)
    && (s != [] ==>
          var c, c0 := Content(S.disk, S.V[i], S.inodes[i].size), Content(S0.disk, S0.V[i], S0.inodes[i].size);
          && off <= |c0| && off + |s| <= S.inodes[i].size && off + |s| <= |c| && |c0| == S0.inodes[i].size
          && c[..off + |s|] == c0[..off] + s)
  }

  lemma ProgressFile(S0: Snap, S: Snap, i: nat, off: nat, s: seq<byte>)
    requires Progress(S0, S, i, off, s)
    ensures i in S0.inodes && i in S0.V && i in S.inodes && i in S.V
  {
  }

  /** Sizes after `at` bytes of a write from `off0`. */
  predicate Underway(size0: nat, size: nat, off0: nat, at: nat) {
    if at == 0 then size == size0 else off0 + at <= size && off0 + at <= MAXFILE * BSIZE && off0 <= size0
  }

  lemma UnderwayFrom(size0: nat, off0: nat)
    ensures Underway(size0, size0, off0, 0)
  {
  }

  lemma UnderwayTo(size0: nat, size: nat, off0: nat, n: nat)
    requires Underway(size0, size, off0, n)
    ensures n > 0 ==> off0 + n <= MAXFILE * BSIZE && off0 <= size0
  {
  }

  /** One operation more: either all `n1` bytes of it went in, or there was a reason. */
  lemma UnderwayMore(size0: nat, size: nat, off0: nat, at: nat, n: nat, n1: nat, readable: nat, r: int, done: nat)
    requires Underway(size0, size, off0, at) && at <= readable <= n && 0 < n1 <= n - at && n1 <= 3 * BSIZE
    requires r == -1 <==> off0 + at > size || off0 + at + n1 >= UINT || off0 + at + n1 > MAXFILE * BSIZE
    requires r != -1 ==>
               && 0 <= r <= done <= n1 && done <= Min(n1, readable - at) && done < r + BSIZE
               && (Min(n1, readable - at) == n1 ==> done == r)
    ensures r == -1 ==> Stopped(size0, off0, n, readable, off0 + at)
    ensures r != -1 && r < n1 && done == Min(n1, readable - at) ==> Stopped(size0, off0, n, readable, off0 + at + r)
    ensures r == n1 ==> Underway(size0, Max(size, off0 + at + r), off0, at + r)
  {
  }

  /** Between S0 and S, exactly `s` has been laid over file `i` from `off`, and no other file has changed. */
  ghost predicate Progress(S0: Snap, S: Snap, i: nat, off: nat, s: seq<byte>) {
    && i in S0.inodes && i in S0.V && i in S.inodes && i in S.V
    && OthersKept(S0.disk, S0.inodes, S0.V, S.disk, S.inodes, S.V, i)
    && SoFar(Content(S0.disk, S0.V[i], S0.inodes[i].size), Content(S.disk, S.V[i], S.inodes[i].size), S.inodes[i].size,
             off, s)
  }

  /** Between S0 and S, file `i` came to hold `s` from `off`, with what it held before in front of it. */
  ghost predicate Reached(S0: Snap, S: Snap, i: nat, off: nat, s: seq<byte>) {
    && i in S0.inodes && i in S0.V && i in S.inodes && i in S.V
    && OthersKept(S0.disk, S0.inodes, S0.V, S.disk, S.inodes, S.V, i)
    && var c, c0 := Content(S.disk, S.V[i], S.inodes[i].size), Content(S0.disk, S0.V[i], S0.inodes[i].size);
       off <= |c0| && off + |s| <= |c| && c[..off + |s|] == c0[..off] + s
  }

  class Store {
    const size: nat       // sb.size
    const bmapstart: nat  // sb.bmapstart
    const inodestart: nat // sb.inodestart
    var disk: Disk
    var bitmap: seq<bv8>
    var inodes: Inodes
    ghost var owner: Owners
    ghost var V: Views
    ghost var logged: set<nat> // the blocks log_write has been called on

    ghost predicate Valid()
      reads this
    {
      && Owned(owner, disk, inodes, V) && BitsOk(bitmap, owner, size)
      && (forall b: nat :: b < size ==> b in disk)
    }

    function InodeBlock(i: nat): nat { inodestart + i / IPB }

    ghost function Snapshot(): Snap
      reads this
    {
      Snap(size, bmapstart, inodestart, disk, bitmap, inodes, owner, V)
    }

    /** A new file system on `blank`: `meta` blocks in use, and every inode empty. */
    constructor (size: nat, meta: nat, bmapstart: nat, inodestart: nat, inums: set<nat>, blank: Disk)
      requires 0 < meta <= size <= UINT && forall b: nat :: b < size ==> b in blank
      ensures Valid() && inodes.Keys == inums
      ensures this.size == size && this.bmapstart == bmapstart && this.inodestart == inodestart
      ensures forall i :: i in inodes ==> inodes[i].size == 0
      ensures |bitmap| == size / 8 + 1 && forall b: nat :: if b < meta then IsMeta(owner, b) else b !in owner
    {
      this.size, this.bmapstart, this.inodestart := size, bmapstart, inodestart;
      disk := blank;
      inodes := map i | i in inums :: Inode(0, NoAddrs());
      V := map i | i in inums :: NoBlocks();
      bitmap := seq(size / 8 + 1, _ => 0);
      owner := map[];
      logged := {};
      new;
      hide IsSet, BitsOk, NoAddrs, NoBlocks, Owned;
      ZeroBits(bitmap, size);
      MarkMeta(meta);
      EmptyFiles(owner, disk, inodes, V);
    }

    /** The free map of a new file system: the first `meta` blocks are taken. */
    method MarkMeta(meta: nat)
      requires BitsOk(bitmap, owner, size) && owner == map[] && meta <= size
      modifies this`bitmap, this`owner
      ensures BitsOk(bitmap, owner, size) && |bitmap| == |old(bitmap)|
      ensures (forall b: nat :: b in owner <==> b < meta) && forall b :: b in owner ==> owner[b] == Meta
    {
      hide IsSet, Mark, BitsOk;
      var b := 0;
      while b < meta
        invariant 0 <= b <= meta && BitsOk(bitmap, owner, size) && |bitmap| == |old(bitmap)|
        invariant forall c :: c in owner ==> owner[c] == Meta
        invariant forall c: nat :: c in owner <==> c < b
      {
        MarkedOk(bitmap, owner, size, b, Meta);
        InRange(bitmap, owner, size, b);
        SameLength(bitmap, b);
        bitmap := Mark(bitmap, b);
        owner := owner[b := Meta];
        b := b + 1;
      }
    }

    /** balloc: the first free block, marked, zeroed and logged with its block of the free map; 0 when there is none. */
    method Balloc(ghost o: Owner) returns (a: nat)
      requires BitsOk(bitmap, owner, size) && 0 in owner && forall b: nat :: b < size ==> b in disk
      modifies this`disk, this`bitmap, this`owner, this`logged
      ensures BitsOk(bitmap, owner, size) && forall b: nat :: b < size ==> b in disk
      ensures a == 0 ==>
                && disk == old(disk) && bitmap == old(bitmap) && owner == old(owner) && logged == old(logged)
                && NoneFree(owner, size)
      ensures a != 0 ==>
                && a < size && a < UINT && a !in old(owner) && (forall b: nat :: b < a ==> b in old(owner))
                && owner == old(owner)[a := o] && disk == old(disk)[a := Zeros()] && bitmap == Mark(old(bitmap), a)
                && logged == old(logged) + {BitBlock(bmapstart, a), a}
      ensures OnlyLogged(old(disk), old(bitmap), disk, bitmap, bmapstart, logged)
    {
      hide IsSet, Mark, OnlyLogged;
      OnlySame(disk, bitmap, bmapstart, logged);
      var b := 0;
      while b < size
        invariant b % BPB == 0
        invariant forall c: nat :: c < b && c < size ==> c in owner
      {
        var bi := 0;
        while bi < BPB && b + bi < size
          invariant 0 <= bi <= BPB
          invariant forall c: nat :: c < b + bi && c < size ==> c in owner
        {
          assert IsSet(bitmap, b + bi) <==> b + bi in owner;
          if !IsSet(bitmap, b + bi) {
            a := b + bi;
            MarkedOk(bitmap, owner, size, a, o);
            OnlyTaken(disk, bitmap, a, bmapstart, logged + {BitBlock(bmapstart, a), a});
            bitmap := Mark(bitmap, a);
            disk := disk[a := Zeros()];
            owner := owner[a := o];
            logged := logged + {BitBlock(bmapstart, a), a};
            return;
          }
          bi := bi + 1;
        }
        b := b + BPB;
      }
      a := 0;
    }

    /** bmap of a direct slot that is empty. */
    method MapDirect(i: nat, bn: nat) returns (a: nat)
      requires Valid() && i in inodes && bn < NDIRECT && V[i][bn] == 0
      modifies this
      ensures Valid() && OthersKept(old(disk), old(inodes), old(V), disk, inodes, V, i)
      ensures i in inodes && i in V && inodes[i].size == old(inodes)[i].size
      ensures Mapped(old(owner), old(disk), old(V)[i], IndirectOf(old(inodes)[i]), owner, disk, V[i],
                     IndirectOf(inodes[i]), bn, a)
      ensures a == 0 ==> NoneFree(owner, size)
      ensures logged == old(logged) + TakingLogs(bmapstart, Fresh(old(owner), owner))
      ensures OnlyLogged(old(disk), old(bitmap), disk, bitmap, bmapstart, logged)
    {
      hide Owned, BitsOk, OthersKept, InodeOk, Zeros, Mapped, OnlyLogged;
      ghost var owner0, disk0 := owner, disk;
      InodeFacts(owner, disk, inodes, V, i);
      a := Balloc(Data(i, bn));
      if a == 0 {
        OthersSame(owner, disk, inodes, V, i);
        MappedNothing(owner, disk, inodes, V, i, bn);
        return;
      }
      WriteBlock(owner0, disk0, inodes, V, a, Zeros(), i);
      var ino := inodes[i].(addrs := With(inodes[i].addrs, bn, a));
      DirectTaken(owner0, disk, inodes, V, i, bn, a);
      TakeData(owner0, disk, inodes, V, i, bn, a, disk, ino);
      MappedNew(owner0, disk0, inodes, V, i, bn, a, disk);
      OthersTrans(disk0, inodes, V, disk, inodes, V, disk, inodes[i := ino], V[i := With(V[i], bn, a)], i);
      FreshOne(owner0, a, Data(i, bn));
      inodes, V := inodes[i := ino], V[i := With(V[i], bn, a)];
    }

    /** bmap finds or makes the indirect block. */
    method LoadTable(i: nat) returns (t: nat)
      requires Valid() && i in inodes
      modifies this
      ensures Valid() && OthersKept(old(disk), old(inodes), old(V), disk, inodes, V, i)
      ensures i in inodes && i in V && inodes[i].size == old(inodes)[i].size
      ensures V == old(V) && t == IndirectOf(inodes[i]) && Grown(old(owner), owner)
      ensures OwnKept(old(disk), V[i], disk, V[i], MAXFILE)
      ensures t == 0 ==> NoneFree(owner, size)
      ensures IndirectOf(old(inodes)[i]) != 0 ==>
                t == IndirectOf(old(inodes)[i]) && owner == old(owner) && disk == old(disk) && inodes == old(inodes)
                  && bitmap == old(bitmap)
      ensures Fresh(old(owner), owner) == if IndirectOf(old(inodes)[i]) == 0 && t != 0 then {t} else {}
      ensures logged == old(logged) + TakingLogs(bmapstart, Fresh(old(owner), owner))
      ensures OnlyLogged(old(disk), old(bitmap), disk, bitmap, bmapstart, logged)
    {
      hide Owned, BitsOk, OthersKept, InodeOk, Zeros, OnlyLogged;
      ghost var owner0, disk0 := owner, disk;
      OnlySame(disk, bitmap, bmapstart, logged);
      InodeFacts(owner, disk, inodes, V, i);
      OwnSame(owner, disk, inodes, V, i, MAXFILE);
      OthersSame(owner, disk, inodes, V, i);
      t := inodes[i].addrs[NDIRECT];
      if t == 0 {
        t := Balloc(Table(i));
        if t == 0 {
          return;
        }
        WriteBlock(owner0, disk0, inodes, V, t, Zeros(), i);
        TakeTable(owner0, disk, inodes, V, i, t);
        var ino := inodes[i].(addrs := With(inodes[i].addrs, NDIRECT, t));
        OthersTrans(disk0, inodes, V, disk, inodes, V, disk, inodes[i := ino], V, i);
        FreshOne(owner0, t, Table(i));
        inodes := inodes[i := ino];
      }
    }

    /** bmap of an entry of the indirect block. */
    method MapEntry(i: nat, bn: nat) returns (a: nat)
      requires Valid() && i in inodes && NDIRECT <= bn < MAXFILE && IndirectOf(inodes[i]) != 0
      modifies this
      ensures Valid() && OthersKept(old(disk), old(inodes), old(V), disk, inodes, V, i) && inodes == old(inodes)
      ensures i in V && (old(V)[i][bn] != 0 ==> bitmap == old(bitmap) && V == old(V))
      ensures Mapped(old(owner), old(disk), old(V)[i], IndirectOf(inodes[i]), owner, disk, V[i], IndirectOf(inodes[i]),
                     bn, a)
      ensures a == 0 ==> NoneFree(owner, size)
      ensures logged == old(logged) + TakingLogs(bmapstart, Fresh(old(owner), owner))
                      + if old(V)[i][bn] == 0 && a != 0 then {IndirectOf(inodes[i])} else {}
      ensures OnlyLogged(old(disk), old(bitmap), disk, bitmap, bmapstart, logged)
    {
      hide Owned, BitsOk, OthersKept, InodeOk, Zeros, Mapped, Entry, SetEntry, OnlyLogged;
      ghost var owner0, disk0, bitmap0 := owner, disk, bitmap;
      OnlySame(disk, bitmap, bmapstart, logged);
      InodeFacts(owner, disk, inodes, V, i);
      OthersSame(owner, disk, inodes, V, i);
      var t := inodes[i].addrs[NDIRECT];
      a := Entry(disk[t], bn - NDIRECT);
      if a != 0 {
        MappedAlready(owner, disk, inodes, V, i, bn);
        return;
      }
      a := Balloc(Data(i, bn));
      if a == 0 {
        MappedNothing(owner, disk, inodes, V, i, bn);
        return;
      }
      ghost var disk1 := disk;
      WriteBlock(owner0, disk0, inodes, V, a, Zeros(), i);
      assert t in owner0;
      OnlyMore(disk0, bitmap0, disk, bitmap, bmapstart, logged, t, SetEntry(disk[t], bn - NDIRECT, a));
      disk := disk[t := SetEntry(disk[t], bn - NDIRECT, a)];
      EntryTaken(owner0, disk1, inodes, V, i, bn, a, disk);
      TakeData(owner0, disk1, inodes, V, i, bn, a, disk, inodes[i]);
      assert inodes[i := inodes[i]] == inodes;
      MappedNew(owner0, disk0, inodes, V, i, bn, a, disk);
      OthersTrans(disk0, inodes, V, disk1, inodes, V, disk, inodes, V[i := With(V[i], bn, a)], i);
      FreshOne(owner0, a, Data(i, bn));
      V := V[i := With(V[i], bn, a)];
      logged := logged + {t};
    }

    /** bmap: the address of block `bn` of file `i`, made if need be; 0 when the disk is full. */
    method Bmap(i: nat, bn: nat) returns (a: nat)
      requires Valid() && i in inodes && bn < MAXFILE
      modifies this
      ensures Valid() && OthersKept(old(disk), old(inodes), old(V), disk, inodes, V, i)
      ensures i in inodes && i in V && inodes[i].size == old(inodes)[i].size
      ensures Mapped(old(owner), old(disk), old(V)[i], IndirectOf(old(inodes)[i]), owner, disk, V[i],
                     IndirectOf(inodes[i]), bn, a)
      ensures a == 0 ==> NoneFree(owner, size)
      ensures old(V)[i][bn] != 0 ==> bitmap == old(bitmap) && inodes == old(inodes) && V == old(V)
      ensures logged == old(logged) + TakingLogs(bmapstart, Fresh(old(owner), owner))
                      + if bn >= NDIRECT && old(V)[i][bn] == 0 && a != 0 then {IndirectOf(inodes[i])} else {}
      ensures OnlyLogged(old(disk), old(bitmap), disk, bitmap, bmapstart, logged)
    {
      hide Owned, BitsOk, OthersKept, InodeOk, Zeros, Mapped, Stored, FileOk, NoHoles, Grown, OwnKept, Fresh,
        TakingLogs,
        OnlyLogged;
      OnlySame(disk, bitmap, bmapstart, logged);
      InodeFacts(owner, disk, inodes, V, i);
      SlotFacts(disk, inodes[i], V[i], bn);
      OthersSame(owner, disk, inodes, V, i);
      if bn < NDIRECT {
        a := inodes[i].addrs[bn];
        if a == 0 {
          a := MapDirect(i, bn);
          return;
        }
        MappedAlready(owner, disk, inodes, V, i, bn);
        FreshNone(owner);
        TakingNone(bmapstart);
        return;
      }
      ghost var owner0, disk0, I0, V0, bitmap0 := owner, disk, inodes, V, bitmap;
      var t := LoadTable(i);
      if t == 0 {
        TableFull(owner0, disk0, disk, V[i], bn, owner);
        return 0;
      }
      ghost var owner1, disk1, I1, bitmap1, L1 := owner, disk, inodes, bitmap, logged;
      a := MapEntry(i, bn);
      OnlyTrans(disk0, bitmap0, disk1, bitmap1, disk, bitmap, bmapstart, L1, logged);
      TableThenEntry(owner0, disk0, V0[i], IndirectOf(I0[i]), owner1, disk1, owner, disk, V[i], t, bn, a);
      OthersTrans(disk0, I0, V0, disk1, I1, V0, disk, inodes, V, i);
      TakingJoin(bmapstart, Fresh(owner0, owner1), Fresh(owner1, owner));
    }

    /** One round of writei: find the block, copy `piece` into it, log it. */
    method PutChunk(i: nat, off: nat, piece: seq<byte>) returns (a: nat)
      requires Valid() && i in inodes && off / BSIZE < MAXFILE && off % BSIZE + |piece| <= BSIZE
      modifies this
      ensures Valid() && OthersKept(old(disk), old(inodes), old(V), disk, inodes, V, i)
      ensures i in inodes && i in V && inodes[i].size == old(inodes)[i].size
      ensures Extended(old(owner), old(V)[i], IndirectOf(old(inodes)[i]), owner, V[i], IndirectOf(inodes[i]),
                       off / BSIZE, a)
      ensures a == 0 ==>
                NoneFree(owner, size) && BytesKept(old(disk), old(V)[i], disk, V[i], off, off)
      ensures a != 0 ==>
                Written(disk, V[i], off, piece) && BytesKept(old(disk), old(V)[i], disk, V[i], off, off + |piece|)
      ensures logged == old(logged) + ChunkLogs(bmapstart, old(owner), owner, old(V)[i], IndirectOf(inodes[i]),
                                                off / BSIZE, a)
      ensures OnlyLogged(old(disk), old(bitmap), disk, bitmap, bmapstart, logged)
    {
      hide Owned, BitsOk, OthersKept, Extended, Mapped, Fresh, TakingLogs, Zeros, Patch, Written, BytesKept, InodeOk,
        OnlyLogged;
      ghost var owner0, disk0, I0, V0, bitmap0 := owner, disk, inodes, V, bitmap;
      InodeFacts(owner, disk, inodes, V, i);
      a := Bmap(i, off / BSIZE);
      InodeFacts(owner, disk, inodes, V, i);
      if a == 0 {
        NothingWritten(owner0, disk0, V0[i], IndirectOf(I0[i]), owner, disk, V[i], IndirectOf(inodes[i]), off);
        return;
      }
      ghost var disk1 := disk;
      AddressFacts(owner0, disk0, I0, V0, i, owner, disk, inodes, V, off / BSIZE, a);
      ChunkWritten(disk0, V0[i], disk, V[i], off, piece, a);
      WriteBlock(owner, disk, inodes, V, a, Patch(disk[a], off % BSIZE, piece), i);
      OnlyMore(disk0, bitmap0, disk, bitmap, bmapstart, logged, a, Patch(disk[a], off % BSIZE, piece));
      disk := disk[a := Patch(disk[a], off % BSIZE, piece)];
      OthersTrans(disk0, I0, V0, disk1, inodes, V, disk, inodes, V, i);
      logged := logged + {a};
    }

    /** The loop of writei; it stops early when the disk is full or the source cannot be read. */
    method WriteLoop(i: nat, off0: nat, src: seq<byte>, readable: nat) returns (tot: nat, ghost done: nat, ghost c: nat)
      requires Valid() && i in inodes && readable <= |src| && off0 <= inodes[i].size && off0 + |src| <= MAXFILE * BSIZE
      modifies this
      ensures Valid() && tot <= done <= |src| && done <= readable && (readable == |src| ==> done == tot)
      ensures done < tot + BSIZE
      ensures Doing(old(disk), old(inodes), old(V), disk, inodes, V, i, off0, src[..done])
      ensures tot < |src| ==> done == readable || NoneFree(owner, size)
      ensures c <= Span(off0, |src|) && (tot == |src| ==> c == Span(off0, |src|))
      ensures Trailing(bmapstart, old(logged), logged, old(owner), owner, old(V)[i], V[i], IndirectOf(inodes[i]),
                       off0 / BSIZE, c, Unaligned(off0))
      ensures OnlyLogged(old(disk), old(bitmap), disk, bitmap, bmapstart, logged)
    {
      hide Owned, BitsOk, Doing, Trailing, Lap, Extended, Span, Fresh, Written, BytesKept, OthersKept, OnlyLogged,
        IndirectOf, ChunkLogs;
      ghost var owner0, disk0, I0, V0, L0, bitmap0 := owner, disk, inodes, V, logged, bitmap;
      OnlySame(disk, bitmap, bmapstart, logged);
      ghost var u, k0 := Unaligned(off0), off0 / BSIZE;
      var n := |src|;
      tot, done, c := 0, 0, 0;
      var off := off0;
      assert src[..0] == [];
      WriteiStart(owner, disk, inodes, V, i, off0, bmapstart, logged);
      FirstLap(off0, n);
      while tot < n
        invariant tot <= n && tot <= readable && off == off0 + tot && done == tot
        invariant Valid() && i in inodes && i in V && Doing(disk0, I0, V0, disk, inodes, V, i, off0, src[..done])
        invariant Lap(off0, tot, n, c) && c <= Span(off0, n)
        invariant Trailing(bmapstart, L0, logged, owner0, owner, V0[i], V[i], IndirectOf(inodes[i]), k0, c, u)
        invariant tot == n ==> c == Span(off0, n)
        invariant OnlyLogged(disk0, bitmap0, disk, bitmap, bmapstart, logged)
      {
        var m := Min(n - tot, BSIZE - off % BSIZE);
        var k := Min(m, readable - tot);
        ghost var owner1, disk1, I1, V1, L1, piece := owner, disk, inodes, V, logged, src[tot..tot + k];
        ghost var bitmap1 := bitmap;
        NextLap(off0, tot, n, c);
        FirstThere(owner0, disk0, I0, V0, i, off0, owner1, disk1, I1, V1, c, u, bmapstart, L0, L1);
        var a := PutChunk(i, off, src[tot..tot + k]);
        OnlyTrans(disk0, bitmap0, disk1, bitmap1, disk, bitmap, bmapstart, L1, logged);
        TrailingStep(bmapstart, L0, L1, logged, owner0, V0[i], owner1, V1[i], IndirectOf(I1[i]), owner, disk, inodes,
                     V, i, k0, c, u, a);
        if a == 0 {
          DoingStep(disk0, I0, V0, disk1, I1, V1, disk, inodes, V, i, off0, src[..done], []);
          NoMore(src[..done]);
          break;
        }
        DoingStep(disk0, I0, V0, disk1, I1, V1, disk, inodes, V, i, off0, src[..done], piece);
        SliceMore(src, done, done + k);
        c, done := c + 1, done + k;
        if k < m {
          break;
        }
        tot, off := tot + m, off + m;
        if tot == n { LastLap(off0, n, c); }
      }
    }

    /**
      writei: lay `src` over the file from `off0`. The first `readable` bytes of the source can be
      read; a kernel source can be read to the end. `tot` is -1 for a refused request.
     */
    method Writei(i: nat, off0: nat, src: seq<byte>, readable: nat) returns (tot: int, ghost done: nat, ghost c: nat)
      requires Valid() && i in inodes && off0 < UINT && |src| < UINT && readable <= |src|
      modifies this
      ensures Valid() && OthersKept(old(disk), old(inodes), old(V), disk, inodes, V, i) && i in inodes && i in V
      ensures tot == -1 <==> off0 > old(inodes)[i].size || off0 + |src| >= UINT || off0 + |src| > MAXFILE * BSIZE
      ensures tot == -1 ==>
                disk == old(disk) && bitmap == old(bitmap) && inodes == old(inodes) && V == old(V)
                  && owner == old(owner) && logged == old(logged)
      ensures tot != -1 ==>
                && 0 <= tot <= done <= |src| && done <= readable && done < tot + BSIZE
                && (readable == |src| ==> done == tot)
                && inodes[i].size == Max(old(inodes)[i].size, off0 + tot)
                && Laid(old(Snapshot()), Snapshot(), i, off0, src[..done])
      ensures tot != -1 && tot < |src| ==> done == readable || NoneFree(owner, size)
      ensures tot != -1 ==>
                c <= Span(off0, |src|) && (tot == |src| ==> c == Span(off0, |src|)) &&
                exists L :: logged == L + {InodeBlock(i)} &&
                            Trailing(bmapstart, old(logged), L, old(owner), owner, old(V)[i], V[i],
                                     IndirectOf(inodes[i]), off0 / BSIZE, c, Unaligned(off0))
      ensures OnlyLogged(old(disk), old(bitmap), disk, bitmap, bmapstart, logged)
      ensures tot != -1 ==> InodeBlock(i) in logged
    {
      hide Owned, BitsOk, Doing, Trailing, Span, OthersKept, Content, Splice, OnlyLogged;
      ghost var owner0, disk0, I0, V0, bitmap0 := owner, disk, inodes, V, bitmap;
      OnlySame(disk, bitmap, bmapstart, logged);
      OthersSame(owner, disk, inodes, V, i);
      TableFacts(owner, disk, inodes, V, i);
      if off0 > inodes[i].size || off0 + |src| >= UINT {
        return -1, 0, 0;
      }
      if off0 + |src| > MAXFILE * BSIZE {
        return -1, 0, 0;
      }
      tot, done, c := WriteLoop(i, off0, src, readable);
      DoingFacts(disk0, I0, V0, disk, inodes, V, i, off0, src[..done]);
      WriteiEnd(owner0, disk0, I0, V0, owner, disk, inodes, V, i, off0, src[..done], Max(inodes[i].size, off0 + tot));
      ghost var I2, L := inodes, logged;
      OnlyWider(disk0, bitmap0, disk, bitmap, bmapstart, L, L + {InodeBlock(i)});
      if off0 + tot > inodes[i].size {
        inodes := inodes[i := inodes[i].(size := off0 + tot)];
      }
      assert inodes == I2[i := I2[i].(size := Max(I2[i].size, off0 + tot))];
      SpliceLength(Content(disk0, V0[i], I0[i].size), I0[i].size, off0, src[..done]);
      logged := logged + {InodeBlock(i)};
      assert logged == L + {InodeBlock(i)};
    }

    /** One round of readi: bmap finds the block, always, and `m` bytes are copied out. */
    method GetChunk(i: nat, off: nat, m: nat) returns (there: bool, piece: seq<byte>)
      requires Valid() && i in inodes && i in V && off < inodes[i].size && off + m <= inodes[i].size
      requires off % BSIZE + m <= BSIZE
      modifies this
      ensures disk == old(disk) && bitmap == old(bitmap) && inodes == old(inodes) && V == old(V) && owner == old(owner)
      ensures logged == old(logged)
      ensures Valid() && there && piece == Content(disk, V[i], inodes[i].size)[off..off + m]
    {
      hide Owned, BitsOk, OthersKept, Mapped, Fresh, TakingLogs, Zeros, InodeOk, Stored, FileOk, NoHoles, ByteAt;
      InodeFacts(owner, disk, inodes, V, i);
      BlockThere(V[i], inodes[i].size, off);
      var addr := Bmap(i, off / BSIZE);
      AlreadyMapped(old(owner), old(disk), V[i], IndirectOf(inodes[i]), owner, disk, off / BSIZE, addr, bmapstart);
      if addr == 0 {
        return false, [];
      }
      SliceOfBlock(disk, V[i], inodes[i].size, off, m);
      return true, disk[addr][off % BSIZE..off % BSIZE + m];
    }

    /**
      readi: the file's bytes from `off0`, clipped to its size. The first `room` bytes of the
      destination can be written; -1 when that is too few. Nothing is ever allocated.
     */
    method Readi(i: nat, off0: nat, n0: nat, room: nat) returns (tot: int, data: seq<byte>)
      requires Valid() && i in inodes && off0 < UINT && n0 < UINT
      modifies this
      ensures disk == old(disk) && bitmap == old(bitmap) && inodes == old(inodes) && V == old(V) && owner == old(owner)
      ensures logged == old(logged)
      ensures Valid() && i in V
      ensures var want := if off0 > inodes[i].size || off0 + n0 >= UINT then 0 else Min(n0, inodes[i].size - off0);
              if room < want then tot == -1
              else tot == want && data == if want == 0 then [] else Content(disk, V[i],
                                                                            inodes[i].size)[off0..off0 + want]
    {
      hide Owned, BitsOk, InodeOk, Stored, FileOk, NoHoles, ByteAt;
      InodeFacts(owner, disk, inodes, V, i);
      data := [];
      if off0 > inodes[i].size || off0 + n0 >= UINT {
        return 0, [];
      }
      var n := n0;
      if off0 + n > inodes[i].size {
        n := inodes[i].size - off0;
      }
      ghost var c := Content(disk, V[i], inodes[i].size);
      var off := off0;
      tot := 0;
      while tot < n
        invariant 0 <= tot <= n && tot <= room && off == off0 + tot && data == c[off0..off]
        invariant Valid() && disk == old(disk) && bitmap == old(bitmap) && inodes == old(inodes) && V == old(V)
        invariant owner == old(owner)
        invariant logged == old(logged)
      {
        var m := Min(n - tot, BSIZE - off % BSIZE);
        var there, piece := GetChunk(i, off, m);
        if !there {
          break;
        }
        if tot + m > room {
          return -1, data;
        }
        assert c[off0..off] + c[off..off + m] == c[off0..off + m];
        data := data + piece;
        tot, off := tot + m, off + m;
      }
    }

    /** The direct blocks of itrunc; `addrs` is what is left of the inode's addresses. */
    method FreeDirect(i: nat) returns (panics: bool, addrs: seq<nat>)
      requires Valid() && i in inodes
      modifies this`bitmap, this`owner, this`logged
      ensures !panics && BitsOk(bitmap, owner, size) && owner == Released(old(owner), i, NDIRECT)
      ensures |inodes[i].addrs| == |addrs| == NDIRECT + 1 && addrs == With(NoAddrs(), NDIRECT, inodes[i].addrs[NDIRECT])
      ensures old(logged) <= logged && OnlyLogged(disk, old(bitmap), disk, bitmap, bmapstart, logged)
    {
      hide Owned, Stored, FileOk, NoHoles, InodeOk, IsSet, Clear, BitsOk, OnlyLogged;
      ghost var owner0, bitmap0, L0 := owner, bitmap, logged;
      OnlySame(disk, bitmap, bmapstart, logged);
      InodeFacts(owner, disk, inodes, V, i);
      addrs := inodes[i].addrs;
      panics := false;
      var k := 0;
      ReleasedNone(owner, i);
      while k < NDIRECT
        invariant 0 <= k <= NDIRECT && |addrs| == NDIRECT + 1 && !panics
        invariant BitsOk(bitmap, owner, size) && owner == Released(owner0, i, k)
        invariant forall m: nat :: m <= NDIRECT ==> addrs[m] == if m < k then 0 else inodes[i].addrs[m]
        invariant L0 <= logged && OnlyLogged(disk, bitmap0, disk, bitmap, bmapstart, logged)
      {
        ghost var bitmap1, L1 := bitmap, logged;
        SlotFacts(disk, inodes[i], V[i], k);
        ReleasedMore(owner0, disk, inodes, V, i, k);
        if addrs[k] != 0 {
          InUse(bitmap, owner, size, addrs[k]);
          var p := Bfree(addrs[k]);
          OnlyTrans(disk, bitmap0, disk, bitmap1, disk, bitmap, bmapstart, L1, logged);
          panics := panics || p;
          addrs := With(addrs, k, 0);
        }
        k := k + 1;
      }
    }

    /** The blocks of itrunc that the indirect block `t` lists. */
    method FreeEntries(i: nat, t: nat, ghost owner0: Owners) returns (panics: bool)
      requires Owned(owner0, disk, inodes, V) && i in inodes && BitsOk(bitmap, owner, size)
      requires t == IndirectOf(inodes[i]) != 0 && owner == Released(owner0, i, NDIRECT)
      modifies this`bitmap, this`owner, this`logged
      ensures !panics && BitsOk(bitmap, owner, size) && owner == Released(owner0, i, MAXFILE)
      ensures old(logged) <= logged && OnlyLogged(disk, old(bitmap), disk, bitmap, bmapstart, logged)
    {
      hide Owned, Stored, FileOk, NoHoles, InodeOk, IsSet, Clear, Entry, BitsOk, OnlyLogged;
      ghost var bitmap0, L0 := bitmap, logged;
      OnlySame(disk, bitmap, bmapstart, logged);
      InodeFacts(owner0, disk, inodes, V, i);
      TableThere(owner0, disk, inodes, V, i);
      panics := false;
      var k := NDIRECT;
      while k < MAXFILE
        invariant NDIRECT <= k <= MAXFILE && !panics && BitsOk(bitmap, owner, size) && owner == Released(owner0, i, k)
        invariant L0 <= logged && OnlyLogged(disk, bitmap0, disk, bitmap, bmapstart, logged)
      {
        ghost var bitmap1, L1 := bitmap, logged;
        var a := Entry(disk[t], k - NDIRECT);
        EntryFacts(disk, inodes[i], V[i], k);
        ReleasedMore(owner0, disk, inodes, V, i, k);
        if a != 0 {
          InUse(bitmap, owner, size, a);
          var p := Bfree(a);
          OnlyTrans(disk, bitmap0, disk, bitmap1, disk, bitmap, bmapstart, L1, logged);
          panics := panics || p;
        }
        k := k + 1;
      }
    }

    /** itrunc: give back every block of the file. */
    method Itrunc(i: nat) returns (panics: bool)
      requires Valid() && i in inodes
      modifies this
      ensures !panics
      ensures Valid() && OthersKept(old(disk), old(inodes), old(V), disk, inodes, V, i) && disk == old(disk)
      ensures owner == Disowned(old(owner), i) && i in inodes && i in V && inodes[i].size == 0 && V[i] == NoBlocks()
      ensures forall b: nat :: b < size ==>
                && b / 8 < |bitmap| && b / 8 < |old(bitmap)|
                && (IsSet(bitmap, b) <==> IsSet(old(bitmap), b) && !BelongsTo(old(owner), b, i))
      ensures Step(old(Snapshot()), Snapshot(), logged)
    {
      hide Owned, OthersKept, IsSet, Clear, BitsOk, BelongsTo, Disowned, Released, OnlyLogged, Step;
      ghost var S, owner0, I0, V0, bitmap0 := Snapshot(), owner, inodes, V, bitmap;
      var addrs;
      panics, addrs := FreeDirect(i);
      if addrs[NDIRECT] != 0 {
        var t := addrs[NDIRECT];
        ghost var bitmap1, L1 := bitmap, logged;
        var p := FreeEntries(i, t, owner0);
        OnlyTrans(disk, bitmap0, disk, bitmap1, disk, bitmap, bmapstart, L1, logged);
        TableThere(owner0, disk, I0, V0, i);
        InUse(bitmap, owner, size, t);
        ghost var bitmap2, L2 := bitmap, logged;
        var q := Bfree(t);
        OnlyTrans(disk, bitmap0, disk, bitmap2, disk, bitmap, bmapstart, L2, logged);
        panics := panics || p || q;
        addrs := With(addrs, NDIRECT, 0);
      }
      ReleasedAll(owner0, disk, I0, V0, i, owner, if IndirectOf(I0[i]) == 0 then NDIRECT else MAXFILE);
      assert addrs == NoAddrs();
      Truncated(owner0, disk, I0, V0, i);
      SameBits(bitmap0, owner0, bitmap, owner, size, i);
      OnlyWider(disk, bitmap0, disk, bitmap, bmapstart, logged, logged + {InodeBlock(i)});
      inodes, V := inodes[i := Inode(0, addrs)], V[i := NoBlocks()];
      logged := logged + {InodeBlock(i)};
      StepOfTruncate(S, Snapshot(), i, logged);
    }

    /**
      One operation of filewrite: a chunk of at most three blocks logs at most MAXOPBLOCKS blocks, and
      all it changes.
     */
    method WriteOp(i: nat, off: nat, chunk: seq<byte>, readable: nat) returns (r: int, ghost done: nat)
      requires Valid() && i in inodes && off < UINT && |chunk| <= 3 * BSIZE && readable <= |chunk|
      modifies this
      ensures Valid() && i in inodes && i in V && OthersKept(old(disk), old(inodes), old(V), disk, inodes, V, i)
      ensures |logged| <= MAXOPBLOCKS && Step(old(Snapshot()), Snapshot(), logged)
      ensures Tight(old(Snapshot()), i, off, |chunk|) && readable == |chunk| ==> |logged| == MAXOPBLOCKS
      ensures r == -1 <==> off > old(inodes)[i].size || off + |chunk| >= UINT || off + |chunk| > MAXFILE * BSIZE
      ensures r == -1 ==> disk == old(disk) && inodes == old(inodes) && V == old(V)
      ensures r != -1 ==>
                && 0 <= r <= done <= |chunk| && done <= readable && inodes[i].size == Max(old(inodes)[i].size, off + r)
                && Laid(old(Snapshot()), Snapshot(), i, off, chunk[..done])
                && (readable == |chunk| ==> done == r) && done < r + BSIZE
                && (r < |chunk| ==> done == readable || NoneFree(owner, size))
    {
      hide Owned, BitsOk, OthersKept, Laid, Trailing, Span, OnlyLogged, Step, Tight;
      ghost var S, owner1, V1 := Snapshot(), owner, V;
      TableFacts(owner, disk, inodes, V, i);
      logged := {};
      ghost var c;
      r, done, c := Writei(i, off, chunk, readable);
      if r == -1 {
        StepNone(S, logged);
        if Tight(S, i, off, |chunk|) { TightFits(S, i, off, |chunk|); }
      } else {
        ghost var L :| logged == L + {InodeBlock(i)} &&
                       Trailing(bmapstart, {}, L, owner1, owner, V1[i], V[i], IndirectOf(inodes[i]), off / BSIZE, c,
                                Unaligned(off));
        LogBound(bmapstart, L, owner1, owner, V1[i], V[i], IndirectOf(inodes[i]), off / BSIZE, c, Unaligned(off),
                 InodeBlock(i));
        ChunkFits(off, |chunk|, c);
        StepOfWrite(S, Snapshot(), i, L, logged, off / BSIZE, c, Unaligned(off));
        if Tight(S, i, off, |chunk|) && readable == |chunk| {
          TenExactly(S, Snapshot(), i, off, |chunk|, L, c, r);
        }
      }
    }

    /** One turn of filewrite's loop: the next `n1` bytes, with the reason if they did not all go in. */
    method WriteNext(i: nat, off0: nat, src: seq<byte>, at: nat, n1: nat, readable: nat, ghost S0: Snap)
      returns (r: int)
      requires Valid() && i in inodes && i in V && |src| < UINT && at <= readable <= |src| && off0 + at < UINT
      requires 0 < n1 <= |src| - at && n1 <= 3 * BSIZE && Progress(S0, Snapshot(), i, off0, src[..at])
      requires i in S0.inodes && Underway(S0.inodes[i].size, inodes[i].size, off0, at)
      modifies this
      ensures Valid() && i in inodes && i in V && i in S0.V
      ensures Step(old(Snapshot()), Snapshot(), logged) && |logged| <= MAXOPBLOCKS && (r == -1 || 0 <= r <= n1)
      ensures r == -1 ==> Stopped(S0.inodes[i].size, off0, |src|, readable, off0 + at)
      ensures Grew(S0, Snapshot(), i, off0, src[..at + if r == -1 then 0 else r])
      ensures r == n1 ==>
                && Progress(S0, Snapshot(), i, off0, src[..at + r]) && at + r <= readable
                && Underway(S0.inodes[i].size, inodes[i].size, off0, at + r) && off0 + at + r < UINT
      ensures 0 <= r < n1 ==> Stopped(S0.inodes[i].size, off0, |src|, readable, off0 + at + r) || NoneFree(owner, size)
    {
      hide Owned, BitsOk, OthersKept, Content, Splice, Step, Tight, Laid, Progress, Reached, NoneFree, Stopped,
        Underway;
      ghost var S1 := Snapshot();
      var chunk := src[at..at + n1];
      ghost var done;
      ProgressFile(S0, S1, i, off0, src[..at]);
      r, done := WriteOp(i, off0 + at, chunk, Min(n1, readable - at));
      UnderwayMore(S0.inodes[i].size, S1.inodes[i].size, off0, at, |src|, n1, readable, r, done);
      if r == -1 {
        NothingMore(S0, S1, Snapshot(), i, off0, src[..at]);
      } else {
        MoreProgress(S0, S1, Snapshot(), i, off0, src[..at], chunk, done, r);
        SliceFirst(src, at, at + n1, r);
        SliceMore(src, at, at + r);
        ReachedGives(S0, Snapshot(), i, off0, src[..at + r]);
      }
    }

    /**
      filewrite: at most three blocks an operation. `snaps` are the files before, between and after the
      operations, and `ops` what each of them logged; `newoff` is the file offset afterwards.
     */
    method Filewrite(i: nat, off0: nat, src: seq<byte>, readable: nat)
      returns (ret: int, newoff: nat, ghost snaps: seq<Snap>, ghost ops: seq<set<nat>>)
      requires Valid() && i in inodes && off0 < UINT && |src| < UINT && readable <= |src|
      modifies this
      ensures Valid() && i in inodes && i in V && OthersKept(old(disk), old(inodes), old(V), disk, inodes, V, i)
      ensures InOps(old(Snapshot()), Snapshot(), snaps, ops)
      ensures ret == -1 || ret == |src|
      ensures ret == -1 ==>
                src != [] && (Stopped(old(inodes)[i].size, off0, |src|, readable, newoff) || NoneFree(owner, size))
      ensures ret == |src| ==> newoff == off0 + |src|
      ensures ret == |src| && src != [] ==>
                && off0 <= old(inodes)[i].size && off0 + |src| <= MAXFILE * BSIZE && readable == |src|
                && Content(disk, V[i], inodes[i].size) == Splice(Content(old(disk), old(V)[i], old(inodes)[i].size),
                                                                 off0, src)
      ensures off0 <= newoff <= off0 + |src|
      ensures (newoff > off0 ==> off0 <= old(inodes)[i].size && newoff <= inodes[i].size)
      ensures newoff > off0 ==>
                var c, c0 := Content(disk, V[i], inodes[i].size), Content(old(disk), old(V)[i], old(inodes)[i].size);
                c[..newoff] == c0[..off0] + src[..newoff - off0]
    {
      hide Owned, BitsOk, OthersKept, Content, Splice, Step, Tight, Laid, Progress, Reached, NoneFree, Stopped,
        Underway, InOps;
      ghost var S0 := Snapshot();
      OthersSame(owner, disk, inodes, V, i);
      TableFacts(owner, disk, inodes, V, i);
      NoProgress(S0, i, off0);
      UnderwayFrom(S0.inodes[i].size, off0);
      var max := ((MAXOPBLOCKS - 1 - 1 - 2) / 2) * BSIZE;
      var n, at := |src|, 0;
      newoff, snaps, ops := off0, [S0], [];
      NoOps(S0);
      assert src[..0] == [];
      while at < n
        invariant 0 <= at <= n && at <= readable && newoff == off0 + at && newoff < UINT
        invariant Valid() && i in inodes && i in V && Progress(S0, Snapshot(), i, off0, src[..at])
        invariant Underway(S0.inodes[i].size, inodes[i].size, off0, at) && InOps(S0, Snapshot(), snaps, ops)
      {
        var n1 := Min(n - at, max);
        ghost var S1 := Snapshot();
        var r := WriteNext(i, off0, src, at, n1, readable, S0);
        OneOpMore(S0, S1, Snapshot(), snaps, ops, logged);
        snaps, ops := snaps + [Snapshot()], ops + [logged];
        if r == -1 {
          return -1, newoff, snaps, ops;
        }
        newoff := newoff + r;
        if r != n1 {
          return -1, newoff, snaps, ops;
        }
        at := at + r;
      }
      assert src[..n] == src;
      ProgressGives(S0, Snapshot(), i, off0, src);
      UnderwayTo(S0.inodes[i].size, inodes[i].size, off0, n);
      return n, newoff, snaps, ops;
    }

    /** bfree: panics on a block that is already free. */
    method Bfree(b: nat) returns (panics: bool)
      requires BitsOk(bitmap, owner, size) && b < size
      modifies this`bitmap, this`owner, this`logged
      ensures BitsOk(bitmap, owner, size)
      ensures panics <==> b !in old(owner)
      ensures panics ==> bitmap == old(bitmap) && owner == old(owner) && logged == old(logged)
      ensures !panics ==>
                bitmap == Clear(old(bitmap), b) && owner == old(owner) - {b}
                  && logged == old(logged) + {BitBlock(bmapstart, b)}
      ensures old(logged) <= logged && OnlyLogged(disk, old(bitmap), disk, bitmap, bmapstart, logged)
    {
      hide IsSet, OnlyLogged;
      OnlySame(disk, bitmap, bmapstart, logged);
      InRange(bitmap, owner, size, b);
      if !IsSet(bitmap, b) {
        return true;
      }
      ClearedOk(bitmap, owner, size, b);
      OnlyCleared(disk, bitmap, b, bmapstart, logged + {BitBlock(bmapstart, b)});
      bitmap := Clear(bitmap, b);
      owner := owner - {b};
      logged := logged + {BitBlock(bmapstart, b)};
      panics := false;
    }
  }

  /** More blocks in use, none of them taken from anybody. */
  ghost predicate Grown(owner: Owners, owner': Owners) {
    forall b :: b in owner ==> b in owner' && owner'[b] == owner[b]
  }

  ghost function Fresh(owner: Owners, owner': Owners): set<nat> { owner'.Keys - owner.Keys }

  function IndirectOf(ino: Inode): nat { if |ino.addrs| == NDIRECT + 1 then ino.addrs[NDIRECT] else 0 }

  /** What bmap(i, bn) does to the addresses of file `i`; `t` and `t'` are its indirect block before and after. */
  ghost predicate Extended(owner: Owners, v: seq<nat>, t: nat, owner': Owners, v': seq<nat>, t': nat, bn: nat, a: nat) {
    && Grown(owner, owner') && bn < |v| && (t != 0 ==> t' == t)
    && (if a == 0 then v[bn] == 0 && v' == v else v' == With(v, bn, a))
    && (v[bn] != 0 ==> a == v[bn] && owner' == owner && t' == t)
    && Fresh(owner, owner') == (if v[bn] == 0 && a != 0 then {a} else {}) + (if t == 0 && t' != 0 then {t'} else {})
  }

  /** And to its blocks. */
  ghost predicate Mapped(owner: Owners, disk: Disk, v: seq<nat>, t: nat, owner': Owners, disk': Disk, v': seq<nat>,
                         t': nat, bn: nat, a: nat) {
    && Extended(owner, v, t, owner', v', t', bn, a) && OwnKept(disk, v, disk', v', bn)
    && (a != 0 ==> a in disk' && a in owner') && (v[bn] != 0 ==> disk' == disk && a in disk)
    && (v[bn] == 0 && a != 0 ==> a !in owner && disk'[a] == Zeros())
  }

  lemma OnlySame(disk: Disk, bitmap: seq<bv8>, bmapstart: nat, L: set<nat>)
    ensures OnlyLogged(disk, bitmap, disk, bitmap, bmapstart, L)
  {
  }

  lemma OnlyWider(disk: Disk, bitmap: seq<bv8>, disk1: Disk, bitmap1: seq<bv8>, bmapstart: nat, L: set<nat>,
                  L': set<nat>)
    requires OnlyLogged(disk, bitmap, disk1, bitmap1, bmapstart, L) && L <= L'
    ensures OnlyLogged(disk, bitmap, disk1, bitmap1, bmapstart, L')
  {
  }

  lemma OnlyTrans(disk: Disk, bitmap: seq<bv8>, disk1: Disk, bitmap1: seq<bv8>, disk2: Disk, bitmap2: seq<bv8>,
                  bmapstart: nat, L1: set<nat>, L2: set<nat>)
    requires OnlyLogged(disk, bitmap, disk1, bitmap1, bmapstart, L1)
    requires OnlyLogged(disk1, bitmap1, disk2, bitmap2, bmapstart, L2) && L1 <= L2
    ensures OnlyLogged(disk, bitmap, disk2, bitmap2, bmapstart, L2)
  {
  }

  lemma OnlyMore(disk: Disk, bitmap: seq<bv8>, disk1: Disk, bitmap1: seq<bv8>, bmapstart: nat, L: set<nat>, a: nat,
                 blk: Block)
    requires OnlyLogged(disk, bitmap, disk1, bitmap1, bmapstart, L) && a in disk1
    ensures OnlyLogged(disk, bitmap, disk1[a := blk], bitmap1, bmapstart, L + {a})
  {
  }

  lemma OnlyTaken(disk: Disk, bitmap: seq<bv8>, a: nat, bmapstart: nat, L: set<nat>)
    requires a in disk && a / 8 < |bitmap| && BitBlock(bmapstart, a) in L && a in L
    ensures OnlyLogged(disk, bitmap, disk[a := Zeros()], Mark(bitmap, a), bmapstart, L)
  {
    hide Zeros;
    assert a / 8 / BSIZE == a / BPB;
  }

  lemma OnlyCleared(disk: Disk, bitmap: seq<bv8>, a: nat, bmapstart: nat, L: set<nat>)
    requires a / 8 < |bitmap| && BitBlock(bmapstart, a) in L
    ensures OnlyLogged(disk, bitmap, disk, Clear(bitmap, a), bmapstart, L)
  {
    assert a / 8 / BSIZE == a / BPB;
  }

  lemma MarkedOk(m: seq<bv8>, owner: Owners, size: nat, a: nat, o: Owner)
    requires BitsOk(m, owner, size) && a < size
    ensures BitsOk(Mark(m, a), owner[a := o], size)
  {
    hide IsSet, Mark;
    assert |Mark(m, a)| == |m| by { SameLength(m, a); }
    forall b: nat | b < size ensures IsSet(Mark(m, a), b) <==> b in owner[a := o] {
      BitRoundTrip(m, a, b);
    }
  }

  lemma ClearedOk(m: seq<bv8>, owner: Owners, size: nat, a: nat)
    requires BitsOk(m, owner, size) && a < size
    ensures BitsOk(Clear(m, a), owner - {a}, size)
  {
    hide IsSet, Clear;
    assert |Clear(m, a)| == |m| by { SameLength(m, a); }
    forall b: nat | b < size ensures IsSet(Clear(m, a), b) <==> b in owner - {a} {
      BitRoundTrip(m, a, b);
    }
  }

  lemma SameLength(m: seq<bv8>, a: nat)
    requires a / 8 < |m|
    ensures |Mark(m, a)| == |m| && |Clear(m, a)| == |m|
  {
  }

  lemma InodeFacts(owner: Owners, disk: Disk, I: Inodes, V: Views, i: nat)
    requires Owned(owner, disk, I, V) && i in I
    ensures InodeOk(owner, disk, I, V, i) && i in V && |V[i]| == MAXFILE && |I[i].addrs| == NDIRECT + 1 && 0 in owner
    ensures Stored(disk, I[i], V[i]) && FileOk(owner, i, I[i].addrs[NDIRECT], V[i]) && NoHoles(V[i], I[i].size)
    ensures V.Keys == I.Keys
  {
    hide OwnerOk;
  }

  lemma OwnSame(owner: Owners, disk: Disk, I: Inodes, V: Views, i: nat, k: nat)
    requires Owned(owner, disk, I, V) && i in I
    ensures i in V && OwnKept(disk, V[i], disk, V[i], k)
    ensures forall m: nat :: m < |V[i]| && V[i][m] != 0 ==> V[i][m] in disk && V[i][m] in owner
  {
    assert InodeOk(owner, disk, I, V, i);
  }

  lemma DirectTaken(owner: Owners, disk: Disk, I: Inodes, V: Views, i: nat, k: nat, a: nat)
    requires Owned(owner, disk, I, V) && i in I && k < NDIRECT && V[i][k] == 0 && a !in owner && a < UINT && a in disk
    requires |I[i].addrs| == NDIRECT + 1
    ensures Taken(owner, disk, I[i], V[i], i, k, a, disk, I[i].(addrs := With(I[i].addrs, k, a)))
  {
    InodeFacts(owner, disk, I, V, i);
    hide Owned;
  }

  lemma EntryTaken(owner: Owners, disk: Disk, I: Inodes, V: Views, i: nat, k: nat, a: nat, disk1: Disk)
    requires Owned(owner, disk, I, V) && i in I && NDIRECT <= k < MAXFILE && V[i][k] == 0 && a !in owner && a < UINT
    requires a in disk
    requires IndirectOf(I[i]) != 0 && IndirectOf(I[i]) in disk
    requires disk1 == disk[IndirectOf(I[i]) := SetEntry(disk[IndirectOf(I[i])], k - NDIRECT, a)]
    ensures Taken(owner, disk, I[i], V[i], i, k, a, disk1, I[i])
  {
    InodeFacts(owner, disk, I, V, i);
    hide Owned, SetEntry, Entry;
    var t := IndirectOf(I[i]);
    forall m: nat | NDIRECT <= m < MAXFILE ensures With(V[i], k, a)[m] == Entry(disk1[t], m - NDIRECT) {
      EntryRoundTrip(disk[t], k - NDIRECT, a, m - NDIRECT);
    }
  }

  lemma FreshOne(owner: Owners, a: nat, o: Owner)
    requires a !in owner
    ensures Fresh(owner, owner[a := o]) == {a}
  {
  }

  lemma MappedAlready(owner: Owners, disk: Disk, I: Inodes, V: Views, i: nat, bn: nat)
    requires Owned(owner, disk, I, V) && i in I && bn < MAXFILE && V[i][bn] != 0
    ensures Mapped(owner, disk, V[i], IndirectOf(I[i]), owner, disk, V[i], IndirectOf(I[i]), bn, V[i][bn])
  {
    OwnSame(owner, disk, I, V, i, bn);
    InodeFacts(owner, disk, I, V, i);
    hide Owned;
  }

  lemma MappedNothing(owner: Owners, disk: Disk, I: Inodes, V: Views, i: nat, bn: nat)
    requires Owned(owner, disk, I, V) && i in I && bn < MAXFILE && V[i][bn] == 0
    ensures Mapped(owner, disk, V[i], IndirectOf(I[i]), owner, disk, V[i], IndirectOf(I[i]), bn, 0)
    ensures Fresh(owner, owner) == {}
  {
    OwnSame(owner, disk, I, V, i, bn);
    InodeFacts(owner, disk, I, V, i);
    hide Owned;
  }

  lemma MappedNew(owner: Owners, disk: Disk, I: Inodes, V: Views, i: nat, bn: nat, a: nat, disk1: Disk)
    requires Owned(owner, disk, I, V) && i in I && bn < MAXFILE && V[i][bn] == 0 && a !in owner && a != 0
    requires disk1.Keys == disk.Keys + {a} && disk1[a] == Zeros()
    requires forall b :: b in disk && b != a && b != IndirectOf(I[i]) ==> disk1[b] == disk[b]
    ensures Mapped(owner, disk, V[i], IndirectOf(I[i]), owner[a := Data(i, bn)], disk1, With(V[i], bn, a),
                   IndirectOf(I[i]), bn, a)
  {
    InodeFacts(owner, disk, I, V, i);
    OwnSame(owner, disk, I, V, i, bn);
    hide Owned, Zeros;
    FreshOne(owner, a, Data(i, bn));
  }

  lemma TableFull(owner: Owners, disk: Disk, disk1: Disk, v: seq<nat>, bn: nat, owner1: Owners)
    requires Grown(owner, owner1) && OwnKept(disk, v, disk1, v, MAXFILE) && Fresh(owner, owner1) == {}
    requires bn < |v| == MAXFILE && v[bn] == 0
    ensures Mapped(owner, disk, v, 0, owner1, disk1, v, 0, bn, 0)
  {
  }

  lemma TableThenEntry(owner: Owners, disk: Disk, v: seq<nat>, t: nat, owner1: Owners, disk1: Disk,
                       owner2: Owners, disk2: Disk, v2: seq<nat>, t1: nat, bn: nat, a: nat)
    requires Grown(owner, owner1) && OwnKept(disk, v, disk1, v, MAXFILE) && |v| == MAXFILE && t1 != 0 && bn < MAXFILE
    requires t != 0 ==> t1 == t && owner1 == owner && disk1 == disk
    requires v[bn] != 0 ==> t != 0
    requires Fresh(owner, owner1) == if t == 0 then {t1} else {}
    requires Mapped(owner1, disk1, v, t1, owner2, disk2, v2, t1, bn, a)
    ensures Mapped(owner, disk, v, t, owner2, disk2, v2, t1, bn, a)
    ensures Fresh(owner, owner2) == Fresh(owner, owner1) + Fresh(owner1, owner2)
  {
    hide Zeros;
  }

  lemma FreshNone(owner: Owners)
    ensures Fresh(owner, owner) == {}
  {
  }

  lemma SlotFacts(disk: Disk, ino: Inode, v: seq<nat>, bn: nat)
    requires Stored(disk, ino, v) && bn < MAXFILE
    ensures if bn < NDIRECT then v[bn] == ino.addrs[bn] else IndirectOf(ino) == 0 ==> v[bn] == 0
  {
  }

  lemma NothingWritten(owner: Owners, disk: Disk, v: seq<nat>, t: nat, owner1: Owners, disk1: Disk, v1: seq<nat>,
                       t1: nat, off: nat)
    requires Mapped(owner, disk, v, t, owner1, disk1, v1, t1, off / BSIZE, 0)
    ensures BytesKept(disk, v, disk1, v1, off, off) && Extended(owner, v, t, owner1, v1, t1, off / BSIZE, 0)
  {
    hide Fresh, Grown, Zeros;
    assert v[off / BSIZE] == 0;
    forall p: nat | p / BSIZE < |v| && v[p / BSIZE] != 0 ensures ByteAt(disk1, v1, p) == ByteAt(disk, v, p) {
      assert p / BSIZE != off / BSIZE;
    }
  }

  lemma AddressFacts(owner: Owners, disk: Disk, I: Inodes, V: Views, i: nat, owner1: Owners, disk1: Disk, I1: Inodes,
                     V1: Views, k: nat, a: nat)
    requires Owned(owner, disk, I, V) && i in I && Owned(owner1, disk1, I1, V1) && i in I1 && a != 0 && k < MAXFILE
    requires Mapped(owner, disk, V[i], IndirectOf(I[i]), owner1, disk1, V1[i], IndirectOf(I1[i]), k, a)
    ensures V1[i] == With(V[i], k, a) && OwnKept(disk, V[i], disk1, V1[i], k) && a in disk1 && a in owner1
    ensures owner1[a] == Data(i, k)
    ensures V[i][k] != 0 ==> V[i][k] == a && a in disk && disk1[a] == disk[a]
    ensures forall m: nat :: m < |V[i]| && m != k ==> V[i][m] != a
    ensures Extended(owner, V[i], IndirectOf(I[i]), owner1, V1[i], IndirectOf(I1[i]), k, a)
  {
    hide Owned, Fresh, Grown, Zeros;
    InodeFacts(owner, disk, I, V, i);
    InodeFacts(owner1, disk1, I1, V1, i);
    assert V1[i][k] == a;
    forall m: nat | m < |V[i]| && m != k ensures V[i][m] != a {
      assert V1[i][m] == V[i][m];
    }
  }

  // ---------- the loop of writei ----------

  lemma WriteiStart(owner: Owners, disk: Disk, I: Inodes, V: Views, i: nat, off: nat, bmapstart: nat, L: set<nat>)
    requires Owned(owner, disk, I, V) && i in I
    ensures i in V && Doing(disk, I, V, disk, I, V, i, off, [])
    ensures forall k0: nat, u: nat :: Trailing(bmapstart, L, L, owner, owner, V[i], V[i], IndirectOf(I[i]), k0, 0, u)
  {
    InodeFacts(owner, disk, I, V, i);
    OthersSame(owner, disk, I, V, i);
    hide Owned, OthersKept;
    FreshNone(owner);
    TakingNone(bmapstart);
  }

  lemma FirstLap(off0: nat, n: nat)
    ensures Lap(off0, 0, n, 0) && 0 <= Span(off0, n) && (n == 0 ==> Span(off0, n) == 0)
  {
  }

  lemma LastLap(off0: nat, n: nat, c: nat)
    requires Lap(off0, n, n, c)
    ensures c == Span(off0, n)
  {
  }

  /** Block k0+c comes next, and lies inside the request. */
  lemma NextLap(off0: nat, tot: nat, n: nat, c: nat)
    requires tot < n && off0 + n <= MAXFILE * BSIZE && Lap(off0, tot, n, c)
    ensures var off := off0 + tot;
            var m := Min(n - tot, BSIZE - off % BSIZE);
            off / BSIZE == off0 / BSIZE + c && off / BSIZE < MAXFILE && m > 0 && c + 1 <= Span(off0, n)
              && Lap(off0, tot + m, n, c + 1)
  {
  }

  lemma SpliceLength(c: seq<byte>, size: nat, off: nat, s: seq<byte>)
    requires |c| == size && off <= size
    ensures |Splice(c, off, s)| == Max(size, off + |s|)
  {
  }

  lemma DoingFacts(disk: Disk, I: Inodes, V: Views, disk': Disk, I': Inodes, V': Views, i: nat, off0: nat, s: seq<byte>)
    requires Doing(disk, I, V, disk', I', V', i, off0, s)
    ensures i in I && i in V && i in I' && i in V' && I'[i].size == I[i].size
    ensures OthersKept(disk, I, V, disk', I', V', i)
    ensures Written(disk', V'[i], off0, s) && BytesKept(disk, V[i], disk', V'[i], off0, off0 + |s|)
  {
  }

  lemma DoingStep(disk0: Disk, I0: Inodes, V0: Views, disk1: Disk, I1: Inodes, V1: Views, disk2: Disk, I2: Inodes,
                  V2: Views,
                  i: nat, off0: nat, s: seq<byte>, piece: seq<byte>)
    requires Doing(disk0, I0, V0, disk1, I1, V1, i, off0, s) && OthersKept(disk1, I1, V1, disk2, I2, V2, i)
    requires i in I1 && i in V1 && i in I2 && i in V2 && I2[i].size == I1[i].size
    requires (piece == [] || Written(disk2, V2[i], off0 + |s|, piece))
    requires BytesKept(disk1, V1[i], disk2, V2[i], off0 + |s|, off0 + |s| + |piece|)
    ensures Doing(disk0, I0, V0, disk2, I2, V2, i, off0, s + piece)
  {
    assert piece == [] ==> Written(disk2, V2[i], off0 + |s|, piece);
    PiecesJoin(disk0, V0[i], disk1, V1[i], disk2, V2[i], off0, s, piece);
    hide Written, BytesKept;
    OthersTrans(disk0, I0, V0, disk1, I1, V1, disk2, I2, V2, i);
    hide OthersKept;
  }

  /** The first block of an unaligned write is already there. */
  lemma FirstThere(owner: Owners, disk: Disk, I: Inodes, V: Views, i: nat, off0: nat,
                   owner1: Owners, disk1: Disk, I1: Inodes, V1: Views, c: nat, u: nat, bmapstart: nat, L: set<nat>,
                     L1: set<nat>)
    requires Owned(owner, disk, I, V) && i in I && off0 <= I[i].size && u == Unaligned(off0)
    requires Owned(owner1, disk1, I1, V1) && i in I1 && i in V && i in V1 && off0 / BSIZE < MAXFILE
    requires Trailing(bmapstart, L, L1, owner, owner1, V[i], V1[i], IndirectOf(I1[i]), off0 / BSIZE, c, u)
    ensures |V1[i]| == MAXFILE && (c == 0 && u == 1 ==> V1[i][off0 / BSIZE] != 0) && 0 in owner
  {
    InodeFacts(owner, disk, I, V, i);
    InodeFacts(owner1, disk1, I1, V1, i);
    hide Owned, Fresh, Grown, BlocksOf, Trail;
    if c == 0 && u == 1 {
      assert off0 / BSIZE < Blocks(I[i].size);
    }
  }

  lemma TrailingStep(bmapstart: nat, L0: set<nat>, L1: set<nat>, L2: set<nat>, owner: Owners, v: seq<nat>,
                     owner1: Owners, v1: seq<nat>, t1: nat,
                     owner2: Owners, disk2: Disk, I2: Inodes, V2: Views, i: nat, k0: nat, c: nat, u: nat, a: nat)
    requires Trailing(bmapstart, L0, L1, owner, owner1, v, v1, t1, k0, c, u) && Owned(owner2, disk2, I2, V2) && i in I2
    requires i in V2
    requires Extended(owner1, v1, t1, owner2, V2[i], IndirectOf(I2[i]), k0 + c, a)
    requires k0 + c < |v1| && (c == 0 && u == 1 ==> v1[k0] != 0) && u <= 1 && 0 in owner
    requires L2 == L1 + ChunkLogs(bmapstart, owner1, owner2, v1, IndirectOf(I2[i]), k0 + c, a)
    ensures Trailing(bmapstart, L0, L2, owner, owner2, v, V2[i], IndirectOf(I2[i]), k0, if a == 0 then c else c + 1, u)
  {
    hide Owned, Trail, TrailOk, TakingLogs, Fresh, Extended;
    TableFacts(owner2, disk2, I2, V2, i);
    TrailStepOk(owner, v, owner1, v1, t1, owner2, V2[i], IndirectOf(I2[i]), k0, c, u, a);
    TrailStepSet(bmapstart, owner, v, owner1, v1, t1, owner2, V2[i], IndirectOf(I2[i]), k0, c, u, a);
  }

  lemma TableFacts(owner: Owners, disk: Disk, I: Inodes, V: Views, i: nat)
    requires Owned(owner, disk, I, V) && i in I
    ensures i in V && 0 in owner && (IndirectOf(I[i]) == 0 ==> forall k: nat :: NDIRECT <= k < |V[i]| ==> V[i][k] == 0)
  {
    assert InodeOk(owner, disk, I, V, i);
  }

  lemma BlocksMore(v1: seq<nat>, v2: seq<nat>, lo: nat, hi: nat, a: nat)
    requires lo <= hi < |v1| && v2 == With(v1, hi, a)
    ensures BlocksOf(v2, lo, hi + 1) == BlocksOf(v1, lo, hi) + {a}
  {
    assert v2[hi] == a;
    forall b | b in BlocksOf(v1, lo, hi) ensures b in BlocksOf(v2, lo, hi + 1) {
      var k: nat :| lo <= k < hi && k < |v1| && v1[k] == b;
      assert v2[k] == b;
    }
    forall b | b in BlocksOf(v2, lo, hi + 1) ensures b in BlocksOf(v1, lo, hi) + {a} {
      var k: nat :| lo <= k < hi + 1 && k < |v2| && v2[k] == b;
      if k != hi { assert v1[k] == b; }
    }
  }

  lemma EntryMore(v: seq<nat>, v1: seq<nat>, v2: seq<nat>, k: nat, a: nat)
    requires |v1| == |v| && k < |v1| && v2 == With(v1, k, a) && a != 0 && (v1[k] != 0 ==> a == v1[k])
    requires forall m: nat :: m < |v| && v[m] != 0 ==> v1[m] == v[m]
    ensures NewEntry(v, v2) <==> NewEntry(v, v1) || (k >= NDIRECT && v1[k] == 0)
  {
    if NewEntry(v, v1) {
      var m: nat :| NDIRECT <= m < |v| && m < |v1| && v[m] == 0 && v1[m] != 0;
      assert v2[m] != 0;
    }
    if k >= NDIRECT && v1[k] == 0 {
      assert v[k] == 0 && v2[k] != 0;
    }
    if NewEntry(v, v2) {
      var m: nat :| NDIRECT <= m < |v| && m < |v2| && v[m] == 0 && v2[m] != 0;
      if m != k { assert v1[m] != 0; }
    }
  }

  lemma FreshJoin(owner: Owners, owner1: Owners, owner2: Owners)
    requires Grown(owner, owner1) && Grown(owner1, owner2)
    ensures Grown(owner, owner2) && Fresh(owner, owner2) == Fresh(owner, owner1) + Fresh(owner1, owner2)
  {
  }

  lemma NoEntryYet(v: seq<nat>, v1: seq<nat>)
    requires forall k: nat :: NDIRECT <= k < |v1| ==> v1[k] == 0
    ensures !NewEntry(v, v1)
  {
  }

  lemma TrailStepOk(owner: Owners, v: seq<nat>, owner1: Owners, v1: seq<nat>, t1: nat,
                    owner2: Owners, v2: seq<nat>, t2: nat, k0: nat, c: nat, u: nat, a: nat)
    requires TrailOk(owner, owner1, v, v1, t1, k0, c, u) && Extended(owner1, v1, t1, owner2, v2, t2, k0 + c, a)
    requires c == 0 && u == 1 ==> v1[k0] != 0
    requires u <= 1 && 0 in owner
    requires t2 == 0 ==> forall k: nat :: NDIRECT <= k < |v2| ==> v2[k] == 0
    ensures TrailOk(owner, owner2, v, v2, t2, k0, if a == 0 then c else c + 1, u)
  {
    hide Grown, Fresh, BlocksOf;
    FreshJoin(owner, owner1, owner2);
    assert 0 !in Fresh(owner, owner1) by { OldNotFresh(owner, owner1, 0); }
    if a != 0 {
      if c == 0 && u == 1 {
        EmptyBlocks(v1, k0 + u, k0 + c);
      } else {
        BlocksMore(v1, v2, k0 + u, k0 + c, a);
      }
    }
  }

  lemma OldNotFresh(owner: Owners, owner1: Owners, b: nat)
    requires b in owner
    ensures b !in Fresh(owner, owner1)
  {
  }

  lemma TrailStepSet(bmapstart: nat, owner: Owners, v: seq<nat>, owner1: Owners, v1: seq<nat>, t1: nat,
                     owner2: Owners, v2: seq<nat>, t2: nat, k0: nat, c: nat, u: nat, a: nat)
    requires TrailOk(owner, owner1, v, v1, t1, k0, c, u) && Extended(owner1, v1, t1, owner2, v2, t2, k0 + c, a)
    ensures Trail(bmapstart, owner, owner2, v, v2, t2, k0, if a == 0 then c else c + 1) ==
            Trail(bmapstart, owner, owner1, v, v1, t1, k0, c) + TakingLogs(bmapstart, Fresh(owner1, owner2))
            + (if k0 + c >= NDIRECT && v1[k0 + c] == 0 && a != 0 then {t2} else {}) + (if a != 0 then {a} else {})
  {
    hide Grown, Fresh, TakingLogs, BlocksOf, NewEntry;
    FreshJoin(owner, owner1, owner2);
    TakingJoin(bmapstart, Fresh(owner, owner1), Fresh(owner1, owner2));
    var c2 := if a == 0 then c else c + 1;
    var A: set<nat> := if a != 0 then {a} else {};
    var E: set<nat> := if k0 + c >= NDIRECT && v1[k0 + c] == 0 && a != 0 then {t2} else {};
    var E1: set<nat> := if NewEntry(v, v1) then {t1} else {};
    assert BlocksOf(v2, k0, k0 + c2) == BlocksOf(v1, k0, k0 + c) + A by {
      if a != 0 { BlocksMore(v1, v2, k0, k0 + c, a); }
    }
    assert (if NewEntry(v, v2) then {t2} else {}) == E1 + E by {
      if t1 == 0 { NoEntryYet(v, v1); }
      if a != 0 { EntryMore(v, v1, v2, k0 + c, a); }
    }
    Shuffle(TakingLogs(bmapstart, Fresh(owner, owner1)), TakingLogs(bmapstart, Fresh(owner1, owner2)),
            BlocksOf(v1, k0, k0 + c), A, E1, E);
  }

  lemma Shuffle(T: set<nat>, T': set<nat>, B: set<nat>, B': set<nat>, E: set<nat>, E': set<nat>)
    ensures (T + T') + (B + B') + (E + E') == (T + B + E) + T' + E' + B'
  {
  }

  lemma EmptyBlocks(v: seq<nat>, lo: nat, hi: nat)
    requires hi <= lo
    ensures BlocksOf(v, lo, hi) == {}
  {
  }

  /** Setting the size once the bytes are there. */
  lemma WriteiEnd(owner: Owners, disk: Disk, I: Inodes, V: Views, owner1: Owners, disk1: Disk, I1: Inodes, V1: Views,
                  i: nat, off: nat, s: seq<byte>, size1: nat)
    requires Owned(owner, disk, I, V) && i in I && Owned(owner1, disk1, I1, V1) && i in I1 && i in V && i in V1
    requires off <= I[i].size == I1[i].size && Written(disk1, V1[i], off, s)
    requires BytesKept(disk, V[i], disk1, V1[i], off, off + |s|)
    requires I[i].size <= size1 <= Max(I[i].size, off + |s|) && OthersKept(disk, I, V, disk1, I1, V1, i)
    ensures var I2 := I1[i := I1[i].(size := size1)];
            && Owned(owner1, disk1, I2, V1) && OthersKept(disk, I, V, disk1, I2, V1, i)
            && Content(disk1, V1[i], size1) == Splice(Content(disk, V[i], I[i].size), off, s)[..size1]
  {
    InodeFacts(owner, disk, I, V, i);
    SplicedContent(disk, V[i], I[i].size, disk1, V1[i], size1, off, s);
    hide Content, Splice, Written, BytesKept;
    Resized(owner1, disk1, I1, V1, i, size1);
  }

  lemma Resized(owner: Owners, disk: Disk, I: Inodes, V: Views, i: nat, size: nat)
    requires Owned(owner, disk, I, V) && i in I && NoHoles(V[i], size)
    ensures Owned(owner, disk, I[i := I[i].(size := size)], V)
  {
    var I' := I[i := I[i].(size := size)];
    forall j | j in I' ensures InodeOk(owner, disk, I', V, j) {
      assert InodeOk(owner, disk, I, V, j);
    }
    forall b | b in owner ensures OwnerOk(owner, I', V, b) {
      assert OwnerOk(owner, I, V, b);
    }
  }

  // ---------- readi ----------

  lemma BlockThere(v: seq<nat>, size: nat, off: nat)
    requires NoHoles(v, size) && |v| == MAXFILE && off < size
    ensures off / BSIZE < MAXFILE && v[off / BSIZE] != 0
  {
    assert off / BSIZE < Blocks(size);
  }

  lemma AlreadyMapped(owner: Owners, disk: Disk, v: seq<nat>, t: nat, owner1: Owners, disk1: Disk, bn: nat, a: nat,
                      bmapstart: nat)
    requires Mapped(owner, disk, v, t, owner1, disk1, v, t, bn, a) && v[bn] != 0
    ensures a == v[bn] && owner1 == owner && disk1 == disk && a in disk
    ensures TakingLogs(bmapstart, Fresh(owner, owner1)) == {}
  {
    FreshNone(owner);
    TakingNone(bmapstart);
  }

  lemma SliceOfBlock(disk: Disk, v: seq<nat>, size: nat, off: nat, m: nat)
    requires off / BSIZE < |v| && v[off / BSIZE] in disk && off + m <= size && off % BSIZE + m <= BSIZE
    ensures disk[v[off / BSIZE]][off % BSIZE..off % BSIZE + m] == Content(disk, v, size)[off..off + m]
  {
    var here, there := disk[v[off / BSIZE]][off % BSIZE..off % BSIZE + m], Content(disk, v, size)[off..off + m];
    forall q: nat | q < m ensures here[q] == there[q] {
      assert (off + q) / BSIZE == off / BSIZE && (off + q) % BSIZE == off % BSIZE + q;
    }
  }

  // ---------- itrunc ----------

  ghost predicate BelongsTo(owner: Owners, b: nat, i: nat) { b in owner && !owner[b].Meta? && owner[b].inum == i }

  ghost function Disowned(owner: Owners, i: nat): Owners { map b | b in owner && !BelongsTo(owner, b, i) :: owner[b] }

  /** Without the blocks of file `i` below block `k`. */
  ghost function Released(owner: Owners, i: nat, k: nat): Owners {
    map b | b in owner && !(owner[b].Data? && owner[b].inum == i && owner[b].slot < k) :: owner[b]
  }

  function NoBlocks(): seq<nat> { seq(MAXFILE, _ => 0) }

  function NoAddrs(): seq<nat> { seq(NDIRECT + 1, _ => 0) }

  lemma ReleasedNone(owner: Owners, i: nat)
    ensures Released(owner, i, 0) == owner
  {
  }

  lemma ReleasedMore(owner: Owners, disk: Disk, I: Inodes, V: Views, i: nat, k: nat)
    requires Owned(owner, disk, I, V) && i in I && i in V && k < MAXFILE && |V[i]| == MAXFILE
    ensures V[i][k] != 0 ==>
              V[i][k] in Released(owner, i, k) && Released(owner, i, k + 1) == Released(owner, i, k) - {V[i][k]}
    ensures V[i][k] == 0 ==> Released(owner, i, k + 1) == Released(owner, i, k)
  {
    assert InodeOk(owner, disk, I, V, i);
    forall b | b in owner && owner[b] == Data(i, k) ensures b == V[i][k] && b != 0 {
      assert OwnerOk(owner, I, V, b);
    }
  }

  lemma InUse(m: seq<bv8>, owner: Owners, size: nat, b: nat)
    requires BitsOk(m, owner, size) && b in owner
    ensures b < size
  {
  }

  lemma TableThere(owner: Owners, disk: Disk, I: Inodes, V: Views, i: nat)
    requires Owned(owner, disk, I, V) && i in I && IndirectOf(I[i]) != 0
    ensures IndirectOf(I[i]) in disk && IndirectOf(I[i]) in owner && owner[IndirectOf(I[i])] == Table(i)
    ensures forall k: nat :: IndirectOf(I[i]) in Released(owner, i, k)
  {
    assert InodeOk(owner, disk, I, V, i);
  }

  lemma EntryFacts(disk: Disk, ino: Inode, v: seq<nat>, k: nat)
    requires Stored(disk, ino, v) && NDIRECT <= k < MAXFILE && IndirectOf(ino) != 0
    ensures IndirectOf(ino) in disk && v[k] == Entry(disk[IndirectOf(ino)], k - NDIRECT)
  {
  }

  lemma ReleasedAll(owner: Owners, disk: Disk, I: Inodes, V: Views, i: nat, owner1: Owners, k: nat)
    requires Owned(owner, disk, I, V) && i in I
    requires if IndirectOf(I[i]) == 0 then k == NDIRECT && owner1 == Released(owner, i, k)
             else k == MAXFILE && owner1 == Released(owner, i, k) - {IndirectOf(I[i])}
    ensures owner1 == Disowned(owner, i)
  {
    assert InodeOk(owner, disk, I, V, i);
    forall b | b in owner && BelongsTo(owner, b, i)
      ensures (owner[b].Data? && owner[b].slot < k) || (owner[b].Table? && b == IndirectOf(I[i]) && b != 0)
    {
      assert OwnerOk(owner, I, V, b);
    }
  }

  lemma Truncated(owner: Owners, disk: Disk, I: Inodes, V: Views, i: nat)
    requires Owned(owner, disk, I, V) && i in I
    ensures Owned(Disowned(owner, i), disk, I[i := Inode(0, NoAddrs())], V[i := NoBlocks()])
    ensures OthersKept(disk, I, V, disk, I[i := Inode(0, NoAddrs())], V[i := NoBlocks()], i)
  {
    hide InodeOk, OwnerOk, OthersKept, NoAddrs, NoBlocks;
    var owner', I', V' := Disowned(owner, i), I[i := Inode(0, NoAddrs())], V[i := NoBlocks()];
    TruncatedOthers(owner, disk, I, V, i);
    forall j | j in I' ensures InodeOk(owner', disk, I', V', j) {
      TruncatedInode(owner, disk, I, V, i, j);
    }
    forall b | b in owner' ensures OwnerOk(owner', I', V', b) {
      TruncatedOwner(owner, disk, I, V, i, b);
    }
  }

  lemma TruncatedOthers(owner: Owners, disk: Disk, I: Inodes, V: Views, i: nat)
    requires Owned(owner, disk, I, V) && i in I
    ensures OthersKept(disk, I, V, disk, I[i := Inode(0, NoAddrs())], V[i := NoBlocks()], i)
  {
    hide InodeOk, OwnerOk, NoAddrs, NoBlocks;
    OthersSame(owner, disk, I, V, i);
  }

  lemma TruncatedInode(owner: Owners, disk: Disk, I: Inodes, V: Views, i: nat, j: nat)
    requires Owned(owner, disk, I, V) && i in I && j in I
    ensures InodeOk(Disowned(owner, i), disk, I[i := Inode(0, NoAddrs())], V[i := NoBlocks()], j)
  {
    hide OwnerOk;
    if j != i { assert InodeOk(owner, disk, I, V, j); }
  }

  lemma TruncatedOwner(owner: Owners, disk: Disk, I: Inodes, V: Views, i: nat, b: nat)
    requires Owned(owner, disk, I, V) && i in I && b in Disowned(owner, i)
    ensures OwnerOk(Disowned(owner, i), I[i := Inode(0, NoAddrs())], V[i := NoBlocks()], b)
  {
    hide InodeOk, NoAddrs, NoBlocks;
    assert OwnerOk(owner, I, V, b);
  }

  lemma SameBits(m: seq<bv8>, owner: Owners, m': seq<bv8>, owner': Owners, size: nat, i: nat)
    requires BitsOk(m, owner, size) && BitsOk(m', owner', size) && owner' == Disowned(owner, i)
    ensures forall b: nat :: b < size ==>
              b / 8 < |m'| && b / 8 < |m| && (IsSet(m', b) <==> IsSet(m, b) && !BelongsTo(owner, b, i))
  {
    hide IsSet;
  }

  lemma ZeroBits(m: seq<bv8>, size: nat)
    requires size <= 8 * |m| && size <= UINT && forall k: nat :: k < |m| ==> m[k] == 0
    ensures BitsOk(m, map[], size)
  {
  }

  lemma InRange(m: seq<bv8>, owner: Owners, size: nat, b: nat)
    requires BitsOk(m, owner, size) && b < size
    ensures b / 8 < |m|
  {
  }

  lemma EmptyFiles(owner: Owners, disk: Disk, I: Inodes, V: Views)
    requires 0 in owner && forall b :: b in owner ==> b in disk && b < UINT && owner[b] == Meta
    requires V.Keys == I.Keys && forall i :: i in I ==> I[i] == Inode(0, NoAddrs()) && V[i] == NoBlocks()
    ensures Owned(owner, disk, I, V)
  {
    forall i | i in I ensures InodeOk(owner, disk, I, V, i) {
      assert Stored(disk, I[i], V[i]);
    }
  }

  // ---------- how many blocks a write logs ----------

  lemma {:induction false} BlocksCard(v: seq<nat>, lo: nat, hi: nat)
    ensures |BlocksOf(v, lo, hi)| <= if lo <= hi then hi - lo else 0
    decreases hi
  {
    if lo >= hi {
      EmptyBlocks(v, lo, hi);
    } else {
      BlocksCard(v, lo, hi - 1);
      var less := BlocksOf(v, lo, hi - 1);
      if hi - 1 < |v| {
        assert BlocksOf(v, lo, hi) == less + {v[hi - 1]};
      } else {
        assert BlocksOf(v, lo, hi) == less;
      }
    }
  }

  lemma {:induction false} BitsCard(bmapstart: nat, F: set<nat>)
    ensures |BitBlocks(bmapstart, F)| <= |F|
    decreases |F|
  {
    if F != {} {
      var x :| x in F;
      BitsCard(bmapstart, F - {x});
      assert BitBlocks(bmapstart, F) == BitBlocks(bmapstart, F - {x}) + {BitBlock(bmapstart, x)};
    }
  }

  /** Writing `c` blocks logs at most 2c+3 blocks, one fewer when the first was there already. */
  lemma LogBound(bmapstart: nat, L: set<nat>, owner: Owners, owner': Owners, v: seq<nat>, v': seq<nat>, t: nat,
                 k0: nat, c: nat, u: nat, ib: nat)
    requires Trailing(bmapstart, {}, L, owner, owner', v, v', t, k0, c, u) && u <= 1
    ensures |L + {ib}| <= 2 * c + 3 - if c > 0 then u else 0
  {
    hide Trailing, BlocksOf, Fresh, BitBlocks;
    var F, B := Fresh(owner, owner'), BlocksOf(v', k0, k0 + c);
    var bits := BitBlocks(bmapstart, F);
    TrailInside(bmapstart, L, owner, owner', v, v', t, k0, c, u);
    BlocksCard(v', k0, k0 + c);
    BlocksCard(v', k0 + u, k0 + c);
    SubsetCard(F, BlocksOf(v', k0 + u, k0 + c) + {t});
    BitsCard(bmapstart, F);
    SubsetCard(L + {ib}, B + {t} + bits + {ib});
    CardSum(B, t, bits, ib);
  }

  lemma TrailInside(bmapstart: nat, L: set<nat>, owner: Owners, owner': Owners, v: seq<nat>, v': seq<nat>, t: nat,
                    k0: nat, c: nat, u: nat)
    requires Trailing(bmapstart, {}, L, owner, owner', v, v', t, k0, c, u)
    ensures Fresh(owner, owner') <= BlocksOf(v', k0 + u, k0 + c) + {t} && (c > 0 ==> u <= c)
    ensures L <= BlocksOf(v', k0, k0 + c) + {t} + BitBlocks(bmapstart, Fresh(owner, owner'))
  {
    assert BlocksOf(v', k0 + u, k0 + c) <= BlocksOf(v', k0, k0 + c);
    hide BlocksOf, NewEntry, Fresh, BitBlocks;
  }

  lemma CardSum(B: set<nat>, t: nat, bits: set<nat>, ib: nat)
    ensures |B + {t} + bits + {ib}| <= |B| + 1 + |bits| + 1
  {
    assert |B + {t}| <= |B| + 1;
    assert |B + {t} + bits| <= |B + {t}| + |bits|;
  }

  /** A chunk of filewrite fits the log reservation of one operation. */
  lemma ChunkFits(off: nat, n: nat, c: nat)
    requires n <= 3 * BSIZE && c <= Span(off, n)
    ensures 2 * c + 3 - (if c > 0 then Unaligned(off) else 0) <= MAXOPBLOCKS
  {
  }

  /** One more chunk of filewrite, of which `r` bytes count and `done` bytes were copied. */
  lemma SliceMore<T>(s: seq<T>, a: nat, b: nat)
    requires a <= b <= |s|
    ensures s[..a] + s[a..b] == s[..b]
  {
  }

  lemma SliceFirst<T>(s: seq<T>, a: nat, b: nat, n: nat)
    requires a <= b <= |s| && a + n <= b
    ensures s[a..b][..n] == s[a..a + n]
  {
  }

  lemma NoMore<T>(s: seq<T>)
    ensures s + [] == s
  {
  }

  lemma NoProgress(S: Snap, i: nat, off: nat)
    requires i in S.inodes && i in S.V && OthersKept(S.disk, S.inodes, S.V, S.disk, S.inodes, S.V, i)
    ensures Progress(S, S, i, off, [])
  {
  }

  /** An operation that was refused. */
  lemma NothingMore(S0: Snap, S1: Snap, S2: Snap, i: nat, off: nat, s: seq<byte>)
    requires Progress(S0, S1, i, off, s) && OthersKept(S1.disk, S1.inodes, S1.V, S2.disk, S2.inodes, S2.V, i)
    requires S2.disk == S1.disk && S2.inodes == S1.inodes && S2.V == S1.V
    ensures OthersKept(S0.disk, S0.inodes, S0.V, S2.disk, S2.inodes, S2.V, i)
    ensures s != [] ==>
              var c, c0 := Content(S2.disk, S2.V[i], S2.inodes[i].size), Content(S0.disk, S0.V[i], S0.inodes[i].size);
              off <= |c0| && off + |s| <= S2.inodes[i].size && c[..off + |s|] == c0[..off] + s
  {
    hide OthersKept, Content, Splice;
    var c, c0 := Content(S2.disk, S2.V[i], S2.inodes[i].size), Content(S0.disk, S0.V[i], S0.inodes[i].size);
    if s != [] { SoFarPrefix(c0, c, S2.inodes[i].size, off, s); }
  }

  /** One more operation of filewrite. */
  lemma MoreProgress(S0: Snap, S1: Snap, S2: Snap, i: nat, off: nat, s: seq<byte>, chunk: seq<byte>, done: nat, r: nat)
    requires Progress(S0, S1, i, off, s) && OthersKept(S1.disk, S1.inodes, S1.V, S2.disk, S2.inodes, S2.V, i)
    requires r <= done <= |chunk| && Laid(S1, S2, i, off + |s|, chunk[..done])
    requires S2.inodes[i].size == Max(S1.inodes[i].size, off + |s| + r)
    ensures Reached(S0, S2, i, off, s + chunk[..r])
    ensures r == |chunk| > 0 ==> Progress(S0, S2, i, off, s + chunk)
  {
    hide OthersKept, Content, Splice, SoFar;
    OthersTrans(S0.disk, S0.inodes, S0.V, S1.disk, S1.inodes, S1.V, S2.disk, S2.inodes, S2.V, i);
    MoreWritten(Content(S0.disk, S0.V[i], S0.inodes[i].size), Content(S1.disk, S1.V[i], S1.inodes[i].size),
                S1.inodes[i].size, Content(S2.disk, S2.V[i], S2.inodes[i].size), S2.inodes[i].size, off, s, chunk,
                done, r);
  }

  lemma ReachedGives(S0: Snap, S: Snap, i: nat, off: nat, s: seq<byte>)
    requires Reached(S0, S, i, off, s)
    ensures OthersKept(S0.disk, S0.inodes, S0.V, S.disk, S.inodes, S.V, i)
    ensures i in S0.inodes && i in S0.V && i in S.inodes && i in S.V
    ensures var c, c0 := Content(S.disk, S.V[i], S.inodes[i].size), Content(S0.disk, S0.V[i], S0.inodes[i].size);
            off <= |c0| && off + |s| <= S.inodes[i].size && c[..off + |s|] == c0[..off] + s
  {
    hide OthersKept, Content;
  }

  lemma ProgressGives(S0: Snap, S: Snap, i: nat, off: nat, s: seq<byte>)
    requires Progress(S0, S, i, off, s)
    ensures OthersKept(S0.disk, S0.inodes, S0.V, S.disk, S.inodes, S.V, i)
    ensures i in S0.inodes && i in S0.V && i in S.inodes && i in S.V
    ensures s != [] ==>
              var c, c0 := Content(S.disk, S.V[i], S.inodes[i].size), Content(S0.disk, S0.V[i], S0.inodes[i].size);
              && off <= |c0| && off + |s| <= S.inodes[i].size && c[..off + |s|] == c0[..off] + s
              && c == Splice(c0, off, s)
  {
    hide OthersKept, Content, Splice;
    var c, c0 := Content(S.disk, S.V[i], S.inodes[i].size), Content(S0.disk, S0.V[i], S0.inodes[i].size);
    if s != [] { SoFarPrefix(c0, c, S.inodes[i].size, off, s); }
  }

  lemma MoreWritten(c0: seq<byte>, c1: seq<byte>, size1: nat, c2: seq<byte>, size2: nat, off: nat, s: seq<byte>,
                    chunk: seq<byte>, done: nat, r: nat)
    requires SoFar(c0, c1, size1, off, s) && r <= done <= |chunk| && off + |s| <= |c1|
    requires size2 == Max(size1, off + |s| + r) && |c2| == size2
    requires c2 == Splice(c1, off + |s|, chunk[..done])[..size2]
    ensures off + |s| + r <= |c2| && off <= |c0| && c2[..off + |s| + r] == c0[..off] + (s + chunk[..r])
    ensures r == |chunk| > 0 ==> SoFar(c0, c2, size2, off, s + chunk)
  {
    hide Splice;
    var at, t := off + |s|, chunk[..done];
    SpliceParts(c1, at, t);
    assert c1[..at] == c0[..off] + s by {
      if s != [] { SoFarPrefix(c0, c1, size1, off, s); } else { NoMore(c0[..off]); }
    }
    CutPrefix(Splice(c1, at, t), size2, at + r);
    assert t[..r] == chunk[..r];
    assert Splice(c1, at, t)[..at + r] == c1[..at] + t[..r];
    assert c0[..off] + s + chunk[..r] == c0[..off] + (s + chunk[..r]);
    if r == |chunk| > 0 {
      assert t == chunk;
      WholeSplice(c1, at, chunk);
      if s != [] { SpliceTwice(c0, off, s, chunk); } else { assert s + chunk == chunk; }
    }
  }

  lemma CutPrefix(c: seq<byte>, size: nat, n: nat)
    requires n <= size <= |c|
    ensures c[..size][..n] == c[..n]
  {
  }

  /** What is in front of the laid bytes stays, and they follow it. */
  lemma SpliceParts(c: seq<byte>, off: nat, s: seq<byte>)
    requires off <= |c|
    ensures |Splice(c, off, s)| == Max(|c|, off + |s|)
    ensures forall r: nat :: r <= |s| ==> Splice(c, off, s)[..off + r] == c[..off] + s[..r]
  {
  }

  lemma WholeSplice(c: seq<byte>, off: nat, s: seq<byte>)
    requires off <= |c|
    ensures |Splice(c, off, s)| == Max(|c|, off + |s|)
    ensures Splice(c, off, s)[..Max(|c|, off + |s|)] == Splice(c, off, s)
  {
  }

  /** Laying two pieces one behind the other is laying them together. */
  lemma SpliceTwice(c: seq<byte>, off: nat, s: seq<byte>, t: seq<byte>)
    requires off <= |c|
    ensures off + |s| <= |Splice(c, off, s)|
    ensures Splice(Splice(c, off, s), off + |s|, t) == Splice(c, off, s + t)
  {
  }

  lemma SoFarPrefix(c0: seq<byte>, c: seq<byte>, size: nat, off: nat, s: seq<byte>)
    requires SoFar(c0, c, size, off, s) && s != []
    ensures off <= |c0| && off + |s| <= size && c[..off + |s|] == c0[..off] + s && c == Splice(c0, off, s)
  {
  }

  lemma ZeroMeta(owner: Owners, disk: Disk, I: Inodes, V: Views)
    requires Owned(owner, disk, I, V)
    ensures 0 in owner && owner[0] == Meta
  {
  }

  lemma StepNone(S: Snap, L: set<nat>)
    ensures Step(S, S, L)
  {
  }

  /** What a write takes belongs to the file. */
  lemma FreshIsData(S: Snap, S': Snap, i: nat, L: set<nat>, k0: nat, c: nat, u: nat)
    requires S.Ok() && S'.Ok() && i in S.inodes && i in S'.inodes && i in S.V && i in S'.V
    requires Trailing(S.bmapstart, {}, L, S.owner, S'.owner, S.V[i], S'.V[i], IndirectOf(S'.inodes[i]), k0, c, u)
    ensures Grown(S.owner, S'.owner) && Fresh(S.owner, S'.owner) <= L
    ensures forall b :: b in Fresh(S.owner, S'.owner) ==> b != 0 && b in S'.owner && !S'.owner[b].Meta?
  {
    hide Owned, Stored, NoHoles, BitsOk, BitBlocks, NewEntry;
    InodeFacts(S'.owner, S'.disk, S'.inodes, S'.V, i);
    InodeFacts(S.owner, S.disk, S.inodes, S.V, i);
    ZeroMeta(S.owner, S.disk, S.inodes, S.V);
    var v, t := S'.V[i], IndirectOf(S'.inodes[i]);
    forall b | b in Fresh(S.owner, S'.owner) ensures b != 0 && b in S'.owner && !S'.owner[b].Meta? {
      if b != t {
        var k: nat :| k0 + u <= k < k0 + c && k < |v| && v[k] == b;
      }
    }
  }

  lemma StepOfWrite(S: Snap, S': Snap, i: nat, L: set<nat>, L': set<nat>, k0: nat, c: nat, u: nat)
    requires S.Ok() && S'.Ok() && i in S.inodes && i in S'.inodes && i in S.V && i in S'.V
    requires S'.size == S.size && S'.bmapstart == S.bmapstart && S'.inodestart == S.inodestart
    requires OnlyLogged(S.disk, S.bitmap, S'.disk, S'.bitmap, S.bmapstart, L') && L <= L' && S.InodeBlock(i) in L'
    requires OthersKept(S.disk, S.inodes, S.V, S'.disk, S'.inodes, S'.V, i)
    requires Trailing(S.bmapstart, {}, L, S.owner, S'.owner, S.V[i], S'.V[i], IndirectOf(S'.inodes[i]), k0, c, u)
    ensures Step(S, S', L')
  {
    hide Snap.Ok, Owned, BitsOk, Trailing, OnlyLogged, OthersKept, OwnersKept, Fresh, Grown;
    FreshIsData(S, S', i, L, k0, c, u);
    FreshOwners(S.owner, S'.owner, L');
    OtherInodes(S.disk, S.inodes, S.V, S'.disk, S'.inodes, S'.V, i);
  }

  lemma StepOfTruncate(S: Snap, S': Snap, i: nat, L: set<nat>)
    requires S'.size == S.size && S'.bmapstart == S.bmapstart && S'.inodestart == S.inodestart && S.InodeBlock(i) in L
    requires OnlyLogged(S.disk, S.bitmap, S'.disk, S'.bitmap, S.bmapstart, L) && S'.owner == Disowned(S.owner, i)
    requires OthersKept(S.disk, S.inodes, S.V, S'.disk, S'.inodes, S'.V, i)
    ensures Step(S, S', L)
  {
    hide OnlyLogged;
  }

  lemma FreshOwners(owner: Owners, owner': Owners, L: set<nat>)
    requires Grown(owner, owner') && Fresh(owner, owner') <= L
    requires forall b :: b in Fresh(owner, owner') ==> b in owner' && !owner'[b].Meta?
    ensures OwnersKept(owner, owner', L)
  {
    assert forall b :: b in owner' && b !in owner ==> b in Fresh(owner, owner');
  }

  lemma OtherInodes(disk: Disk, I: Inodes, V: Views, disk': Disk, I': Inodes, V': Views, i: nat)
    requires OthersKept(disk, I, V, disk', I', V', i)
    ensures I'.Keys == I.Keys && forall j :: j in I && j != i ==> I'[j] == I[j]
  {
  }

  // ---------- the bound is reached ----------

  /** A block of metadata. */
  predicate IsMeta(owner: Owners, b: nat) { b in owner && owner[b].Meta? }

  /**
    A write of three blocks that starts inside the last direct block of a file without an indirect
    block, on a disk with five free blocks no two of which have their bits in the same block.
   */
  ghost predicate Tight(S: Snap, i: nat, off: nat, n: nat) {
    && i in S.inodes && n == 3 * BSIZE && 11 * BSIZE < off < 12 * BSIZE && off <= S.inodes[i].size
    && IndirectOf(S.inodes[i]) == 0 && IsMeta(S.owner, S.InodeBlock(i))
    && (forall b: nat :: IsFree(S, b) ==>
          IsMeta(S.owner, BitBlock(S.bmapstart, b)) && BitBlock(S.bmapstart, b) != S.InodeBlock(i))
    && (forall b: nat, c: nat :: IsFree(S, b) && IsFree(S, c) && b != c ==> b / BPB != c / BPB)
    && (exists F: set<nat> :: AllFree(S, F) && |F| == 5)
  }

  predicate IsFree(S: Snap, b: nat) { b < S.size && b !in S.owner }

  predicate AllFree(S: Snap, F: set<nat>) { forall b :: b in F ==> IsFree(S, b) }

  lemma TightFits(S: Snap, i: nat, off: nat, n: nat)
    requires Tight(S, i, off, n)
    ensures i in S.inodes && !(off > S.inodes[i].size || off + n >= UINT || off + n > MAXFILE * BSIZE)
    ensures off / BSIZE == 11 && Unaligned(off) == 1 && Span(off, n) == 4 && Blocks(off + n) == 15
  {
  }

  /** With five free blocks, a write that takes at most four does not meet a full disk. */
  lemma NotFull(S: Snap, S': Snap, i: nat, off: nat, n: nat, L: set<nat>, c: nat)
    requires Tight(S, i, off, n) && S'.Ok() && S'.size == S.size && i in S'.inodes && i in S.V && i in S'.V && c <= 4
    requires Trailing(S.bmapstart, {}, L, S.owner, S'.owner, S.V[i], S'.V[i], IndirectOf(S'.inodes[i]), 11, c, 1)
    ensures exists b: nat :: IsFree(S', b)
  {
    hide Owned, BitsOk, TakingLogs, BlocksOf, NewEntry, Trailing, Grown, Fresh, IsMeta;
    var F: set<nat> :| AllFree(S, F) && |F| == 5;
    var taken := BlocksOf(S'.V[i], 12, 11 + c) + {IndirectOf(S'.inodes[i])};
    BlocksCard(S'.V[i], 12, 11 + c);
    if F <= taken { SubsetCard(F, taken); }
    var b :| b in F && b !in taken;
    TrailInside(S.bmapstart, L, S.owner, S'.owner, S.V[i], S'.V[i], IndirectOf(S'.inodes[i]), 11, c, 1);
    NotTaken(S.owner, S'.owner, b);
    assert IsFree(S', b);
  }

  lemma NotTaken(owner: Owners, owner': Owners, b: nat)
    requires b !in owner && b !in Fresh(owner, owner')
    ensures b !in owner'
  {
  }

  /** The bound is reached: such a write succeeds and logs exactly ten blocks. */
  lemma TenExactly(S: Snap, S': Snap, i: nat, off: nat, n: nat, L: set<nat>, c: nat, r: int)
    requires S.Ok() && S'.Ok() && Tight(S, i, off, n) && i in S'.inodes && i in S.V && i in S'.V
    requires S'.size == S.size && S'.bmapstart == S.bmapstart && S'.inodestart == S.inodestart
    requires 0 <= r <= n && S'.inodes[i].size == Max(S.inodes[i].size, off + r) && c <= Span(off, n)
    requires if r == n then c == Span(off, n) else NoneFree(S'.owner, S'.size)
    requires Trailing(S.bmapstart, {}, L, S.owner, S'.owner, S.V[i], S'.V[i], IndirectOf(S'.inodes[i]), off / BSIZE, c,
                      Unaligned(off))
    ensures |L + {S.InodeBlock(i)}| == MAXOPBLOCKS
  {
    hide Owned, BitsOk, Trailing, Tight, Span;
    TightFits(S, i, off, n);
    NotFull(S, S', i, off, n, L, c);
    FourNew(S, S', i, off, n, L);
    var v, t := S'.V[i], IndirectOf(S'.inodes[i]);
    FiveApart(S'.owner, i, t, v);
    TenBlocks(S, S', i, off, n, L);
  }

  /** Blocks 12 to 14 of the file and its indirect block are new. */
  lemma FourNew(S: Snap, S': Snap, i: nat, off: nat, n: nat, L: set<nat>)
    requires S.Ok() && S'.Ok() && Tight(S, i, off, n) && i in S'.inodes && i in S.V && i in S'.V && S'.size == S.size
    requires S'.inodes[i].size >= off + n
    requires Trailing(S.bmapstart, {}, L, S.owner, S'.owner, S.V[i], S'.V[i], IndirectOf(S'.inodes[i]), 11, 4, 1)
    ensures var v, t := S'.V[i], IndirectOf(S'.inodes[i]);
            && |v| == MAXFILE && |S.V[i]| == MAXFILE && S.V[i][12] == 0 && FileOk(S'.owner, i, t, v)
                  && Grown(S.owner, S'.owner)
            && v[11] != 0 && IsNew(S, S', v[12]) && IsNew(S, S', v[13]) && IsNew(S, S', v[14]) && IsNew(S, S', t)
  {
    hide Owned, BitsOk, Trailing, Tight, Stored, FileOk, Fresh, BlocksOf, Grown, IsNew;
    TightFits(S, i, off, n);
    TightFile(S, i, off, n);
    InodeFacts(S.owner, S.disk, S.inodes, S.V, i);
    InodeFacts(S'.owner, S'.disk, S'.inodes, S'.V, i);
    TableFacts(S.owner, S.disk, S.inodes, S.V, i);
    TableFacts(S'.owner, S'.disk, S'.inodes, S'.V, i);
    TrailGrown(S.bmapstart, L, S.owner, S'.owner, S.V[i], S'.V[i], IndirectOf(S'.inodes[i]), 11, 4, 1);
    var v, t := S'.V[i], IndirectOf(S'.inodes[i]);
    FifteenThere(v, S'.inodes[i].size, off + n);
    NewSlot(S, S', i, 12);
    NewSlot(S, S', i, 13);
    NewSlot(S, S', i, 14);
    NewTableBlock(S, S', i);
  }

  lemma TightFile(S: Snap, i: nat, off: nat, n: nat)
    requires Tight(S, i, off, n)
    ensures i in S.inodes && IndirectOf(S.inodes[i]) == 0
  {
  }

  lemma TrailGrown(bmapstart: nat, L: set<nat>, owner: Owners, owner': Owners, v: seq<nat>, v': seq<nat>, t: nat,
                   k0: nat, c: nat, u: nat)
    requires Trailing(bmapstart, {}, L, owner, owner', v, v', t, k0, c, u)
    ensures Grown(owner, owner') && |v'| == |v|
  {
    hide Grown, Fresh, BlocksOf;
  }

  lemma FifteenThere(v: seq<nat>, size: nat, end: nat)
    requires NoHoles(v, size) && |v| == MAXFILE && Blocks(end) == 15 && size >= end
    ensures v[11] != 0 && v[12] != 0 && v[13] != 0 && v[14] != 0
  {
    assert Blocks(size) >= 15;
  }

  /** A block that was free, in range, and now belongs to a file. */
  ghost predicate IsNew(S: Snap, S': Snap, b: nat) {
    b != 0 && IsFree(S, b) && b in S'.owner && !S'.owner[b].Meta?
  }

  lemma NotItsData(owner: Owners, disk: Disk, I: Inodes, V: Views, b: nat, i: nat, k: nat)
    requires Owned(owner, disk, I, V) && i in V && k < |V[i]| && V[i][k] != b
    ensures b in owner ==> owner[b] != Data(i, k)
  {
  }

  lemma NotItsTable(owner: Owners, disk: Disk, I: Inodes, V: Views, b: nat, i: nat)
    requires Owned(owner, disk, I, V) && i in I && IndirectOf(I[i]) != b
    ensures b in owner ==> owner[b] != Table(i)
  {
  }

  lemma NewSlot(S: Snap, S': Snap, i: nat, k: nat)
    requires S.Ok() && S'.Ok() && S'.size == S.size && Grown(S.owner, S'.owner) && i in S.V && i in S'.V
    requires i in S'.inodes
    requires k < |S.V[i]| && S.V[i][k] == 0 && k < |S'.V[i]| && S'.V[i][k] != 0
    ensures IsNew(S, S', S'.V[i][k])
  {
    hide Owned, BitsOk, Stored, NoHoles;
    var b := S'.V[i][k];
    InodeFacts(S'.owner, S'.disk, S'.inodes, S'.V, i);
    InUse(S'.bitmap, S'.owner, S'.size, b);
    NotItsData(S.owner, S.disk, S.inodes, S.V, b, i, k);
  }

  lemma NewTableBlock(S: Snap, S': Snap, i: nat)
    requires S.Ok() && S'.Ok() && S'.size == S.size && Grown(S.owner, S'.owner) && i in S.inodes && i in S'.inodes
    requires IndirectOf(S.inodes[i]) == 0 && IndirectOf(S'.inodes[i]) != 0
    ensures IsNew(S, S', IndirectOf(S'.inodes[i]))
  {
    var t := IndirectOf(S'.inodes[i]);
    hide Owned, BitsOk, Stored, NoHoles;
    InodeFacts(S'.owner, S'.disk, S'.inodes, S'.V, i);
    InUse(S'.bitmap, S'.owner, S'.size, t);
    NotItsTable(S.owner, S.disk, S.inodes, S.V, t, i);
  }

  lemma TenBlocks(S: Snap, S': Snap, i: nat, off: nat, n: nat, L: set<nat>)
    requires Tight(S, i, off, n) && i in S'.inodes && i in S.V && i in S'.V && Grown(S.owner, S'.owner)
    requires Trailing(S.bmapstart, {}, L, S.owner, S'.owner, S.V[i], S'.V[i], IndirectOf(S'.inodes[i]), 11, 4, 1)
    requires var v, t := S'.V[i], IndirectOf(S'.inodes[i]);
             && |v| == |S.V[i]| == MAXFILE && S.V[i][12] == 0 && FileOk(S'.owner, i, t, v) && v[11] != 0
             && IsNew(S, S', v[12]) && IsNew(S, S', v[13]) && IsNew(S, S', v[14]) && IsNew(S, S', t)
             && v[11] !in {v[12], v[13], v[14], t} && v[12] !in {v[13], v[14], t} && v[13] !in {v[14], t} && v[14] != t
    ensures |L + {S.InodeBlock(i)}| == 10
  {
    hide Trailing, FileOk;
    var v, t, ib := S'.V[i], IndirectOf(S'.inodes[i]), S.InodeBlock(i);
    var a, b, c, d := v[11], v[12], v[13], v[14];
    var B, C, D, T := BitBlock(S.bmapstart, b), BitBlock(S.bmapstart, c), BitBlock(S.bmapstart, d),
      BitBlock(S.bmapstart, t);
    FourTaken(S.owner, S'.owner, S.V[i], v, t, i, S.bmapstart, L);
    assert a in S'.owner && !S'.owner[a].Meta? by { FirstOwned(S'.owner, i, t, v); }
    MetaApart(S, S', i, off, n, a, b, c, d, t);
    assert L + {ib} == {a, b, c, d, t, B, C, D, T, ib};
    TenApart(a, b, c, d, t, B, C, D, T, ib);
  }

  lemma FirstOwned(owner: Owners, i: nat, t: nat, v: seq<nat>)
    requires FileOk(owner, i, t, v) && 11 < |v| && v[11] != 0
    ensures v[11] in owner && !owner[v[11]].Meta?
  {
  }

  /** Blocks of files are none of the blocks of the free map or of inodes, and those differ. */
  lemma MetaApart(S: Snap, S': Snap, i: nat, off: nat, n: nat, a: nat, b: nat, c: nat, d: nat, t: nat)
    requires Tight(S, i, off, n) && Grown(S.owner, S'.owner) && a in S'.owner && !S'.owner[a].Meta?
    requires IsNew(S, S', b) && IsNew(S, S', c) && IsNew(S, S', d) && IsNew(S, S', t)
    requires b !in {c, d, t} && c !in {d, t} && d != t
    ensures var B, C, D, T := BitBlock(S.bmapstart, b), BitBlock(S.bmapstart, c), BitBlock(S.bmapstart, d),
            BitBlock(S.bmapstart, t);
            var M := {B, C, D, T, S.InodeBlock(i)};
            && a !in M && b !in M && c !in M && d !in M && t !in M
            && B !in {C, D, T, S.InodeBlock(i)} && C !in {D, T, S.InodeBlock(i)} && D !in {T, S.InodeBlock(i)}
            && T != S.InodeBlock(i)
  {
  }

  lemma FourTaken(owner: Owners, owner': Owners, v: seq<nat>, v': seq<nat>, t: nat, i: nat, bmapstart: nat, L: set<nat>)
    requires Trailing(bmapstart, {}, L, owner, owner', v, v', t, 11, 4, 1) && FileOk(owner', i, t, v')
    requires |v| == |v'| == MAXFILE
    requires v[12] == 0 && v'[12] != 0 && v'[13] != 0 && v'[14] != 0 && t != 0
    requires v'[12] !in owner && v'[13] !in owner && v'[14] !in owner && t !in owner
    ensures var b, c, d := v'[12], v'[13], v'[14];
            L == {v'[11], b, c, d, t, BitBlock(bmapstart, b), BitBlock(bmapstart, c), BitBlock(bmapstart, d),
                  BitBlock(bmapstart, t)}
  {
    hide BlocksOf, NewEntry, Fresh, BitBlocks, FileOk, TrailOk;
    var F := Fresh(owner, owner');
    LastBlocks(v');
    TakenFour(owner, owner', v, v', t, i);
    assert F <= BlocksOf(v', 12, 15) + {t} by { TrailBounds(owner, owner', v, v', t, 11, 4, 1); }
    assert F == {v'[12], v'[13], v'[14], t};
    FourBits(bmapstart, v'[12], v'[13], v'[14], t);
  }

  lemma LastBlocks(v: seq<nat>)
    requires |v| == MAXFILE
    ensures BlocksOf(v, 12, 15) == {v[12], v[13], v[14]} && BlocksOf(v, 11, 15) == {v[11], v[12], v[13], v[14]}
  {
  }

  /** Three new blocks behind the direct ones, and the indirect block. */
  lemma TakenFour(owner: Owners, owner': Owners, v: seq<nat>, v': seq<nat>, t: nat, i: nat)
    requires FileOk(owner', i, t, v') && |v| == |v'| == MAXFILE
    requires v[12] == 0 && v'[12] != 0 && v'[13] != 0 && v'[14] != 0 && t != 0
    requires v'[12] !in owner && v'[13] !in owner && v'[14] !in owner && t !in owner
    ensures {v'[12], v'[13], v'[14], t} <= Fresh(owner, owner') && NewEntry(v, v')
  {
  }

  lemma TrailBounds(owner: Owners, owner': Owners, v: seq<nat>, v': seq<nat>, t: nat, k0: nat, c: nat, u: nat)
    requires TrailOk(owner, owner', v, v', t, k0, c, u)
    ensures Fresh(owner, owner') <= BlocksOf(v', k0 + u, k0 + c) + {t}
  {
  }

  lemma FiveApart(owner: Owners, i: nat, t: nat, v: seq<nat>)
    requires FileOk(owner, i, t, v) && |v| == MAXFILE && v[11] != 0 && v[12] != 0 && v[13] != 0 && v[14] != 0 && t != 0
    ensures v[11] !in {v[12], v[13], v[14], t} && v[12] !in {v[13], v[14], t} && v[13] !in {v[14], t} && v[14] != t
  {
  }

  lemma FourBits(bmapstart: nat, a: nat, b: nat, c: nat, d: nat)
    ensures BitBlocks(bmapstart, {a, b, c, d}) ==
            {BitBlock(bmapstart, a), BitBlock(bmapstart, b), BitBlock(bmapstart, c), BitBlock(bmapstart, d)}
  {
  }

  lemma TenApart(a: nat, b: nat, c: nat, d: nat, e: nat, f: nat, g: nat, h: nat, i: nat, j: nat)
    requires a !in {b, c, d, e, f, g, h, i, j} && b !in {c, d, e, f, g, h, i, j} && c !in {d, e, f, g, h, i, j}
    requires d !in {e, f, g, h, i, j} && e !in {f, g, h, i, j} && f !in {g, h, i, j} && g !in {h, i, j} && h !in {i, j}
    requires i != j
    ensures |{a, b, c, d, e, f, g, h, i, j}| == 10
  {
  }

  // ---------- what the invariant says about blocks ----------

  /**
    Blocks reached through direct slots, indirect blocks and their entries are all different, across
    all files, and all marked.
   */
  lemma AllDistinct(owner: Owners, disk: Disk, I: Inodes, V: Views, bitmap: seq<bv8>, size: nat, i: nat, k: nat,
                    j: nat, m: nat)
    requires Owned(owner, disk, I, V) && BitsOk(bitmap, owner, size) && i in I && j in I && k < MAXFILE && m < MAXFILE
    ensures i in V && j in V && |V[i]| == MAXFILE && |V[j]| == MAXFILE
    ensures V[i][k] != 0 && V[i][k] == V[j][m] ==> i == j && k == m
    ensures V[i][k] != 0 ==> V[i][k] != IndirectOf(I[j])
    ensures IndirectOf(I[i]) != 0 && IndirectOf(I[i]) == IndirectOf(I[j]) ==> i == j
    ensures V[i][k] != 0 ==> V[i][k] < size && IsSet(bitmap, V[i][k])
    ensures IndirectOf(I[i]) != 0 ==> IndirectOf(I[i]) < size && IsSet(bitmap, IndirectOf(I[i]))
  {
    hide IsSet;
    InodeFacts(owner, disk, I, V, i);
    InodeFacts(owner, disk, I, V, j);
  }

  /** A marked block is metadata or some file reaches it: nothing leaks. */
  lemma NothingLeaks(owner: Owners, disk: Disk, I: Inodes, V: Views, bitmap: seq<bv8>, size: nat, b: nat)
    requires Owned(owner, disk, I, V) && BitsOk(bitmap, owner, size) && b < size && IsSet(bitmap, b)
    ensures b in owner && (owner[b].Meta? || exists i :: i in I && (b == IndirectOf(I[i]) || (i in V && b in V[i])))
  {
    hide IsSet;
    assert OwnerOk(owner, I, V, b);
    match owner[b]
    case Meta =>
    case Data(i, k) => assert i in I && i in V && V[i][k] in V[i];
    case Table(i) => assert i in I;
  }
}
