/**
  Blocks of files as values: bits of the free map, the entries of an indirect block, who owns
  which block, and the bytes a file's blocks spell.
 */
module FileBlocks {
  import opened DiskBlocks

  const NDIRECT: nat := 12
  const MAXFILE: nat := 268 // NDIRECT + WORDS
  const BPB: nat := 8192    // bits in one block of the free map
  const IPB: nat := 16      // inodes in one block

  // ---------- the free map ----------

  function Mask(b: nat): bv8 {
    match b % 8
    case 0 => 1 case 1 => 2 case 2 => 4 case 3 => 8 case 4 => 16 case 5 => 32 case 6 => 64 case _ => 128
  }

  predicate Bit(x: bv8, b: nat) { x & Mask(b) != 0 }

  function WithBit(x: bv8, b: nat): bv8 { x | Mask(b) }

  function WithoutBit(x: bv8, b: nat): bv8 { x & !Mask(b) }

  predicate IsSet(m: seq<bv8>, b: nat)
    requires b / 8 < |m|
  {
    Bit(m[b / 8], b)
  }

  function Mark(m: seq<bv8>, b: nat): seq<bv8>
    requires b / 8 < |m|
  {
    m[b / 8 := WithBit(m[b / 8], b)]
  }

  function Clear(m: seq<bv8>, b: nat): seq<bv8>
    requires b / 8 < |m|
  {
    m[b / 8 := WithoutBit(m[b / 8], b)]
  }

  lemma OneBit(x: bv8, b: nat, c: nat)
    ensures Bit(WithBit(x, b), c) <==> b % 8 == c % 8 || Bit(x, c)
    ensures Bit(WithoutBit(x, b), c) <==> b % 8 != c % 8 && Bit(x, c)
  {
    hide Mask;
    MaskIs(b);
    MaskIs(c);
    MasksDiffer(b, c);
    TwoMasks(x, Mask(b), Mask(c));
  }

  lemma MaskIs(b: nat)
    ensures Mask(b) in {1, 2, 4, 8, 16, 32, 64, 128}
  {
  }

  lemma MasksDiffer(b: nat, c: nat)
    ensures b % 8 == c % 8 <==> Mask(b) == Mask(c)
  {
  }

  lemma TwoMasks(x: bv8, p: bv8, q: bv8)
    requires p in {1, 2, 4, 8, 16, 32, 64, 128} && q in {1, 2, 4, 8, 16, 32, 64, 128}
    ensures (x | p) & p != 0 && (x & !p) & p == 0
    ensures p != q ==> (x | p) & q == x & q && (x & !p) & q == x & q
  {
  }

  /** Marking or clearing one block's bit changes that bit and no other. */
  lemma BitRoundTrip(m: seq<bv8>, b: nat, c: nat)
    requires b / 8 < |m| && c / 8 < |m|
    ensures IsSet(Mark(m, b), c) <==> c == b || IsSet(m, c)
    ensures IsSet(Clear(m, b), c) <==> c != b && IsSet(m, c)
  {
    hide Mask, Bit, WithBit, WithoutBit;
    OneBit(m[b / 8], b, c);
    assert c / 8 == b / 8 && c % 8 == b % 8 <==> c == b;
  }

  // ---------- who owns a block ----------

  type Disk = map<nat, Block>
  type Views = map<nat, seq<nat>> // for each inode, the address of each block of its file; 0 for none

  datatype Inode = Inode(size: nat, addrs: seq<nat>)
  type Inodes = map<nat, Inode>

  datatype Owner = Meta | Data(inum: nat, slot: nat) | Table(inum: nat)
  type Owners = map<nat, Owner>

  function With(v: seq<nat>, k: nat, a: nat): seq<nat>
    requires k < |v|
  {
    v[k := a]
  }

  function Blocks(n: nat): nat { (n + BSIZE - 1) / BSIZE }

  /** The view is what the direct slots and the indirect block spell out. */
  ghost predicate Stored(disk: Disk, ino: Inode, v: seq<nat>) {
    && |ino.addrs| == NDIRECT + 1 && |v| == MAXFILE
    && (forall k: nat :: k < NDIRECT ==> v[k] == ino.addrs[k])
    && var t := ino.addrs[NDIRECT];
       if t == 0 then forall k: nat :: NDIRECT <= k < MAXFILE ==> v[k] == 0
       else t in disk && forall k: nat :: NDIRECT <= k < MAXFILE ==> v[k] == Entry(disk[t], k - NDIRECT)
  }

  ghost predicate FileOk(owner: Owners, i: nat, t: nat, v: seq<nat>) {
    && (forall k: nat :: k < |v| && v[k] != 0 ==> v[k] in owner && owner[v[k]] == Data(i, k))
    && (t != 0 ==> t in owner && owner[t] == Table(i))
  }

  /** Every block below the end of the file is there. */
  ghost predicate NoHoles(v: seq<nat>, size: nat) {
    size <= MAXFILE * BSIZE && forall k: nat :: k < |v| && k < Blocks(size) ==> v[k] != 0
  }

  ghost predicate InodeOk(owner: Owners, disk: Disk, I: Inodes, V: Views, i: nat)
    requires i in I
  {
    i in V && Stored(disk, I[i], V[i]) && FileOk(owner, i, I[i].addrs[NDIRECT], V[i]) && NoHoles(V[i], I[i].size)
  }

  /** A block in use is where its owner says. */
  ghost predicate OwnerOk(owner: Owners, I: Inodes, V: Views, b: nat)
    requires b in owner
  {
    match owner[b]
    case Meta => true
    case Data(i, k) => i in V && k < |V[i]| && V[i][k] == b
    case Table(i) => i in I && |I[i].addrs| == NDIRECT + 1 && I[i].addrs[NDIRECT] == b
  }

  ghost predicate Owned(owner: Owners, disk: Disk, I: Inodes, V: Views) {
    && 0 in owner && owner[0] == Meta
    && (forall b :: b in owner ==> b in disk && b < UINT && OwnerOk(owner, I, V, b))
    && V.Keys == I.Keys
    && (forall i :: i in I ==> InodeOk(owner, disk, I, V, i))
  }

  /** The free map marks exactly the blocks in use. */
  ghost predicate BitsOk(bitmap: seq<bv8>, owner: Owners, size: nat) {
    && size <= 8 * |bitmap| && size <= UINT && (forall b :: b in owner ==> b < size)
    && (forall b: nat :: b < size ==> (IsSet(bitmap, b) <==> b in owner))
  }

  /** Blocks of other inodes are where they were and hold what they held. */
  ghost predicate OthersKept(disk: Disk, I: Inodes, V: Views, disk': Disk, I': Inodes, V': Views, i: nat) {
    && I'.Keys == I.Keys && V'.Keys == V.Keys
    && (forall j :: j in I && j != i ==> I'[j] == I[j])
    && (forall j :: j in V && j != i ==> V'[j] == V[j])
    && (forall j, k: nat :: j in V && j != i && k < |V[j]| && V[j][k] != 0 ==>
          V[j][k] in disk && V[j][k] in disk' && disk'[V[j][k]] == disk[V[j][k]])
  }

  function ByteAt(disk: Disk, v: seq<nat>, p: nat): byte {
    if p / BSIZE < |v| && v[p / BSIZE] in disk then disk[v[p / BSIZE]][p % BSIZE] else 0
  }

  /** The bytes of a file. */
  function Content(disk: Disk, v: seq<nat>, size: nat): (c: seq<byte>)
    ensures |c| == size && forall p: nat :: p < size ==> c[p] == ByteAt(disk, v, p)
  {
    seq(size, p requires 0 <= p => ByteAt(disk, v, p))
  }

  /** Keeping another inode's blocks keeps its contents. */
  lemma ContentKept(owner: Owners, disk: Disk, I: Inodes, V: Views, disk': Disk, I': Inodes, V': Views, i: nat, j: nat)
    requires Owned(owner, disk, I, V) && OthersKept(disk, I, V, disk', I', V', i) && j in I && j != i
    ensures I'[j] == I[j] && Content(disk', V'[j], I'[j].size) == Content(disk, V[j], I[j].size)
  {
    assert InodeOk(owner, disk, I, V, j);
    forall p: nat | p < I[j].size ensures ByteAt(disk', V'[j], p) == ByteAt(disk, V[j], p) {
      assert p / BSIZE < Blocks(I[j].size);
    }
  }

  lemma OthersSame(owner: Owners, disk: Disk, I: Inodes, V: Views, i: nat)
    requires Owned(owner, disk, I, V)
    ensures OthersKept(disk, I, V, disk, I, V, i)
  {
    forall j, k: nat | j in V && k < |V[j]| && V[j][k] != 0 ensures V[j][k] in disk {
      assert InodeOk(owner, disk, I, V, j);
    }
  }

  lemma OthersTrans(disk: Disk, I: Inodes, V: Views, disk1: Disk, I1: Inodes, V1: Views, disk2: Disk, I2: Inodes,
                    V2: Views, i: nat)
    requires OthersKept(disk, I, V, disk1, I1, V1, i) && OthersKept(disk1, I1, V1, disk2, I2, V2, i)
    ensures OthersKept(disk, I, V, disk2, I2, V2, i)
  {
  }

  // ---------- writing, taking and releasing a block ----------

  /** Writing a data block of `i`, or a free block, disturbs no structure. */
  lemma WriteBlock(owner: Owners, disk: Disk, I: Inodes, V: Views, a: nat, b: Block, i: nat)
    requires Owned(owner, disk, I, V) && (a in owner ==> owner[a].Data? && owner[a].inum == i)
    ensures Owned(owner, disk[a := b], I, V) && OthersKept(disk, I, V, disk[a := b], I, V, i)
  {
    var disk' := disk[a := b];
    forall j | j in I ensures InodeOk(owner, disk', I, V, j) {
      assert InodeOk(owner, disk, I, V, j);
    }
    forall j, k: nat | j in V && j != i && k < |V[j]| && V[j][k] != 0
      ensures V[j][k] in disk && V[j][k] in disk' && disk'[V[j][k]] == disk[V[j][k]]
    {
      assert InodeOk(owner, disk, I, V, j);
    }
  }

  /** `ino` and `disk1` are file `i` with its block `k` at the fresh address `a`; only its indirect block may differ. */
  ghost predicate Taken(owner: Owners, disk: Disk, ino0: Inode, v: seq<nat>, i: nat, k: nat, a: nat, disk1: Disk,
                        ino: Inode) {
    && k < |v| && v[k] == 0 && a !in owner && a < UINT && a in disk && a != 0
    && ino.size == ino0.size && |ino.addrs| == NDIRECT + 1 && |ino0.addrs| == NDIRECT + 1
    && ino.addrs[NDIRECT] == ino0.addrs[NDIRECT] && Stored(disk1, ino, With(v, k, a))
    && disk1.Keys == disk.Keys && (forall b :: b in disk && b != ino.addrs[NDIRECT] ==> disk1[b] == disk[b])
  }

  lemma TakeDataInode(owner: Owners, disk: Disk, I: Inodes, V: Views, i: nat, k: nat, a: nat, disk1: Disk, ino: Inode,
                      j: nat)
    requires i in I && j in I && InodeOk(owner, disk, I, V, i) && InodeOk(owner, disk, I, V, j)
    requires Taken(owner, disk, I[i], V[i], i, k, a, disk1, ino)
    ensures InodeOk(owner[a := Data(i, k)], disk1, I[i := ino], V[i := With(V[i], k, a)], j)
    ensures j != i ==> forall m: nat :: m < |V[j]| && V[j][m] in disk && V[j][m] != 0 ==>
              disk1[V[j][m]] == disk[V[j][m]]
  {
  }

  lemma TakeDataOwner(owner: Owners, disk: Disk, I: Inodes, V: Views, i: nat, k: nat, a: nat, disk1: Disk, ino: Inode,
                      b: nat)
    requires i in I && i in V && Taken(owner, disk, I[i], V[i], i, k, a, disk1, ino)
    requires b in owner && b != 0 && OwnerOk(owner, I, V, b)
    ensures OwnerOk(owner[a := Data(i, k)], I[i := ino], V[i := With(V[i], k, a)], b)
  {
  }

  /** A fresh block becomes block `k` of file `i`. */
  lemma TakeData(owner: Owners, disk: Disk, I: Inodes, V: Views, i: nat, k: nat, a: nat, disk1: Disk, ino: Inode)
    requires Owned(owner, disk, I, V) && i in I && Taken(owner, disk, I[i], V[i], i, k, a, disk1, ino)
    ensures Owned(owner[a := Data(i, k)], disk1, I[i := ino], V[i := With(V[i], k, a)])
    ensures OthersKept(disk, I, V, disk1, I[i := ino], V[i := With(V[i], k, a)], i)
  {
    hide InodeOk, OwnerOk;
    var owner', I', V' := owner[a := Data(i, k)], I[i := ino], V[i := With(V[i], k, a)];
    forall j | j in I ensures InodeOk(owner', disk1, I', V', j) {
      TakeDataInode(owner, disk, I, V, i, k, a, disk1, ino, j);
    }
    forall b | b in owner' ensures b in disk1 && b < UINT && OwnerOk(owner', I', V', b) {
      if b == a { NewOwner(owner, I, V, i, k, a, I'); }
      else if b == 0 { ZeroOwner(owner', I', V'); }
      else { TakeDataOwner(owner, disk, I, V, i, k, a, disk1, ino, b); }
    }
    TakeDataOthers(owner, disk, I, V, i, k, a, disk1, ino);
  }

  lemma NewOwner(owner: Owners, I: Inodes, V: Views, i: nat, k: nat, a: nat, I': Inodes)
    requires i in V && k < |V[i]|
    ensures OwnerOk(owner[a := Data(i, k)], I', V[i := With(V[i], k, a)], a)
  {
  }

  lemma ZeroOwner(owner: Owners, I: Inodes, V: Views)
    requires 0 in owner && owner[0] == Meta
    ensures OwnerOk(owner, I, V, 0)
  {
  }

  lemma TakeDataOthers(owner: Owners, disk: Disk, I: Inodes, V: Views, i: nat, k: nat, a: nat, disk1: Disk, ino: Inode)
    requires Owned(owner, disk, I, V) && i in I && Taken(owner, disk, I[i], V[i], i, k, a, disk1, ino)
    ensures OthersKept(disk, I, V, disk1, I[i := ino], V[i := With(V[i], k, a)], i)
  {
    OthersSame(owner, disk, I, V, i);
    hide InodeOk, OwnerOk, Taken;
    forall j, m: nat | j in V && j != i && m < |V[j]| && V[j][m] != 0
      ensures V[j][m] in disk && V[j][m] in disk1 && disk1[V[j][m]] == disk[V[j][m]]
    {
      TakeDataInode(owner, disk, I, V, i, k, a, disk1, ino, j);
      SameBlocks(owner, disk, I[i], V[i], i, k, a, disk1, ino);
    }
  }

  lemma SameBlocks(owner: Owners, disk: Disk, ino0: Inode, v: seq<nat>, i: nat, k: nat, a: nat, disk1: Disk, ino: Inode)
    requires Taken(owner, disk, ino0, v, i, k, a, disk1, ino)
    ensures disk1.Keys == disk.Keys && k < |v|
  {
  }

  /** With a zeroed indirect block, a file has the blocks it had without one. */
  lemma TableStored(disk: Disk, ino: Inode, v: seq<nat>, a: nat)
    requires Stored(disk, ino, v) && ino.addrs[NDIRECT] == 0 && a in disk && disk[a] == Zeros()
    ensures Stored(disk, ino.(addrs := With(ino.addrs, NDIRECT, a)), v)
  {
    hide Entry, Zeros;
    forall k: nat | NDIRECT <= k < MAXFILE ensures v[k] == Entry(disk[a], k - NDIRECT) {
      ZeroEntry(k - NDIRECT);
    }
  }

  lemma TakeTableInode(owner: Owners, disk: Disk, I: Inodes, V: Views, i: nat, a: nat, j: nat)
    requires i in I && j in I && InodeOk(owner, disk, I, V, i) && InodeOk(owner, disk, I, V, j)
    requires |I[i].addrs| == NDIRECT + 1 && I[i].addrs[NDIRECT] == 0
    requires a !in owner && a in disk && disk[a] == Zeros()
    ensures InodeOk(owner[a := Table(i)], disk, I[i := I[i].(addrs := With(I[i].addrs, NDIRECT, a))], V, j)
  {
    TableStored(disk, I[i], V[i], a);
    hide Stored, Zeros;
  }

  lemma TakeTableOwner(owner: Owners, I: Inodes, V: Views, i: nat, a: nat, b: nat)
    requires i in I && |I[i].addrs| == NDIRECT + 1 && I[i].addrs[NDIRECT] == 0
    requires b == a || (b in owner && OwnerOk(owner, I, V, b) && (b == 0 ==> owner[b] == Meta))
    ensures OwnerOk(owner[a := Table(i)], I[i := I[i].(addrs := With(I[i].addrs, NDIRECT, a))], V, b)
  {
  }

  /** A fresh zeroed block becomes the indirect block of file `i`. */
  lemma TakeTable(owner: Owners, disk: Disk, I: Inodes, V: Views, i: nat, a: nat)
    requires Owned(owner, disk, I, V) && i in I && |I[i].addrs| == NDIRECT + 1 && I[i].addrs[NDIRECT] == 0
    requires a !in owner && a < UINT && a in disk && disk[a] == Zeros()
    ensures var I' := I[i := I[i].(addrs := With(I[i].addrs, NDIRECT, a))];
            Owned(owner[a := Table(i)], disk, I', V) && OthersKept(disk, I, V, disk, I', V, i)
  {
    hide InodeOk, OwnerOk, Zeros;
    var owner', I' := owner[a := Table(i)], I[i := I[i].(addrs := With(I[i].addrs, NDIRECT, a))];
    OthersSame(owner, disk, I, V, i);
    forall j | j in I ensures InodeOk(owner', disk, I', V, j) {
      TakeTableInode(owner, disk, I, V, i, a, j);
    }
    forall b | b in owner' ensures OwnerOk(owner', I', V, b) {
      TakeTableOwner(owner, I, V, i, a, b);
    }
  }

  // ---------- bytes of a file across its blocks ----------

  /** Block `k` of the file may have been added or rewritten; the others are as they were. */
  ghost predicate OwnKept(disk: Disk, v: seq<nat>, disk': Disk, v': seq<nat>, k: nat) {
    && |v'| == |v|
    && (forall m: nat :: m < |v| && m != k ==> v'[m] == v[m])
    && (forall m: nat :: m < |v| && m != k && v[m] != 0 ==> v[m] in disk && v[m] in disk' && disk'[v[m]] == disk[v[m]])
  }

  ghost predicate Written(disk: Disk, v: seq<nat>, off: nat, piece: seq<byte>) {
    forall p: nat :: off <= p < off + |piece| ==>
                       p / BSIZE < |v| && v[p / BSIZE] != 0 && ByteAt(disk, v, p) == piece[p - off]
  }

  /** Bytes that were there and lie outside [lo, hi) are still there. */
  ghost predicate BytesKept(disk: Disk, v: seq<nat>, disk': Disk, v': seq<nat>, lo: nat, hi: nat) {
    && |v'| == |v|
    && (forall k: nat :: k < |v| && v[k] != 0 ==> v'[k] == v[k])
    && (forall p: nat :: p / BSIZE < |v| && v[p / BSIZE] != 0 && !(lo <= p < hi) ==>
        ByteAt(disk', v', p) == ByteAt(disk, v, p))
  }

  function Patch(b: Block, o: nat, piece: seq<byte>): (r: Block)
    requires o + |piece| <= BSIZE
    ensures forall q: nat :: q < BSIZE ==> r[q] == if o <= q < o + |piece| then piece[q - o] else b[q]
  {
    b[..o] + piece + b[o + |piece|..]
  }

  /** One block's worth of a write: bytes [off, off+|piece|) change and no others. */
  lemma ChunkWritten(disk: Disk, v: seq<nat>, disk1: Disk, v1: seq<nat>, off: nat, piece: seq<byte>, a: nat)
    requires off / BSIZE < |v| && off % BSIZE + |piece| <= BSIZE && a != 0 && v1 == With(v, off / BSIZE, a)
    requires OwnKept(disk, v, disk1, v1, off / BSIZE) && a in disk1
    requires (v[off / BSIZE] != 0 ==> v[off / BSIZE] == a && a in disk && disk1[a] == disk[a])
    requires forall m: nat :: m < |v| && m != off / BSIZE ==> v[m] != a
    ensures var disk2 := disk1[a := Patch(disk1[a], off % BSIZE, piece)];
            Written(disk2, v1, off, piece) && BytesKept(disk, v, disk2, v1, off, off + |piece|)
  {
    var k := off / BSIZE;
    var disk2 := disk1[a := Patch(disk1[a], off % BSIZE, piece)];
    forall p: nat | off <= p < off + |piece|
      ensures p / BSIZE < |v1| && v1[p / BSIZE] != 0 && ByteAt(disk2, v1, p) == piece[p - off]
    {
      assert p / BSIZE == k && p % BSIZE == off % BSIZE + (p - off);
    }
    forall p: nat | p / BSIZE < |v| && v[p / BSIZE] != 0 && !(off <= p < off + |piece|)
      ensures ByteAt(disk2, v1, p) == ByteAt(disk, v, p)
    {
      if p / BSIZE == k {
        assert !(off % BSIZE <= p % BSIZE < off % BSIZE + |piece|);
      }
    }
  }

  /** Consecutive pieces make one. */
  lemma PiecesJoin(disk0: Disk, v0: seq<nat>, disk1: Disk, v1: seq<nat>, disk2: Disk, v2: seq<nat>, off: nat,
                   s: seq<byte>, t: seq<byte>)
    requires Written(disk1, v1, off, s) && BytesKept(disk0, v0, disk1, v1, off, off + |s|)
    requires Written(disk2, v2, off + |s|, t) && BytesKept(disk1, v1, disk2, v2, off + |s|, off + |s| + |t|)
    ensures Written(disk2, v2, off, s + t) && BytesKept(disk0, v0, disk2, v2, off, off + |s + t|)
  {
  }

  /** `s` laid over `c` at `off`. */
  function Splice(c: seq<byte>, off: nat, s: seq<byte>): seq<byte>
    requires off <= |c|
  {
    c[..off] + s + if off + |s| < |c| then c[off + |s|..] else []
  }

  /** The bytes written are a splice of the contents, cut where the file ends. */
  lemma SplicedContent(disk0: Disk, v0: seq<nat>, size0: nat, disk1: Disk, v1: seq<nat>, size1: nat, off: nat,
                       s: seq<byte>)
    requires NoHoles(v0, size0) && |v0| == MAXFILE && off <= size0 && Written(disk1, v1, off, s)
    requires BytesKept(disk0, v0, disk1, v1, off, off + |s|)
    requires size0 <= size1 <= (if off + |s| > size0 then off + |s| else size0)
    ensures Content(disk1, v1, size1) == Splice(Content(disk0, v0, size0), off, s)[..size1] && NoHoles(v1, size1)
  {
    var c := Splice(Content(disk0, v0, size0), off, s);
    forall p: nat | p < size1 ensures p / BSIZE < |v1| && v1[p / BSIZE] != 0 && ByteAt(disk1, v1, p) == c[p] {
      if !(off <= p < off + |s|) {
        assert p / BSIZE < Blocks(size0);
      }
    }
    if size1 > 0 {
      assert (size1 - 1) / BSIZE < MAXFILE;
    }
    forall k: nat | k < Blocks(size1) ensures k < |v1| && v1[k] != 0 {
      assert k * BSIZE < size1 && (k * BSIZE) / BSIZE == k;
    }
  }
}
