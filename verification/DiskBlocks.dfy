/** Block-level constants, blocks, and the disk image shared by the log, the buffer cache and the file system. */
module DiskBlocks {
  const MAXOPBLOCKS: nat := 10               // most blocks one system call may log
  const LOGBLOCKS: nat := MAXOPBLOCKS * 3    // data blocks in the on-disk log
  const NBUF: nat := MAXOPBLOCKS * 3         // buffers in the cache
  const BSIZE: nat := 1024                   // bytes per block
  const WORDS: nat := 256                    // 32-bit words per block
  const UINT: nat := 0x1_0000_0000

  type byte = x: nat | x < 256
  type Block = b: seq<byte> | |b| == BSIZE witness seq(BSIZE, _ => 0)

  /** The contents of a disk: one block per block number. */
  type Image = seq<Block>

  function Zeros(): (b: Block)
    ensures forall p: nat :: p < BSIZE ==> b[p] == 0
  {
    seq(BSIZE, _ => 0)
  }

  // ---------- words: little-endian uints ----------

  /** Word `j` of a block: an entry of an indirect block, of the log header or of an inode. */
  function Entry(b: Block, j: nat): (v: nat)
    requires j < WORDS
  {
    FromBytes(b[4 * j], b[4 * j + 1], b[4 * j + 2], b[4 * j + 3])
  }

  function FromBytes(b0: byte, b1: byte, b2: byte, b3: byte): nat { b0 + 256 * b1 + 65536 * b2 + 16777216 * b3 }

  /** Byte `n` of a number, the lowest being byte 0. */
  function Digit(v: nat, n: nat): byte {
    if n == 0 then v % 256 else Digit(v / 256, n - 1)
  }

  function SetEntry(b: Block, j: nat, v: nat): Block
    requires j < WORDS && v < UINT
  {
    b[4 * j := Digit(v, 0)][4 * j + 1 := Digit(v, 1)][4 * j + 2 := Digit(v, 2)][4 * j + 3 := Digit(v, 3)]
  }

  lemma DigitsJoin(v: nat)
    requires v < UINT
    ensures FromBytes(Digit(v, 0), Digit(v, 1), Digit(v, 2), Digit(v, 3)) == v
  {
    var w := v / 256;
    assert Digit(v, 1) == Digit(w, 0) && Digit(v, 2) == Digit(w, 1) && Digit(v, 3) == Digit(w, 2);
    var x := w / 256;
    assert Digit(w, 1) == Digit(x, 0) && Digit(w, 2) == Digit(x, 1);
    assert Digit(x, 1) == x / 256;
  }

  /** Writing one entry changes that entry and no other. */
  lemma EntryRoundTrip(b: Block, j: nat, v: nat, k: nat)
    requires j < WORDS && k < WORDS && v < UINT
    ensures Entry(SetEntry(b, j, v), k) == if k == j then v else Entry(b, k)
  {
    DigitsJoin(v);
    hide FromBytes, Digit;
  }

  lemma ZeroEntry(k: nat)
    requires k < WORDS
    ensures Entry(Zeros(), k) == 0
  {
  }

  predicate Uints(list: seq<nat>) {
    forall i :: 0 <= i < |list| ==> list[i] < UINT
  }

  /** The list as the words from word `at` on. */
  function PutWords(blk: Block, at: nat, list: seq<nat>): Block
    requires at + |list| <= WORDS && Uints(list)
  {
    if list == [] then blk
    else SetEntry(PutWords(blk, at, list[..|list| - 1]), at + |list| - 1, list[|list| - 1])
  }

  /** The `n` words from word `at` on. */
  function GetWords(blk: Block, at: nat, n: nat): (r: seq<nat>)
    requires at + n <= WORDS
    ensures |r| == n
  {
    if n == 0 then [] else GetWords(blk, at, n - 1) + [Entry(blk, at + n - 1)]
  }

  /** Writing a list of words changes those words and no others. */
  lemma {:induction false} PutWordsAt(blk: Block, at: nat, list: seq<nat>, k: nat)
    requires at + |list| <= WORDS && Uints(list) && k < WORDS
    ensures Entry(PutWords(blk, at, list), k) == if at <= k < at + |list| then list[k - at] else Entry(blk, k)
    decreases |list|
  {
    if list != [] {
      hide Entry, SetEntry;
      var less := list[..|list| - 1];
      PutWordsAt(blk, at, less, k);
      EntryRoundTrip(PutWords(blk, at, less), at + |list| - 1, list[|list| - 1], k);
    }
  }

  lemma {:induction false} WordsAre(blk: Block, at: nat, list: seq<nat>)
    requires at + |list| <= WORDS && forall i :: 0 <= i < |list| ==> list[i] == Entry(blk, at + i)
    ensures GetWords(blk, at, |list|) == list
    decreases |list|
  {
    if list != [] {
      hide Entry;
      var less := list[..|list| - 1];
      assert forall i :: 0 <= i < |less| ==> less[i] == list[i];
      WordsAre(blk, at, less);
    }
  }

  /** Words are read back as they were written. */
  lemma WordsRoundTrip(blk: Block, at: nat, list: seq<nat>)
    requires at + |list| <= WORDS && Uints(list)
    ensures GetWords(PutWords(blk, at, list), at, |list|) == list
  {
    hide Entry, PutWords, GetWords;
    forall i | 0 <= i < |list| ensures list[i] == Entry(PutWords(blk, at, list), at + i) {
      PutWordsAt(blk, at, list, at + i);
    }
    WordsAre(PutWords(blk, at, list), at, list);
  }

  /** Words are the same where the entries are. */
  lemma {:induction false} SameWords(a: Block, b: Block, at: nat, n: nat)
    requires at + n <= WORDS && forall k :: at <= k < at + n ==> Entry(a, k) == Entry(b, k)
    ensures GetWords(a, at, n) == GetWords(b, at, n)
  {
    hide Entry;
    if n > 0 { SameWords(a, b, at, n - 1); }
  }
}
