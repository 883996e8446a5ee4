/**
  The on-disk format of the redo log, and what a disk image means once recovery
  has been run on it.
 */
module RedoLog {
  import opened DiskBlocks

  /** Where the log lives: header at `start`, data slots at `start + 1 ..`. */
  datatype Geometry = Geometry(start: nat, size: nat) {
    predicate Ok() { start + LOGBLOCKS < size <= UINT }

    /** Blocks outside the log area: the ones that transactions update. */
    predicate Home(b: int) { 0 <= b < size && !(start <= b <= start + LOGBLOCKS) }

    function Slot(i: nat): nat { start + 1 + i }
  }

  predicate Fits(g: Geometry, img: Image) { g.Ok() && |img| == g.size }

  predicate Distinct(s: seq<nat>) {
    forall i, j :: 0 <= i < j < |s| ==> s[i] != s[j]
  }

  /** A list of block numbers that log_write could have produced. */
  predicate GoodList(g: Geometry, s: seq<nat>) {
    |s| <= LOGBLOCKS && Distinct(s) && forall i :: 0 <= i < |s| ==> g.Home(s[i])
  }

  // ---------- the header block ----------

  /** What write_head leaves in the header block: the words past the list keep their old values. */
  function PutHead(old_: Block, list: seq<nat>): Block
    requires |list| <= LOGBLOCKS && Uints(list)
  {
    PutWords(SetEntry(old_, 0, |list|), 1, list)
  }

  predicate HeadReadable(blk: Block) { Entry(blk, 0) <= LOGBLOCKS }

  /** What read_head loads. */
  function GetHead(blk: Block): seq<nat>
    requires HeadReadable(blk)
  {
    GetWords(blk, 1, Entry(blk, 0))
  }

  lemma HeadRoundTrip(old_: Block, list: seq<nat>)
    requires |list| <= LOGBLOCKS && Uints(list)
    ensures HeadReadable(PutHead(old_, list))
    ensures GetHead(PutHead(old_, list)) == list
  {
    hide Entry, SetEntry, PutWords, GetWords;
    PutWordsAt(SetEntry(old_, 0, |list|), 1, list, 0);
    EntryRoundTrip(old_, 0, |list|, 0);
    WordsRoundTrip(SetEntry(old_, 0, |list|), 1, list);
  }

  // ---------- the meaning of an image ----------

  predicate Sound(g: Geometry, img: Image) {
    Fits(g, img) && HeadReadable(img[g.start]) && GoodList(g, GetHead(img[g.start]))
  }

  function Listed(g: Geometry, img: Image): (r: seq<nat>)
    requires Sound(g, img)
  {
    GetHead(img[g.start])
  }

  ghost function IndexOf(s: seq<nat>, x: nat): (i: nat)
    requires x in s
    ensures i < |s| && s[i] == x
  {
    var i: nat :| i < |s| && s[i] == x;
    i
  }

  /** The contents of home block b after recovery: the logged copy when the header lists b. */
  ghost function Redo(g: Geometry, img: Image, b: nat): Block
    requires Sound(g, img) && g.Home(b)
  {
    var list := Listed(g, img);
    if b in list then img[g.Slot(IndexOf(list, b))] else img[b]
  }

  /** Recovering `img` would produce exactly the home contents `home`. */
  ghost predicate Holds(g: Geometry, img: Image, home: map<nat, Block>) {
    Sound(g, img) && forall b: nat | g.Home(b) :: b in home && Redo(g, img, b) == home[b]
  }

  // ---------- how single-block writes change the meaning ----------

  /** While the header is empty, slots may be filled without changing what recovery yields. */
  lemma SlotWriteKeeps(g: Geometry, img: Image, i: nat, data: Block, home: map<nat, Block>)
    requires Holds(g, img, home) && Listed(g, img) == [] && i < LOGBLOCKS
    ensures Holds(g, img[g.Slot(i) := data], home)
    ensures Listed(g, img[g.Slot(i) := data]) == []
  {
    hide HeadReadable, GetHead;
    var img' := img[g.Slot(i) := data];
    assert img'[g.start] == img[g.start];
    forall b: nat | g.Home(b) ensures Redo(g, img', b) == home[b] {
      assert Redo(g, img, b) == img[b];
    }
  }

  /** Writing the header is the commit point: listed blocks now mean their slots. */
  lemma HeadWriteCommits(g: Geometry, img: Image, list: seq<nat>, home: map<nat, Block>)
    requires Sound(g, img) && GoodList(g, list)
    requires forall b: nat | g.Home(b) :: b in home
    requires forall i :: 0 <= i < |list| ==> img[g.Slot(i)] == home[list[i]]
    requires forall b: nat | g.Home(b) && b !in list :: img[b] == home[b]
    ensures Holds(g, img[g.start := PutHead(img[g.start], list)], home)
    ensures Listed(g, img[g.start := PutHead(img[g.start], list)]) == list
  {
    hide HeadReadable, GetHead, PutHead;
    HeadRoundTrip(img[g.start], list);
    var img' := img[g.start := PutHead(img[g.start], list)];
    assert Listed(g, img') == list;
    forall b: nat | g.Home(b) ensures Redo(g, img', b) == home[b] {
      if b in list {
        var i := IndexOf(list, b);
        assert img'[g.Slot(i)] == img[g.Slot(i)] == home[list[i]];
      } else {
        assert img'[b] == img[b];
      }
    }
  }

  /** Copying slot k to its home changes nothing: recovery would do the same. */
  lemma InstallKeeps(g: Geometry, img: Image, k: nat, home: map<nat, Block>)
    requires Holds(g, img, home) && k < |Listed(g, img)|
    ensures var img' := img[Listed(g, img)[k] := img[g.Slot(k)]];
            Holds(g, img', home) && Listed(g, img') == Listed(g, img)
  {
    hide HeadReadable, GetHead;
    var list := Listed(g, img);
    var img' := img[list[k] := img[g.Slot(k)]];
    assert img'[g.start] == img[g.start];
    forall b: nat | g.Home(b) ensures Redo(g, img', b) == home[b] {
      assert Redo(g, img, b) == home[b];
    }
  }

  /** Once every listed block is home, the header can be erased. */
  lemma EraseKeeps(g: Geometry, img: Image, home: map<nat, Block>)
    requires Holds(g, img, home)
    requires forall i :: 0 <= i < |Listed(g, img)| ==> img[Listed(g, img)[i]] == img[g.Slot(i)]
    ensures Holds(g, img[g.start := PutHead(img[g.start], [])], home)
    ensures Listed(g, img[g.start := PutHead(img[g.start], [])]) == []
  {
    hide HeadReadable, GetHead, PutHead;
    HeadRoundTrip(img[g.start], []);
    var img' := img[g.start := PutHead(img[g.start], [])];
    assert Listed(g, img') == [];
    forall b: nat | g.Home(b) ensures Redo(g, img', b) == home[b] {
      assert Redo(g, img, b) == home[b];
    }
  }
}
