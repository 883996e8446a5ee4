/**
  The directory tree as a value: what every reachable tree looks like, and how adding or
  erasing one directory entry changes the sets that link counts count.
 */
module DirTree {
  const ROOT: nat := 1

  datatype Dirent = Dirent(inum: nat, name: string)
  datatype Place = Place(dir: nat, slot: nat)

  type Dirs = map<nat, seq<Dirent>> // the directory entries of every allocated inode; none for a file

  const FREE := Dirent(0, "")

  /** "." and ".." come first. */
  predicate Headed(D: Dirs, d: nat) {
    d in D && |D[d]| >= 2 && D[d][0] == Dirent(d, ".") && D[d][1].name == ".."
  }

  predicate UniqueNames(e: seq<Dirent>) {
    forall s: nat, s': nat :: s < s' < |e| && e[s].inum != 0 && e[s'].inum != 0 ==> e[s].name != e[s'].name
  }

  /** An entry past ".." names an allocated inode; a directory is live and is named only there. */
  predicate EntryOk(D: Dirs, dirs: set<nat>, live: set<nat>, place: map<nat, Place>, d: nat, s: nat)
    requires d in D && s < |D[d]|
  {
    var i := D[d][s].inum;
    i == 0 || (i in D && i != ROOT && (i in dirs ==> i in live && i in place && place[i] == Place(d, s)))
  }

  predicate Placed(D: Dirs, live: set<nat>, place: map<nat, Place>, i: nat)
    requires Headed(D, i)
  {
    && i in place && place[i].dir in live && place[i].dir in D
    && 2 <= place[i].slot < |D[place[i].dir]|
    && D[place[i].dir][place[i].slot].inum == i && D[i][1].inum == place[i].dir
  }

  /** Nothing but "." and "..". */
  predicate Bare(e: seq<Dirent>) {
    forall s: nat :: s < |e| && e[s].inum != 0 ==> s < 2 && (e[s].name == "." || e[s].name == "..")
  }

  /** Live directory `d` is well headed, its names are distinct and its entries are in order. */
  ghost predicate DirOk(D: Dirs, dirs: set<nat>, live: set<nat>, place: map<nat, Place>, d: nat) {
    && Headed(D, d) && UniqueNames(D[d])
    && (forall s: nat :: 2 <= s < |D[d]| ==> EntryOk(D, dirs, live, place, d, s))
    && (if d == ROOT then D[d][1].inum == ROOT else Placed(D, live, place, d))
  }

  ghost predicate Tree(D: Dirs, dirs: set<nat>, live: set<nat>, place: map<nat, Place>) {
    && 0 !in D && ROOT in live && live <= dirs <= D.Keys
    && (forall d :: d in live ==> DirOk(D, dirs, live, place, d))
    && (forall d :: d in dirs && d !in live ==> Bare(D[d]))
  }

  /** The entries naming `i` in live directories, "." and ".." left aside. */
  ghost function Names(D: Dirs, live: set<nat>, i: nat): set<Place> {
    set d, s: nat | d in live && d in D && 2 <= s < |D[d]| && D[d][s].inum == i :: Place(d, s)
  }

  /** The live directories whose ".." is `i`. */
  ghost function Subdirs(D: Dirs, live: set<nat>, i: nat): set<nat> {
    set d | d in live && d in D && |D[d]| >= 2 && D[d][1].inum == i
  }

  /** dirent slot `s` written, at the end or in place. */
  function Put(e: seq<Dirent>, s: nat, x: Dirent): (r: seq<Dirent>)
    requires s <= |e|
    ensures |r| == (if s < |e| then |e| else |e| + 1) && r[s] == x
    ensures forall k: nat :: k < |e| && k != s ==> r[k] == e[k]
  {
    if s < |e| then e[s := x] else e + [x]
  }

  predicate NameFree(e: seq<Dirent>, name: string) {
    forall s: nat :: s < |e| && e[s].inum != 0 ==> e[s].name != name
  }

  /** A slot at the end, or an erased one. */
  predicate SlotFree(e: seq<Dirent>, s: nat) {
    2 <= s <= |e| && (s < |e| ==> e[s].inum == 0)
  }

  lemma PutUnique(e: seq<Dirent>, s: nat, x: Dirent)
    requires UniqueNames(e) && SlotFree(e, s) && NameFree(e, x.name)
    ensures UniqueNames(Put(e, s, x))
  {
  }

  // ---------- what one entry does to the counted sets ----------

  lemma NamesPut(D: Dirs, live: set<nat>, d: nat, s: nat, x: Dirent, i: nat)
    requires d in live && d in D && SlotFree(D[d], s) && i != 0
    ensures Place(d, s) !in Names(D, live, i)
    ensures Names(D[d := Put(D[d], s, x)], live, i) == Names(D, live, i) + (if x.inum == i then {Place(d, s)} else {})
  {
    var D' := D[d := Put(D[d], s, x)];
    forall p | p in Names(D', live, i) ensures p in Names(D, live, i) || (p == Place(d, s) && x.inum == i) {
      assert p == Place(p.dir, p.slot);
    }
    forall p | p in Names(D, live, i) ensures p in Names(D', live, i) {
      assert D'[p.dir][p.slot].inum == i;
    }
    if x.inum == i {
      assert D'[d][s].inum == i;
    }
  }

  lemma NamesErase(D: Dirs, live: set<nat>, d: nat, s: nat, i: nat)
    requires d in live && d in D && 2 <= s < |D[d]| && i != 0
    ensures Names(D[d := D[d][s := FREE]], live, i) == Names(D, live, i) - {Place(d, s)}
    ensures Place(d, s) in Names(D, live, i) <==> D[d][s].inum == i
  {
    var D' := D[d := D[d][s := FREE]];
    forall p | p in Names(D, live, i) && p != Place(d, s) ensures p in Names(D', live, i) {
      assert D'[p.dir][p.slot].inum == i;
    }
    if D[d][s].inum == i {
      assert Place(d, s) in Names(D, live, i);
    }
  }

  lemma SubdirsSame(D: Dirs, live: set<nat>, d: nat, e: seq<Dirent>, i: nat)
    requires d in D && |D[d]| >= 2 && |e| >= 2 && e[1] == D[d][1]
    ensures Subdirs(D[d := e], live, i) == Subdirs(D, live, i)
  {
  }

  // ---------- what the invariant says about directories ----------

  /** Each live directory but the root is named exactly once, in the directory its ".." names. */
  lemma NamedOnce(D: Dirs, dirs: set<nat>, live: set<nat>, place: map<nat, Place>, i: nat)
    requires Tree(D, dirs, live, place) && i in live && i != ROOT
    ensures i in place && Names(D, live, i) == {place[i]} && place[i].dir == D[i][1].inum
  {
    assert DirOk(D, dirs, live, place, i);
    forall p | p in Names(D, live, i) ensures p == place[i] {
      assert DirOk(D, dirs, live, place, p.dir);
      assert EntryOk(D, dirs, live, place, p.dir, p.slot);
    }
    assert place[i] in Names(D, live, i) by {
      assert D[place[i].dir][place[i].slot].inum == i;
    }
  }

  /** The root is never named, and neither is a directory that is no longer live. */
  lemma NeverNamed(D: Dirs, dirs: set<nat>, live: set<nat>, place: map<nat, Place>, i: nat)
    requires Tree(D, dirs, live, place) && i in dirs && (i == ROOT || i !in live)
    ensures Names(D, live, i) == {}
  {
    forall d, s: nat | d in live && 2 <= s < |D[d]| ensures D[d][s].inum != i {
      assert DirOk(D, dirs, live, place, d);
      assert EntryOk(D, dirs, live, place, d, s);
    }
  }

  /** Nothing has an empty directory as its "..". */
  lemma NoSubdirs(D: Dirs, dirs: set<nat>, live: set<nat>, place: map<nat, Place>, i: nat)
    requires Tree(D, dirs, live, place) && i != ROOT && i in D
    requires i in live ==> forall s: nat :: 2 <= s < |D[i]| ==> D[i][s].inum == 0
    ensures Subdirs(D, live, i) == {}
  {
    forall d | d in live ensures |D[d]| >= 2 && D[d][1].inum != i {
      assert DirOk(D, dirs, live, place, d);
    }
  }

  // ---------- the steps keep the tree ----------

  /** A directory whose own entries do not change stays in order. */
  lemma DirKept(D: Dirs, dirs: set<nat>, live: set<nat>, place: map<nat, Place>,
                D': Dirs, dirs': set<nat>, live': set<nat>, place': map<nat, Place>, d: nat)
    requires DirOk(D, dirs, live, place, d) && d in D' && D'[d] == D[d]
    requires forall s: nat :: 2 <= s < |D[d]| ==> EntryOk(D', dirs', live', place', d, s)
    requires d != ROOT ==>
               && place[d].dir in live' && place[d].dir in D' && d in place' && place'[d] == place[d]
               && place[d].slot < |D'[place[d].dir]| && D'[place[d].dir][place[d].slot].inum == d
    ensures DirOk(D', dirs', live', place', d)
  {
  }

  /** A new entry for something that is not a directory. */
  lemma AddFileEntry(D: Dirs, dirs: set<nat>, live: set<nat>, place: map<nat, Place>, d: nat, s: nat, x: Dirent)
    requires Tree(D, dirs, live, place) && d in live && SlotFree(D[d], s) && NameFree(D[d], x.name)
    requires x.inum in D && x.inum !in dirs
    ensures Tree(D[d := Put(D[d], s, x)], dirs, live, place)
  {
    hide DirOk, Put, NameFree;
    forall e | e in live ensures DirOk(D[d := Put(D[d], s, x)], dirs, live, place, e) {
      AddFileAt(D, dirs, live, place, d, s, x, e);
    }
  }

  lemma AddFileAt(D: Dirs, dirs: set<nat>, live: set<nat>, place: map<nat, Place>, d: nat, s: nat, x: Dirent, e: nat)
    requires 0 !in D && ROOT in live && ROOT in dirs && DirOk(D, dirs, live, place, d) && DirOk(D, dirs, live, place, e)
    requires d in live && SlotFree(D[d], s) && NameFree(D[d], x.name) && x.inum in D && x.inum !in dirs && e in dirs
    ensures DirOk(D[d := Put(D[d], s, x)], dirs, live, place, e)
  {
    var D' := D[d := Put(D[d], s, x)];
    PutUnique(D[d], s, x);
    forall k: nat | 2 <= k < |D'[e]| ensures EntryOk(D', dirs, live, place, e, k) {
      if k < |D[e]| { assert EntryOk(D, dirs, live, place, e, k); }
    }
    if e != d { DirKept(D, dirs, live, place, D', dirs, live, place, e); }
  }

  /** A new directory with its ".", ".." and its entry in `d`. */
  lemma AddDirEntry(D: Dirs, dirs: set<nat>, live: set<nat>, place: map<nat, Place>, d: nat, s: nat, x: Dirent,
                    D': Dirs)
    requires Tree(D, dirs, live, place) && d in live && SlotFree(D[d], s) && NameFree(D[d], x.name)
    requires x.inum !in D && x.inum != 0
    requires D' == D[x.inum := [Dirent(x.inum, "."), Dirent(d, "..")]][d := Put(D[d], s, x)]
    ensures Tree(D', dirs + {x.inum}, live + {x.inum}, place[x.inum := Place(d, s)])
  {
    NewDirOk(dirs + {x.inum}, live + {x.inum}, place[x.inum := Place(d, s)], d, s, x, D', D[d]);
    hide DirOk, Put, SlotFree, NameFree;
    forall e | e in live ensures DirOk(D', dirs + {x.inum}, live + {x.inum}, place[x.inum := Place(d, s)], e) {
      AddDirAt(D, dirs, live, place, d, s, x, D', e);
    }
  }

  lemma NewDirOk(dirs: set<nat>, live: set<nat>, place: map<nat, Place>, d: nat, s: nat, x: Dirent, D': Dirs,
                 e: seq<Dirent>)
    requires x.inum in D' && D'[x.inum] == [Dirent(x.inum, "."), Dirent(d, "..")] && x.inum != ROOT && x.inum in place
    requires place[x.inum] == Place(d, s) && d in live && d in D' && SlotFree(e, s) && D'[d] == Put(e, s, x)
    ensures DirOk(D', dirs, live, place, x.inum)
  {
  }

  lemma AddDirAt(D: Dirs, dirs: set<nat>, live: set<nat>, place: map<nat, Place>, d: nat, s: nat, x: Dirent, D': Dirs,
                 e: nat)
    requires DirOk(D, dirs, live, place, d) && DirOk(D, dirs, live, place, e) && 0 !in D
    requires d in live && SlotFree(D[d], s) && NameFree(D[d], x.name) && x.inum !in D && x.inum != ROOT
    requires D' == D[x.inum := [Dirent(x.inum, "."), Dirent(d, "..")]][d := Put(D[d], s, x)]
    ensures DirOk(D', dirs + {x.inum}, live + {x.inum}, place[x.inum := Place(d, s)], e)
  {
    var dirs', live', place' := dirs + {x.inum}, live + {x.inum}, place[x.inum := Place(d, s)];
    PutUnique(D[d], s, x);
    forall k: nat | 2 <= k < |D'[e]| ensures EntryOk(D', dirs', live', place', e, k) {
      if k < |D[e]| { assert EntryOk(D, dirs, live, place, e, k); }
    }
    if e != d { DirKept(D, dirs, live, place, D', dirs', live', place', e); }
  }

  /** Erasing the entry of something that is not a directory. */
  lemma EraseFileEntry(D: Dirs, dirs: set<nat>, live: set<nat>, place: map<nat, Place>, d: nat, s: nat)
    requires Tree(D, dirs, live, place) && d in live && 2 <= s < |D[d]| && D[d][s].inum !in dirs
    ensures Tree(D[d := D[d][s := FREE]], dirs, live, place)
  {
    forall e | e in live ensures DirOk(D[d := D[d][s := FREE]], dirs, live, place, e) {
      InOwnPlace(D, dirs, live, place, e);
      EraseAt(D, dirs, live, place, d, s, live, e);
    }
    hide DirOk;
  }

  lemma InOwnPlace(D: Dirs, dirs: set<nat>, live: set<nat>, place: map<nat, Place>, e: nat)
    requires DirOk(D, dirs, live, place, e)
    ensures e != ROOT ==> e in place && place[e].dir in live
  {
  }

  /** Erasing an entry suits every directory that stays live and does not lose its own entry or its parent. */
  lemma EraseAt(D: Dirs, dirs: set<nat>, live: set<nat>, place: map<nat, Place>, d: nat, s: nat, live': set<nat>,
                e: nat)
    requires DirOk(D, dirs, live, place, d) && 2 <= s < |D[d]| && DirOk(D, dirs, live, place, e) && e != D[d][s].inum
    requires live' == live || (live' == live - {D[d][s].inum} && D[d][s].inum in dirs)
    requires e != ROOT ==> place[e].dir in live'
    ensures DirOk(D[d := D[d][s := FREE]], dirs, live', place, e)
  {
    var D' := D[d := D[d][s := FREE]];
    assert EntryOk(D, dirs, live, place, d, s);
    forall k: nat | 2 <= k < |D'[e]| ensures EntryOk(D', dirs, live', place, e, k) {
      assert EntryOk(D, dirs, live, place, e, k);
    }
    if e != d { DirKept(D, dirs, live, place, D', dirs, live', place, e); }
  }

  /** Erasing the entry of an empty directory, which dies. */
  lemma EraseDirEntry(D: Dirs, dirs: set<nat>, live: set<nat>, place: map<nat, Place>, d: nat, s: nat)
    requires Tree(D, dirs, live, place) && d in live && 2 <= s < |D[d]| && D[d][s].inum in dirs
    requires Bare(D[D[d][s].inum])
    ensures Tree(D[d := D[d][s := FREE]], dirs, live - {D[d][s].inum}, place)
    ensures D[d][s].inum in live && D[d][s].inum != d && D[d][s].inum != ROOT && D[D[d][s].inum][1].inum == d
  {
    var i := D[d][s].inum;
    assert DirOk(D, dirs, live, place, d) && EntryOk(D, dirs, live, place, d, s);
    assert i != 0 && DirOk(D, dirs, live, place, i);
    forall e | e in live - {i} ensures DirOk(D[d := D[d][s := FREE]], dirs, live - {i}, place, e) {
      assert DirOk(D, dirs, live, place, e);
      EraseAt(D, dirs, live, place, d, s, live - {i}, e);
    }
  }

  /** An inode nobody names comes or goes. */
  lemma AddInode(D: Dirs, dirs: set<nat>, live: set<nat>, place: map<nat, Place>, i: nat)
    requires Tree(D, dirs, live, place) && i !in D && i != 0
    ensures Tree(D[i := []], dirs, live, place)
  {
    var D' := D[i := []];
    forall e | e in live ensures DirOk(D', dirs, live, place, e) {
      assert DirOk(D, dirs, live, place, e);
      forall k: nat | 2 <= k < |D'[e]| ensures EntryOk(D', dirs, live, place, e, k) {
        assert EntryOk(D, dirs, live, place, e, k);
      }
    }
  }

  lemma DropInode(D: Dirs, dirs: set<nat>, live: set<nat>, place: map<nat, Place>, i: nat)
    requires Tree(D, dirs, live, place) && i !in live && Names(D, live, i) == {}
    ensures Tree(D - {i}, dirs - {i}, live, place)
    ensures forall j :: Names(D - {i}, live, j) == Names(D, live, j) && Subdirs(D - {i}, live, j) == Subdirs(D, live, j)
  {
    var D' := D - {i};
    forall e | e in live ensures DirOk(D', dirs - {i}, live, place, e) {
      assert DirOk(D, dirs, live, place, e);
      forall k: nat | 2 <= k < |D'[e]| ensures EntryOk(D', dirs - {i}, live, place, e, k) {
        assert EntryOk(D, dirs, live, place, e, k);
        assert D[e][k].inum == i ==> Place(e, k) in Names(D, live, i);
      }
    }
  }

  // ---------- the live directories form a tree ----------

  /** The directory `n` steps of ".." above `d`. */
  function Above(D: Dirs, d: nat, n: nat): nat
    decreases n
  {
    if n == 0 || d !in D || |D[d]| < 2 then d else Above(D, D[d][1].inum, n - 1)
  }

  /** Every directory lies deeper than the one its ".." names. */
  predicate Ranked(D: Dirs, live: set<nat>, depth: map<nat, nat>) {
    forall d :: d in live ==>
                  d in depth && d in D && |D[d]| >= 2 &&
                  (d != ROOT ==> D[d][1].inum in live && D[d][1].inum in depth && depth[D[d][1].inum] < depth[d])
  }

  /** Following ".." from any live directory reaches the root. */
  lemma {:induction false} ReachesRoot(D: Dirs, live: set<nat>, depth: map<nat, nat>, d: nat)
    requires Ranked(D, live, depth) && d in live
    ensures exists n: nat :: Above(D, d, n) == ROOT
    decreases depth[d]
  {
    if d == ROOT {
      assert Above(D, d, 0) == ROOT;
    } else {
      var up := D[d][1].inum;
      ReachesRoot(D, live, depth, up);
      var n: nat :| Above(D, up, n) == ROOT;
      assert Above(D, d, n + 1) == ROOT;
    }
  }
}
