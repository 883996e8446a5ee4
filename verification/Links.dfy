/**
  Link counts under sys_link, sys_unlink and create, one method per stretch of code that runs
  under the inode locks, so that any sequence of calls is an interleaving of system calls.
 */
module Links {
  import opened Basics
  import opened DirTree

  const NLINK_MAX: nat := 32767

  datatype Kind = File | Directory | Device
  datatype Inode = Inode(kind: Kind, nlink: nat, entries: seq<Dirent>)
  type Inodes = map<nat, Inode> // the inodes whose type on disk is not 0

  /** Somebody holding a reference to an inode, and how far its system call has got. */
  datatype Task =
    | Ref(ip: nat)       // an open file, a current directory, a path being walked
    | Parent(ip: nat)    // nameiparent has returned this directory
    | Linking(ip: nat)   // sys_link has counted the new link and not yet entered it
    | Unlinking(ip: nat) // sys_unlink has erased the entry, and holds the inode's lock

  datatype Outcome = Done | Failed | Blocked | Panic
  function Contents(I: Inodes): Dirs { map i | i in I :: I[i].entries }

  function DirSet(I: Inodes): set<nat> { set i | i in I && I[i].kind.Directory? }

  predicate Locked(tasks: map<nat, Task>, i: nat) { exists t :: t in tasks && tasks[t] == Unlinking(i) }

  predicate Referenced(tasks: map<nat, Task>, i: nat) { exists t :: t in tasks && tasks[t].ip == i }

  /** The system calls whose link is counted but not entered, or erased but not yet uncounted. */
  ghost function Pending(tasks: map<nat, Task>, i: nat): set<nat> {
    set t | t in tasks && (tasks[t] == Linking(i) || tasks[t] == Unlinking(i))
  }

  ghost predicate Counted(n: nat, D: Dirs, live: set<nat>, tasks: map<nat, Task>, i: nat) {
    n == |Names(D, live, i)| + |Subdirs(D, live, i)| + |Pending(tasks, i)|
  }

  ghost predicate Exact(I: Inodes, D: Dirs, live: set<nat>, tasks: map<nat, Task>) {
    forall i :: i in I ==> Counted(I[i].nlink, D, live, tasks, i)
  }

  ghost predicate LiveOk(I: Inodes, live: set<nat>, tasks: map<nat, Task>) {
    forall d :: d in live <==> d in I && I[d].kind.Directory? && I[d].nlink > 0 && !Locked(tasks, d)
  }

  ghost predicate TasksOk(I: Inodes, tasks: map<nat, Task>) {
    && (forall t :: t in tasks ==>
          && tasks[t].ip in I && (tasks[t].Linking? ==> !I[tasks[t].ip].kind.Directory?)
          && (tasks[t].Parent? ==> I[tasks[t].ip].kind.Directory?))
    && (forall t, u :: t in tasks && u in tasks && t != u && tasks[t].Unlinking? && tasks[u].Unlinking? ==>
          tasks[t].ip != tasks[u].ip)
  }

  /** An inode without links is kept only by its references; `but` may have lost its last one. */
  ghost predicate NoOrphans(I: Inodes, tasks: map<nat, Task>, but: set<nat>) {
    forall i :: i in I && I[i].nlink == 0 && i !in but ==> Referenced(tasks, i)
  }

  ghost predicate Fits(I: Inodes) { forall i :: i in I ==> I[i].nlink <= NLINK_MAX }

  ghost predicate Inv(I: Inodes, tasks: map<nat, Task>, live: set<nat>, place: map<nat, Place>, depth: map<nat, nat>,
                      but: set<nat>)
  {
    && Tree(Contents(I), DirSet(I), live, place) && Ranked(Contents(I), live, depth)
    && Exact(I, Contents(I), live, tasks)
    && LiveOk(I, live, tasks) && TasksOk(I, tasks) && NoOrphans(I, tasks, but) && Fits(I)
  }

  // ---------- scanning a directory ----------

  /** dirlookup: the first used entry with the name. */
  method Dirlookup(e: seq<Dirent>, name: string) returns (r: Option<nat>)
    ensures r.None? <==> NameFree(e, name)
    ensures r.Some? ==> r.value < |e| && e[r.value].inum != 0 && e[r.value].name == name && NameFree(e[..r.value], name)
  {
    var s := 0;
    while s < |e|
      invariant s <= |e| && forall k: nat :: k < s && e[k].inum != 0 ==> e[k].name != name
    {
      if e[s].inum != 0 && e[s].name == name {
        return Some(s);
      }
      s := s + 1;
    }
    return None;
  }

  /** isdirempty looks past "." and "..". */
  method Isdirempty(e: seq<Dirent>) returns (empty: bool)
    ensures empty <==> forall s: nat :: 2 <= s < |e| ==> e[s].inum == 0
  {
    var s := 2;
    while s < |e|
      invariant forall k: nat :: 2 <= k < s && k < |e| ==> e[k].inum == 0
    {
      if e[s].inum != 0 {
        return false;
      }
      s := s + 1;
    }
    return true;
  }

  /** dirlink: where the entry goes; `room` says whether the disk had a block for a longer directory. */
  method Dirlink(e: seq<Dirent>, name: string, room: bool) returns (r: Option<nat>)
    ensures r.Some? ==>
              && NameFree(e, name) && r.value <= |e| && (forall k: nat :: k < r.value ==> e[k].inum != 0)
              && (r.value < |e| ==> e[r.value].inum == 0) && (r.value == |e| ==> room)
    ensures r.None? ==> !NameFree(e, name) || (!room && Full(e))
  {
    var found := Dirlookup(e, name);
    if found.Some? {
      return None;
    }
    var off := 0;
    while off < |e| && e[off].inum != 0
      invariant off <= |e| && forall k: nat :: k < off ==> e[k].inum != 0
    {
      off := off + 1;
    }
    if off == |e| && !room {
      return None;
    }
    return Some(off);
  }

  // ---------- the steps keep the invariant ----------

  predicate Plain(k: Task) { k.Ref? || k.Parent? }

  /** Tasks that differ in plain references only hold the same locks and count the same links. */
  ghost predicate SameCounts(tasks: map<nat, Task>, tasks': map<nat, Task>) {
    (forall i :: Pending(tasks', i) == Pending(tasks, i)) && (forall i :: Locked(tasks', i) <==> Locked(tasks, i))
  }

  lemma PlainPut(tasks: map<nat, Task>, t: nat, k: Task)
    requires (t in tasks ==> Plain(tasks[t])) && Plain(k)
    ensures SameCounts(tasks, tasks[t := k])
  {
    var tasks' := tasks[t := k];
    forall i ensures Pending(tasks', i) == Pending(tasks, i) && (Locked(tasks', i) <==> Locked(tasks, i)) {
      if Locked(tasks, i) {
        var u :| u in tasks && tasks[u] == Unlinking(i);
        assert tasks'[u] == Unlinking(i);
      }
    }
  }

  lemma PlainDrop(tasks: map<nat, Task>, t: nat)
    requires t in tasks && Plain(tasks[t])
    ensures SameCounts(tasks, tasks - {t})
  {
    var tasks' := tasks - {t};
    forall i ensures Pending(tasks', i) == Pending(tasks, i) && (Locked(tasks', i) <==> Locked(tasks, i)) {
      if Locked(tasks, i) {
        var u :| u in tasks && tasks[u] == Unlinking(i);
        assert tasks'[u] == Unlinking(i);
      }
    }
  }

  lemma CountsKept(I: Inodes, D: Dirs, live: set<nat>, tasks: map<nat, Task>, tasks': map<nat, Task>)
    requires Exact(I, D, live, tasks) && LiveOk(I, live, tasks) && SameCounts(tasks, tasks')
    ensures Exact(I, D, live, tasks') && LiveOk(I, live, tasks')
  {
    forall i | i in I ensures Counted(I[i].nlink, D, live, tasks', i) {
      assert Counted(I[i].nlink, D, live, tasks, i);
    }
  }

  /** Everybody who still refers to `i` still does, except through task `t`. */
  lemma OrphansKept(I: Inodes, tasks: map<nat, Task>, tasks': map<nat, Task>, t: nat, but: set<nat>)
    requires NoOrphans(I, tasks, but) && forall u :: u in tasks && u != t ==> u in tasks' && tasks'[u].ip == tasks[u].ip
    ensures NoOrphans(I, tasks', but + if t in tasks then {tasks[t].ip} else {})
  {
    forall i | i in I && I[i].nlink == 0 && i !in but && (t in tasks ==> i != tasks[t].ip)
      ensures Referenced(tasks', i)
    {
      assert Referenced(tasks, i);
      var u :| u in tasks && tasks[u].ip == i;
      assert tasks'[u].ip == i;
    }
  }

  /** A plain reference comes, or takes the place of another. */
  lemma RefTaken(I: Inodes, tasks: map<nat, Task>, live: set<nat>, place: map<nat, Place>, depth: map<nat, nat>,
                 but: set<nat>,
                 t: nat, k: Task)
    requires Inv(I, tasks, live, place, depth, but) && (t in tasks ==> Plain(tasks[t]))
    requires k.ip in I && Plain(k) && (k.Parent? ==> I[k.ip].kind.Directory?)
    ensures Inv(I, tasks[t := k], live, place, depth, but + if t in tasks then {tasks[t].ip} else {})
  {
    hide Tree, Ranked, Exact, LiveOk, NoOrphans, SameCounts;
    PlainPut(tasks, t, k);
    CountsKept(I, Contents(I), live, tasks, tasks[t := k]);
    OrphansKept(I, tasks, tasks[t := k], t, but);
  }

  lemma RefDropped(I: Inodes, tasks: map<nat, Task>, live: set<nat>, place: map<nat, Place>, depth: map<nat, nat>,
                   but: set<nat>,
                   t: nat)
    requires Inv(I, tasks, live, place, depth, but) && t in tasks && Plain(tasks[t])
    ensures Inv(I, tasks - {t}, live, place, depth, but + {tasks[t].ip})
  {
    hide Tree, Ranked, Exact, LiveOk, NoOrphans, SameCounts;
    PlainDrop(tasks, t);
    CountsKept(I, Contents(I), live, tasks, tasks - {t});
    OrphansKept(I, tasks, tasks - {t}, t, but);
  }

  // ---------- iput ----------

  /** Changing a link count alone changes no directory. */
  lemma SameContents(I: Inodes, i: nat, n: nat)
    requires i in I
    ensures Contents(I[i := I[i].(nlink := n)]) == Contents(I) && DirSet(I[i := I[i].(nlink := n)]) == DirSet(I)
  {
  }

  lemma WrittenContents(I: Inodes, d: nat, n: nat, e: seq<Dirent>)
    requires d in I
    ensures Contents(I[d := I[d].(nlink := n, entries := e)]) == Contents(I)[d := e]
    ensures DirSet(I[d := I[d].(nlink := n, entries := e)]) == DirSet(I)
  {
  }

  lemma Unnamed(I: Inodes, D: Dirs, live: set<nat>, tasks: map<nat, Task>, i: nat)
    requires Exact(I, D, live, tasks) && i in I && I[i].nlink == 0
    ensures Names(D, live, i) == {} && Subdirs(D, live, i) == {} && Pending(tasks, i) == {}
  {
    assert Counted(I[i].nlink, D, live, tasks, i);
  }

  /** iput of the last reference to an inode without links frees it. */
  lemma Reclaimed(I: Inodes, tasks: map<nat, Task>, live: set<nat>, place: map<nat, Place>, depth: map<nat, nat>,
                  but: set<nat>, i: nat)
    requires Inv(I, tasks, live, place, depth, but) && i in I && I[i].nlink == 0 && !Referenced(tasks, i)
    ensures Inv(I - {i}, tasks, live, place, depth, but - {i})
  {
    hide Tree, Counted, Ranked, Names, Subdirs, Pending;
    Unnamed(I, Contents(I), live, tasks, i);
    assert i !in live;
    DropInode(Contents(I), DirSet(I), live, place, i);
    assert Contents(I - {i}) == Contents(I) - {i} && DirSet(I - {i}) == DirSet(I) - {i};
    RankedDrop(Contents(I), live, depth, i);
    ExactDrop(I, Contents(I), Contents(I) - {i}, live, tasks, i);
  }

  lemma RankedDrop(D: Dirs, live: set<nat>, depth: map<nat, nat>, i: nat)
    requires Ranked(D, live, depth) && i !in live
    ensures Ranked(D - {i}, live, depth)
  {
  }

  lemma ExactDrop(I: Inodes, D: Dirs, D': Dirs, live: set<nat>, tasks: map<nat, Task>, i: nat)
    requires Exact(I, D, live, tasks)
    requires forall j :: Names(D', live, j) == Names(D, live, j) && Subdirs(D', live, j) == Subdirs(D, live, j)
    ensures Exact(I - {i}, D', live, tasks)
  {
    hide Names, Subdirs, Pending;
    forall j | j in I - {i} ensures Counted((I - {i})[j].nlink, D', live, tasks, j) {
      assert Counted(I[j].nlink, D, live, tasks, j);
    }
  }

  /** Otherwise the inode stays, and is accounted for. */
  lemma Retained(I: Inodes, tasks: map<nat, Task>, live: set<nat>, place: map<nat, Place>, depth: map<nat, nat>,
                 but: set<nat>, i: nat)
    requires Inv(I, tasks, live, place, depth, but) && (i in I && I[i].nlink == 0 ==> Referenced(tasks, i))
    ensures Inv(I, tasks, live, place, depth, but - {i})
  {
    hide Tree, Ranked, Exact, LiveOk, TasksOk, Fits;
  }

  // ---------- sys_link ----------

  /** The new link is counted before it exists. */
  lemma LinkCounted(I: Inodes, tasks: map<nat, Task>, live: set<nat>, place: map<nat, Place>, depth: map<nat, nat>,
                    t: nat)
    requires Inv(I, tasks, live, place, depth, {}) && t in tasks && tasks[t].Ref?
    requires !I[tasks[t].ip].kind.Directory? && I[tasks[t].ip].nlink < NLINK_MAX
    ensures var i := tasks[t].ip;
            Inv(I[i := I[i].(nlink := I[i].nlink + 1)], tasks[t := Linking(i)], live, place, depth, {})
  {
    hide Tree, Ranked, Exact, LiveOk, NoOrphans;
    var i := tasks[t].ip;
    var I', tasks' := I[i := I[i].(nlink := I[i].nlink + 1)], tasks[t := Linking(i)];
    SameContents(I, i, I[i].nlink + 1);
    MarkedPending(tasks, t, Linking(i));
    ExactCounted(I, Contents(I), live, tasks, tasks', i, t, I[i].nlink + 1);
    LiveFile(I, live, tasks, tasks', i, I[i].nlink + 1);
    OrphansCounted(I, tasks, tasks', i, I[i].nlink + 1);
  }

  /** A plain task starts to count for its inode. */
  lemma MarkedPending(tasks: map<nat, Task>, t: nat, k: Task)
    requires t in tasks && Plain(tasks[t]) && !Plain(k)
    ensures t !in Pending(tasks, k.ip) && Pending(tasks[t := k], k.ip) == Pending(tasks, k.ip) + {t}
    ensures forall j :: j != k.ip ==> Pending(tasks[t := k], j) == Pending(tasks, j)
    ensures forall d :: Locked(tasks[t := k], d) <==> Locked(tasks, d) || k == Unlinking(d)
  {
    var tasks' := tasks[t := k];
    forall d ensures Locked(tasks', d) <==> Locked(tasks, d) || k == Unlinking(d) {
      if Locked(tasks, d) {
        var u :| u in tasks && tasks[u] == Unlinking(d);
        assert tasks'[u] == Unlinking(d);
      }
      if k == Unlinking(d) { assert tasks'[t] == Unlinking(d); }
    }
  }

  lemma ExactCounted(I: Inodes, D: Dirs, live: set<nat>, tasks: map<nat, Task>, tasks': map<nat, Task>, i: nat, t: nat,
                     n: nat)
    requires Exact(I, D, live, tasks) && i in I
    requires t !in Pending(tasks, i) && Pending(tasks', i) == Pending(tasks, i) + {t} && n == I[i].nlink + 1
    requires forall j :: j != i ==> Pending(tasks', j) == Pending(tasks, j)
    ensures Exact(I[i := I[i].(nlink := n)], D, live, tasks')
  {
    hide Names, Subdirs, Pending;
    var I' := I[i := I[i].(nlink := n)];
    forall j | j in I' ensures Counted(I'[j].nlink, D, live, tasks', j) {
      assert Counted(I[j].nlink, D, live, tasks, j);
    }
  }

  lemma LiveFile(I: Inodes, live: set<nat>, tasks: map<nat, Task>, tasks': map<nat, Task>, i: nat, n: nat)
    requires LiveOk(I, live, tasks) && i in I && !I[i].kind.Directory?
    requires forall d :: d in I && I[d].kind.Directory? ==> (Locked(tasks', d) <==> Locked(tasks, d))
    ensures LiveOk(I[i := I[i].(nlink := n)], live, tasks')
  {
    hide Locked;
  }

  lemma OrphansCounted(I: Inodes, tasks: map<nat, Task>, tasks': map<nat, Task>, i: nat, n: nat)
    requires NoOrphans(I, tasks, {}) && i in I && n > 0
    requires forall u :: u in tasks ==> u in tasks' && tasks'[u].ip == tasks[u].ip
    ensures NoOrphans(I[i := I[i].(nlink := n)], tasks', {})
  {
    forall j | j in I && j != i && I[j].nlink == 0 ensures Referenced(tasks', j) {
      assert Referenced(tasks, j);
      var u :| u in tasks && tasks[u].ip == j;
      assert tasks'[u].ip == j;
    }
  }

  /** A task that counted for its inode ends. */
  lemma EndedPending(I: Inodes, tasks: map<nat, Task>, t: nat)
    requires TasksOk(I, tasks) && t in tasks && !Plain(tasks[t])
    ensures t in Pending(tasks, tasks[t].ip) && Pending(tasks - {t}, tasks[t].ip) == Pending(tasks, tasks[t].ip) - {t}
    ensures forall j :: j != tasks[t].ip ==> Pending(tasks - {t}, j) == Pending(tasks, j)
    ensures forall d :: Locked(tasks - {t}, d) <==> Locked(tasks, d) && tasks[t] != Unlinking(d)
  {
    var tasks' := tasks - {t};
    forall d ensures Locked(tasks', d) <==> Locked(tasks, d) && tasks[t] != Unlinking(d) {
      if Locked(tasks, d) && tasks[t] != Unlinking(d) {
        var u :| u in tasks && tasks[u] == Unlinking(d);
        assert tasks'[u] == Unlinking(d);
      }
    }
  }

  lemma ExactUncounted(I: Inodes, D: Dirs, live: set<nat>, tasks: map<nat, Task>, tasks': map<nat, Task>, i: nat,
                       t: nat)
    requires Exact(I, D, live, tasks) && i in I
    requires t in Pending(tasks, i) && Pending(tasks', i) == Pending(tasks, i) - {t}
    requires forall j :: j != i ==> Pending(tasks', j) == Pending(tasks, j)
    ensures I[i].nlink > 0 && Exact(I[i := I[i].(nlink := I[i].nlink - 1)], D, live, tasks')
  {
    hide Names, Subdirs, Pending;
    assert Counted(I[i].nlink, D, live, tasks, i);
    var I' := I[i := I[i].(nlink := I[i].nlink - 1)];
    forall j | j in I' ensures Counted(I'[j].nlink, D, live, tasks', j) {
      assert Counted(I[j].nlink, D, live, tasks, j);
    }
  }

  lemma OrphansUncounted(I: Inodes, tasks: map<nat, Task>, t: nat, n: nat)
    requires NoOrphans(I, tasks, {}) && t in tasks && tasks[t].ip in I
    ensures NoOrphans(I[tasks[t].ip := I[tasks[t].ip].(nlink := n)], tasks - {t}, {tasks[t].ip})
  {
    OrphansKept(I, tasks, tasks - {t}, t, {});
  }

  /** sys_link takes its count back. */
  lemma LinkUncounted(I: Inodes, tasks: map<nat, Task>, live: set<nat>, place: map<nat, Place>, depth: map<nat, nat>,
                      t: nat)
    requires Inv(I, tasks, live, place, depth, {}) && t in tasks && tasks[t].Linking?
    ensures var i := tasks[t].ip;
            I[i].nlink > 0 && Inv(I[i := I[i].(nlink := I[i].nlink - 1)], tasks - {t}, live, place, depth, {i})
  {
    hide Tree, Ranked, Exact, LiveOk, NoOrphans;
    var i := tasks[t].ip;
    EndedPending(I, tasks, t);
    ExactUncounted(I, Contents(I), live, tasks, tasks - {t}, i, t);
    SameContents(I, i, I[i].nlink - 1);
    LiveFile(I, live, tasks, tasks - {t}, i, I[i].nlink - 1);
    OrphansUncounted(I, tasks, t, I[i].nlink - 1);
  }

  /** sys_unlink drops the count of the entry it erased; a directory has no other. */
  lemma UnlinkUncounted(I: Inodes, tasks: map<nat, Task>, live: set<nat>, place: map<nat, Place>, depth: map<nat, nat>,
                        t: nat)
    requires Inv(I, tasks, live, place, depth, {}) && t in tasks && tasks[t].Unlinking?
    ensures var i := tasks[t].ip;
            && I[i].nlink > 0 && (I[i].kind.Directory? ==> I[i].nlink == 1)
            && Inv(I[i := I[i].(nlink := I[i].nlink - 1)], tasks - {t}, live, place, depth, {i})
  {
    hide Tree, Ranked, Exact, LiveOk, NoOrphans;
    var i := tasks[t].ip;
    EndedPending(I, tasks, t);
    ExactUncounted(I, Contents(I), live, tasks, tasks - {t}, i, t);
    SameContents(I, i, I[i].nlink - 1);
    if I[i].kind.Directory? {
      LastCount(I, tasks, live, place, t);
      LiveGone(I, live, tasks, tasks - {t}, i);
    } else {
      LiveFile(I, live, tasks, tasks - {t}, i, I[i].nlink - 1);
    }
    OrphansUncounted(I, tasks, t, I[i].nlink - 1);
  }

  lemma LastCount(I: Inodes, tasks: map<nat, Task>, live: set<nat>, place: map<nat, Place>, t: nat)
    requires Tree(Contents(I), DirSet(I), live, place) && Exact(I, Contents(I), live, tasks)
    requires LiveOk(I, live, tasks) && TasksOk(I, tasks) && t in tasks && tasks[t].Unlinking?
    requires tasks[t].ip in I && I[tasks[t].ip].kind.Directory?
    ensures I[tasks[t].ip].nlink == 1 && tasks[t].ip !in live
  {
    hide Tree, TasksOk, Names, Subdirs, Pending;
    var i := tasks[t].ip;
    assert Locked(tasks, i);
    assert ROOT in live && 0 !in Contents(I) by { RootLives(Contents(I), DirSet(I), live, place); }
    NeverNamed(Contents(I), DirSet(I), live, place, i);
    NoSubdirs(Contents(I), DirSet(I), live, place, i);
    assert Pending(tasks, i) == {t} by { OnlyPending(I, tasks, t); }
    assert Counted(I[i].nlink, Contents(I), live, tasks, i);
  }

  lemma RootLives(D: Dirs, dirs: set<nat>, live: set<nat>, place: map<nat, Place>)
    requires Tree(D, dirs, live, place)
    ensures ROOT in live && 0 !in D
  {
  }

  /** sys_link never counts for a directory, and the lock keeps a second sys_unlink out. */
  lemma OnlyPending(I: Inodes, tasks: map<nat, Task>, t: nat)
    requires TasksOk(I, tasks) && t in tasks && tasks[t].Unlinking? && I[tasks[t].ip].kind.Directory?
    ensures Pending(tasks, tasks[t].ip) == {t}
  {
  }

  lemma LiveGone(I: Inodes, live: set<nat>, tasks: map<nat, Task>, tasks': map<nat, Task>, i: nat)
    requires LiveOk(I, live, tasks) && i in I && I[i].kind.Directory? && I[i].nlink == 1 && i !in live
    requires forall d :: d != i ==> (Locked(tasks', d) <==> Locked(tasks, d))
    ensures LiveOk(I[i := I[i].(nlink := I[i].nlink - 1)], live, tasks')
  {
    hide Locked;
  }

  // ---------- entering and erasing a name ----------

  lemma RankedSame(D: Dirs, live: set<nat>, depth: map<nat, nat>, d: nat, e: seq<Dirent>)
    requires Ranked(D, live, depth) && d in D && |D[d]| >= 2 && |e| >= 2 && e[1] == D[d][1]
    ensures Ranked(D[d := e], live, depth)
  {
  }

  lemma HeadOf(D: Dirs, dirs: set<nat>, live: set<nat>, place: map<nat, Place>, d: nat)
    requires Tree(D, dirs, live, place) && d in live
    ensures d in D && |D[d]| >= 2 && D[d][0] == Dirent(d, ".") && D[d][1].name == ".." && D[d][1].inum in live
    ensures 0 !in D
  {
    assert DirOk(D, dirs, live, place, d);
  }

  /** The counted link gets its entry, and counts as an entry from now on. */
  lemma LinkEntered(I: Inodes, tasks: map<nat, Task>, live: set<nat>, place: map<nat, Place>, depth: map<nat, nat>,
                    t: nat, d: nat, s: nat, name: string, but: set<nat>)
    requires Inv(I, tasks, live, place, depth, but) && t in tasks && tasks[t].Linking? && d in live && d in I
    requires SlotFree(I[d].entries, s) && NameFree(I[d].entries, name)
    ensures Inv(I[d := I[d].(entries := Put(I[d].entries, s, Dirent(tasks[t].ip, name)))], tasks - {t}, live, place,
                depth,
                but + {tasks[t].ip})
  {
    hide Names, Subdirs, Pending, Tree, Ranked, Exact, LiveOk, NoOrphans, NameFree, Put;
    var x := Dirent(tasks[t].ip, name);
    var e := Put(I[d].entries, s, x);
    HeadOf(Contents(I), DirSet(I), live, place, d);
    WrittenContents(I, d, I[d].nlink, e);
    assert I[d].(entries := e) == I[d].(nlink := I[d].nlink, entries := e);
    AddFileEntry(Contents(I), DirSet(I), live, place, d, s, x);
    PutHead(I[d].entries, s, x);
    RankedSame(Contents(I), live, depth, d, e);
    EndedPending(I, tasks, t);
    ExactEntered(I, Contents(I), live, tasks, tasks - {t}, d, s, x, t);
    LiveWritten(I, live, tasks, tasks - {t}, d, e);
    OrphansKept(I, tasks, tasks - {t}, t, but);
    OrphansWritten(I, tasks - {t}, d, e, but + {tasks[t].ip});
  }

  lemma PutHead(e: seq<Dirent>, s: nat, x: Dirent)
    requires SlotFree(e, s)
    ensures |Put(e, s, x)| >= |e| && forall k: nat :: k < 2 ==> Put(e, s, x)[k] == e[k]
  {
  }

  lemma ExactEntered(I: Inodes, D: Dirs, live: set<nat>, tasks: map<nat, Task>, tasks': map<nat, Task>, d: nat, s: nat,
                     x: Dirent, t: nat)
    requires Exact(I, D, live, tasks) && d in I && d in live && d in D && D[d] == I[d].entries && SlotFree(D[d], s)
    requires 0 !in I
    requires t in Pending(tasks, x.inum) && Pending(tasks', x.inum) == Pending(tasks, x.inum) - {t}
    requires forall j :: j != x.inum ==> Pending(tasks', j) == Pending(tasks, j)
    ensures Exact(I[d := I[d].(entries := Put(D[d], s, x))], D[d := Put(D[d], s, x)], live, tasks')
  {
    hide Counted, Names, Subdirs, Pending, Put;
    var I', D' := I[d := I[d].(entries := Put(D[d], s, x))], D[d := Put(D[d], s, x)];
    forall j | j in I' ensures Counted(I'[j].nlink, D', live, tasks', j) {
      CountedEntered(I[j].nlink, D, live, tasks, tasks', d, s, x, t, j);
    }
  }

  lemma CountedEntered(n: nat, D: Dirs, live: set<nat>, tasks: map<nat, Task>, tasks': map<nat, Task>, d: nat, s: nat,
                       x: Dirent, t: nat, j: nat)
    requires Counted(n, D, live, tasks, j) && d in live && d in D && SlotFree(D[d], s) && j != 0
    requires j == x.inum ==> t in Pending(tasks, j) && Pending(tasks', j) == Pending(tasks, j) - {t}
    requires j != x.inum ==> Pending(tasks', j) == Pending(tasks, j)
    ensures Counted(n, D[d := Put(D[d], s, x)], live, tasks', j)
  {
    hide Names, Subdirs, Pending, Put;
    PutHead(D[d], s, x);
    NamesPut(D, live, d, s, x, j);
    SubdirsSame(D, live, d, Put(D[d], s, x), j);
  }

  lemma LiveWritten(I: Inodes, live: set<nat>, tasks: map<nat, Task>, tasks': map<nat, Task>, d: nat, e: seq<Dirent>)
    requires LiveOk(I, live, tasks) && d in I
    requires forall i :: i in I && I[i].kind.Directory? ==> (Locked(tasks', i) <==> Locked(tasks, i))
    ensures LiveOk(I[d := I[d].(entries := e)], live, tasks')
  {
    hide Locked;
  }

  lemma OrphansWritten(I: Inodes, tasks: map<nat, Task>, d: nat, e: seq<Dirent>, but: set<nat>)
    requires NoOrphans(I, tasks, but) && d in I
    ensures NoOrphans(I[d := I[d].(entries := e)], tasks, but)
  {
    hide Referenced;
  }

  /** sys_unlink erases the entry of something that is not a directory; its count follows later. */
  lemma FileErased(I: Inodes, tasks: map<nat, Task>, live: set<nat>, place: map<nat, Place>, depth: map<nat, nat>,
                   u: nat, d: nat, s: nat)
    requires Inv(I, tasks, live, place, depth, {}) && u in tasks && tasks[u] == Parent(d) && d in live && d in I
    requires 2 <= s < |I[d].entries| && I[d].entries[s].inum in I && !I[I[d].entries[s].inum].kind.Directory?
    requires !Locked(tasks, I[d].entries[s].inum)
    ensures Inv(I[d := I[d].(entries := I[d].entries[s := FREE])], tasks[u := Unlinking(I[d].entries[s].inum)],
                live, place, depth, {d})
  {
    hide Names, Subdirs, Pending, Tree, Ranked, Exact, LiveOk, NoOrphans;
    var i, e := I[d].entries[s].inum, I[d].entries[s := FREE];
    var tasks' := tasks[u := Unlinking(i)];
    HeadOf(Contents(I), DirSet(I), live, place, d);
    WrittenContents(I, d, I[d].nlink, e);
    assert I[d].(entries := e) == I[d].(nlink := I[d].nlink, entries := e);
    EraseFileEntry(Contents(I), DirSet(I), live, place, d, s);
    RankedSame(Contents(I), live, depth, d, e);
    MarkedPending(tasks, u, Unlinking(i));
    ExactErased(I, Contents(I), live, tasks, tasks', d, s, u);
    LiveWritten(I, live, tasks, tasks', d, e);
    OrphansKept(I, tasks, tasks', u, {});
    assert {} + {d} == {d};
    OrphansWritten(I, tasks', d, e, {d});
  }

  lemma ExactErased(I: Inodes, D: Dirs, live: set<nat>, tasks: map<nat, Task>, tasks': map<nat, Task>, d: nat, s: nat,
                    u: nat)
    requires Exact(I, D, live, tasks) && d in I && d in live && d in D && D[d] == I[d].entries && 2 <= s < |D[d]|
    requires 0 !in I
    requires u !in Pending(tasks, D[d][s].inum) && Pending(tasks', D[d][s].inum) == Pending(tasks, D[d][s].inum) + {u}
    requires forall j :: j != D[d][s].inum ==> Pending(tasks', j) == Pending(tasks, j)
    ensures Exact(I[d := I[d].(entries := D[d][s := FREE])], D[d := D[d][s := FREE]], live, tasks')
  {
    hide Counted, Names, Subdirs, Pending;
    var I', D' := I[d := I[d].(entries := D[d][s := FREE])], D[d := D[d][s := FREE]];
    forall j | j in I' ensures Counted(I'[j].nlink, D', live, tasks', j) {
      CountedErased(I[j].nlink, D, live, tasks, tasks', d, s, u, j);
    }
  }

  lemma CountedErased(n: nat, D: Dirs, live: set<nat>, tasks: map<nat, Task>, tasks': map<nat, Task>, d: nat, s: nat,
                      u: nat, j: nat)
    requires Counted(n, D, live, tasks, j) && d in live && d in D && 2 <= s < |D[d]| && j != 0
    requires j == D[d][s].inum ==> u !in Pending(tasks, j) && Pending(tasks', j) == Pending(tasks, j) + {u}
    requires j != D[d][s].inum ==> Pending(tasks', j) == Pending(tasks, j)
    ensures Counted(n, D[d := D[d][s := FREE]], live, tasks', j)
  {
    hide Names, Subdirs, Pending;
    NamesErase(D, live, d, s, j);
    SubdirsSame(D, live, d, D[d][s := FREE], j);
  }

  /** sys_unlink erases the entry of an empty directory, whose ".." stops counting for `d` at once. */
  lemma DirErased(I: Inodes, tasks: map<nat, Task>, live: set<nat>, place: map<nat, Place>, depth: map<nat, nat>,
                  u: nat, d: nat, s: nat)
    requires Inv(I, tasks, live, place, depth, {}) && u in tasks && tasks[u] == Parent(d) && d in live && d in I
    requires 2 <= s < |I[d].entries| && I[d].entries[s].inum in I && I[I[d].entries[s].inum].kind.Directory?
    requires Bare(I[I[d].entries[s].inum].entries)
    ensures I[d].nlink > 1 && I[d].entries[s].inum in live
    ensures Inv(I[d := I[d].(nlink := I[d].nlink - 1, entries := I[d].entries[s := FREE])],
                tasks[u := Unlinking(I[d].entries[s].inum)], live - {I[d].entries[s].inum}, place, depth, {d})
  {
    hide Names, Subdirs, Pending, Tree, Ranked, Exact, LiveOk, NoOrphans, Bare;
    var D, i, e := Contents(I), I[d].entries[s].inum, I[d].entries[s := FREE];
    var tasks' := tasks[u := Unlinking(i)];
    HeadOf(D, DirSet(I), live, place, d);
    EraseDirEntry(D, DirSet(I), live, place, d, s);
    HeadOf(D, DirSet(I), live, place, i);
    TwoCounts(I, tasks, live, place, d, i);
    WrittenContents(I, d, I[d].nlink - 1, e);
    NoSubdirsBare(D, DirSet(I), live, place, i);
    RankedSame(D, live, depth, d, e);
    SubdirsSame(D, live, d, e, i);
    RankedLess(D[d := e], live, depth, i);
    MarkedPending(tasks, u, Unlinking(i));
    NotLockedLive(I, live, tasks, i);
    ExactDirErased(I, D, live, tasks, tasks', d, s, u);
    LiveLess(I, live, tasks, tasks', d, e, i);
    OrphansKept(I, tasks, tasks', u, {});
    assert {} + {d} == {d};
    OrphansButD(I, tasks', d, I[d].nlink - 1, e);
  }

  lemma NotLockedLive(I: Inodes, live: set<nat>, tasks: map<nat, Task>, i: nat)
    requires LiveOk(I, live, tasks) && i in live
    ensures !Locked(tasks, i)
  {
  }

  /** A live directory with a subdirectory has at least two links: its own entry, or the root's "..", and the "..". */
  lemma TwoCounts(I: Inodes, tasks: map<nat, Task>, live: set<nat>, place: map<nat, Place>, d: nat, i: nat)
    requires Tree(Contents(I), DirSet(I), live, place) && Exact(I, Contents(I), live, tasks)
    requires d in live && d in I && i in live && i != ROOT && i in I && |I[i].entries| >= 2 && I[i].entries[1].inum == d
    ensures I[d].nlink >= 2
  {
    hide Tree, Names, Pending;
    var D := Contents(I);
    assert i in Subdirs(D, live, d);
    if d == ROOT {
      RootsParent(D, DirSet(I), live, place);
      TwoIn(Subdirs(D, live, d), i, ROOT);
    } else {
      NamedOnce(D, DirSet(I), live, place, d);
    }
    assert Counted(I[d].nlink, D, live, tasks, d);
  }

  lemma RootsParent(D: Dirs, dirs: set<nat>, live: set<nat>, place: map<nat, Place>)
    requires Tree(D, dirs, live, place)
    ensures ROOT in Subdirs(D, live, ROOT)
  {
    assert DirOk(D, dirs, live, place, ROOT);
  }

  lemma TwoIn(S: set<nat>, a: nat, b: nat)
    requires a in S && b in S && a != b
    ensures |S| >= 2
  {
    assert |S - {a} - {b}| == |S| - 2;
  }

  lemma NoSubdirsBare(D: Dirs, dirs: set<nat>, live: set<nat>, place: map<nat, Place>, i: nat)
    requires Tree(D, dirs, live, place) && i != ROOT && i in D && Bare(D[i])
    ensures Subdirs(D, live, i) == {}
  {
    hide Tree;
    NoSubdirs(D, dirs, live, place, i);
  }

  lemma RankedLess(D: Dirs, live: set<nat>, depth: map<nat, nat>, i: nat)
    requires Ranked(D, live, depth) && Subdirs(D, live, i) == {}
    ensures Ranked(D, live - {i}, depth)
  {
    forall e | e in live ensures e in D && |D[e]| >= 2 && D[e][1].inum != i {
      assert e !in Subdirs(D, live, i);
    }
  }

  lemma LiveLess(I: Inodes, live: set<nat>, tasks: map<nat, Task>, tasks': map<nat, Task>, d: nat, e: seq<Dirent>,
                 i: nat)
    requires LiveOk(I, live, tasks) && d in live && d in I && I[d].nlink > 1 && d != i
    requires forall k :: Locked(tasks', k) <==> Locked(tasks, k) || k == i
    ensures LiveOk(I[d := I[d].(nlink := I[d].nlink - 1, entries := e)], live - {i}, tasks')
  {
    hide Locked;
  }

  lemma OrphansButD(I: Inodes, tasks: map<nat, Task>, d: nat, n: nat, e: seq<Dirent>)
    requires NoOrphans(I, tasks, {d}) && d in I
    ensures NoOrphans(I[d := I[d].(nlink := n, entries := e)], tasks, {d})
  {
    hide Referenced;
  }

  /** Without an empty directory `i`, the same entries are seen, and one ".." less. */
  lemma WithoutBare(D: Dirs, live: set<nat>, i: nat, j: nat)
    requires i in live && i in D && Bare(D[i]) && |D[i]| >= 2 && j != 0
    ensures Names(D, live - {i}, j) == Names(D, live, j)
    ensures Subdirs(D, live - {i}, j) == Subdirs(D, live, j) - {i} && (i in Subdirs(D, live, j) <==> D[i][1].inum == j)
  {
    forall p | p in Names(D, live, j) ensures p in Names(D, live - {i}, j) {
      assert D[p.dir][p.slot].inum == j;
    }
  }

  lemma ExactDirErased(I: Inodes, D: Dirs, live: set<nat>, tasks: map<nat, Task>, tasks': map<nat, Task>, d: nat,
                       s: nat, u: nat)
    requires Exact(I, D, live, tasks) && d in I && d in live && d in D && D[d] == I[d].entries && 2 <= s < |D[d]|
    requires 0 !in I
    requires var i := D[d][s].inum;
             && i in live && i in D && Bare(D[i]) && |D[i]| >= 2 && D[i][1].inum == d && i != d
             && u !in Pending(tasks, i) && Pending(tasks', i) == Pending(tasks, i) + {u}
             && forall j :: j != i ==> Pending(tasks', j) == Pending(tasks, j)
    requires I[d].nlink > 0
    ensures Exact(I[d := I[d].(nlink := I[d].nlink - 1, entries := D[d][s := FREE])], D[d := D[d][s := FREE]],
                  live - {D[d][s].inum}, tasks')
  {
    var i := D[d][s].inum;
    var I', D' := I[d := I[d].(nlink := I[d].nlink - 1, entries := D[d][s := FREE])], D[d := D[d][s := FREE]];
    hide Names, Subdirs, Pending, Bare;
    forall j | j in I' ensures Counted(I'[j].nlink, D', live - {i}, tasks', j) {
      assert Counted(I[j].nlink, D, live, tasks, j);
      NamesErase(D, live, d, s, j);
      SubdirsSame(D, live, d, D'[d], j);
      WithoutBare(D', live, i, j);
    }
  }

  // ---------- create ----------

  /** Nothing speaks of an inode number that is not in use. */
  lemma Unheard(I: Inodes, tasks: map<nat, Task>, live: set<nat>, place: map<nat, Place>, i: nat)
    requires Tree(Contents(I), DirSet(I), live, place) && TasksOk(I, tasks) && i !in I && i != 0
    ensures Names(Contents(I), live, i) == {} && Subdirs(Contents(I), live, i) == {} && Pending(tasks, i) == {}
    ensures !Locked(tasks, i)
  {
    var D: Dirs := Contents(I);
    forall d, s: nat | d in live && d in D && 2 <= s < |D[d]| ensures D[d][s].inum != i {
      assert DirOk(D, DirSet(I), live, place, d);
      assert EntryOk(D, DirSet(I), live, place, d, s);
    }
    forall d | d in live && d in D && |D[d]| >= 2 ensures D[d][1].inum != i {
      assert DirOk(D, DirSet(I), live, place, d);
    }
  }

  /** A new inode that is no live directory shows in no count. */
  lemma NewFileSets(D: Dirs, live: set<nat>, i: nat, j: nat)
    requires i !in live
    ensures Names(D[i := []], live, j) == Names(D, live, j) && Subdirs(D[i := []], live, j) == Subdirs(D, live, j)
  {
  }

  /** A new directory adds its ".." and no entry. */
  lemma NewDirSets(D: Dirs, live: set<nat>, i: nat, e: seq<Dirent>, j: nat)
    requires i !in live && |e| == 2
    ensures Names(D[i := e], live + {i}, j) == Names(D, live, j)
    ensures Subdirs(D[i := e], live + {i}, j) == Subdirs(D, live, j) + if e[1].inum == j then {i} else {}
  {
    forall p | p in Names(D, live, j) ensures p in Names(D[i := e], live + {i}, j) {
      assert D[p.dir][p.slot].inum == j;
    }
  }

  /** The inodes after a new one is made and entered in slot `s` of `d`. */
  function WithNew(I: Inodes, d: nat, n: nat, s: nat, x: Dirent, v: Inode): Inodes {
    if d in I && s <= |I[d].entries| then I[x.inum := v][d := I[d].(nlink := n, entries := Put(I[d].entries, s, x))]
    else I
  }

  lemma ExactNewFile(I: Inodes, D: Dirs, live: set<nat>, tasks: map<nat, Task>, tasks': map<nat, Task>, d: nat, s: nat,
                     x: Dirent, k: Kind)
    requires Exact(I, D, live, tasks) && d in I && d in live && d in D && D[d] == I[d].entries && SlotFree(D[d], s)
    requires 0 !in I
    requires x.inum !in I && x.inum !in live && x.inum != 0
    requires Names(D, live, x.inum) == {} && Subdirs(D, live, x.inum) == {} && Pending(tasks, x.inum) == {}
    requires forall j :: Pending(tasks', j) == Pending(tasks, j)
    ensures Exact(WithNew(I, d, I[d].nlink, s, x, Inode(k, 1, [])), D[x.inum := []][d := Put(D[d], s, x)], live, tasks')
  {
    hide Names, Subdirs, Pending, Put, Counted;
    var I', D' := WithNew(I, d, I[d].nlink, s, x, Inode(k, 1, [])), D[x.inum := []][d := Put(D[d], s, x)];
    forall j | j in I' ensures Counted(I'[j].nlink, D', live, tasks', j) {
      if j == x.inum {
        NobodyCounted(D, live, tasks, j);
        CountedNewFile(0, D, live, tasks, tasks', d, s, x, j);
      } else {
        CountedNewFile(I[j].nlink, D, live, tasks, tasks', d, s, x, j);
      }
    }
  }

  lemma NobodyCounted(D: Dirs, live: set<nat>, tasks: map<nat, Task>, i: nat)
    requires Names(D, live, i) == {} && Subdirs(D, live, i) == {} && Pending(tasks, i) == {}
    ensures Counted(0, D, live, tasks, i)
  {
  }

  lemma CountedNewFile(n: nat, D: Dirs, live: set<nat>, tasks: map<nat, Task>, tasks': map<nat, Task>, d: nat, s: nat,
                       x: Dirent, j: nat)
    requires Counted(n, D, live, tasks, j) && Pending(tasks', j) == Pending(tasks, j)
    requires d in live && d in D && SlotFree(D[d], s) && x.inum !in live && j != 0
    ensures Counted(n + (if j == x.inum then 1 else 0), D[x.inum := []][d := Put(D[d], s, x)], live, tasks', j)
  {
    hide Names, Subdirs, Pending;
    var D1 := D[x.inum := []];
    PutHead(D[d], s, x);
    NewFileSets(D, live, x.inum, j);
    NamesPut(D1, live, d, s, x, j);
    SubdirsSame(D1, live, d, Put(D[d], s, x), j);
  }

  lemma ExactNewDir(I: Inodes, D: Dirs, live: set<nat>, tasks: map<nat, Task>, tasks': map<nat, Task>, d: nat, s: nat,
                    x: Dirent, e: seq<Dirent>)
    requires Exact(I, D, live, tasks) && d in I && d in live && d in D && D[d] == I[d].entries && SlotFree(D[d], s)
    requires 0 !in I
    requires x.inum !in I && x.inum !in live && x.inum != 0 && |e| == 2 && e[1].inum == d
    requires Names(D, live, x.inum) == {} && Subdirs(D, live, x.inum) == {} && Pending(tasks, x.inum) == {}
    requires forall j :: Pending(tasks', j) == Pending(tasks, j)
    ensures Exact(WithNew(I, d, I[d].nlink + 1, s, x, Inode(Directory, 1, e)), D[x.inum := e][d := Put(D[d], s, x)],
                  live + {x.inum}, tasks')
  {
    hide Names, Subdirs, Pending, Put, Counted;
    var I' := WithNew(I, d, I[d].nlink + 1, s, x, Inode(Directory, 1, e));
    var D' := D[x.inum := e][d := Put(D[d], s, x)];
    forall j | j in I' ensures Counted(I'[j].nlink, D', live + {x.inum}, tasks', j) {
      if j == x.inum {
        NobodyCounted(D, live, tasks, j);
        CountedNewDir(0, D, live, tasks, tasks', d, s, x, e, j);
      } else {
        CountedNewDir(I[j].nlink, D, live, tasks, tasks', d, s, x, e, j);
      }
    }
  }

  lemma CountedNewDir(n: nat, D: Dirs, live: set<nat>, tasks: map<nat, Task>, tasks': map<nat, Task>, d: nat, s: nat,
                      x: Dirent,
                      e: seq<Dirent>, j: nat)
    requires Counted(n, D, live, tasks, j) && Pending(tasks', j) == Pending(tasks, j)
    requires d in live && d in D && SlotFree(D[d], s) && x.inum !in live && j != 0 && |e| == 2 && e[1].inum == d
    ensures Counted(n + (if j == x.inum || j == d then 1 else 0), D[x.inum := e][d := Put(D[d], s, x)],
                    live + {x.inum}, tasks', j)
  {
    hide Names, Subdirs, Pending;
    var D1 := D[x.inum := e];
    PutHead(D[d], s, x);
    NewDirSets(D, live, x.inum, e, j);
    NotSubdir(D, live, x.inum, j);
    NamesPut(D1, live + {x.inum}, d, s, x, j);
    SubdirsSame(D1, live + {x.inum}, d, Put(D[d], s, x), j);
  }

  lemma FileCreated(I: Inodes, tasks: map<nat, Task>, live: set<nat>, place: map<nat, Place>, depth: map<nat, nat>,
                    u: nat, d: nat, s: nat, x: Dirent, k: Kind)
    requires Inv(I, tasks, live, place, depth, {}) && u in tasks && tasks[u] == Parent(d) && d in live && d in I
    requires SlotFree(I[d].entries, s) && NameFree(I[d].entries, x.name) && x.inum !in I && x.inum != 0 && !k.Directory?
    ensures Inv(WithNew(I, d, I[d].nlink, s, x, Inode(k, 1, [])), tasks[u := Ref(x.inum)], live, place, depth, {d})
  {
    hide Names, Subdirs, Pending, Tree, Ranked, Exact, LiveOk, NoOrphans, NameFree, Put;
    var i, e, D := x.inum, Put(I[d].entries, s, x), Contents(I);
    var I1 := I[i := Inode(k, 1, [])];
    HeadOf(D, DirSet(I), live, place, d);
    Unheard(I, tasks, live, place, i);
    NotLive(I, live, tasks, i);
    assert Contents(I1) == D[i := []] && DirSet(I1) == DirSet(I);
    WrittenContents(I1, d, I[d].nlink, e);
    AddInode(D, DirSet(I), live, place, i);
    AddFileEntry(D[i := []], DirSet(I), live, place, d, s, x);
    PutHead(I[d].entries, s, x);
    RankedNew(D, live, depth, i, []);
    RankedSame(D[i := []], live, depth, d, e);
    PlainPut(tasks, u, Ref(i));
    ExactNewFile(I, D, live, tasks, tasks[u := Ref(i)], d, s, x, k);
    LiveNewFile(I, live, tasks, tasks[u := Ref(i)], d, e, i, k);
    OrphansKept(I, tasks, tasks[u := Ref(i)], u, {});
    assert {} + {d} == {d};
    OrphansCreated(I, tasks[u := Ref(i)], d, I[d].nlink, e, i, Inode(k, 1, []));
  }

  lemma NotLive(I: Inodes, live: set<nat>, tasks: map<nat, Task>, i: nat)
    requires LiveOk(I, live, tasks) && i !in I
    ensures i !in live
  {
  }

  lemma RankedNew(D: Dirs, live: set<nat>, depth: map<nat, nat>, i: nat, e: seq<Dirent>)
    requires Ranked(D, live, depth) && i !in live
    ensures Ranked(D[i := e], live, depth)
  {
  }

  lemma LiveNewFile(I: Inodes, live: set<nat>, tasks: map<nat, Task>, tasks': map<nat, Task>, d: nat, e: seq<Dirent>,
                    i: nat, k: Kind)
    requires LiveOk(I, live, tasks) && d in I && i !in I && !k.Directory?
             && forall j :: Locked(tasks', j) <==> Locked(tasks, j)
    ensures LiveOk(I[i := Inode(k, 1, [])][d := I[d].(nlink := I[d].nlink, entries := e)], live, tasks')
  {
    hide Locked;
  }

  lemma OrphansCreated(I: Inodes, tasks: map<nat, Task>, d: nat, n: nat, e: seq<Dirent>, i: nat, v: Inode)
    requires NoOrphans(I, tasks, {d}) && d in I && i !in I && v.nlink > 0
    ensures NoOrphans(I[i := v][d := I[d].(nlink := n, entries := e)], tasks, {d})
  {
    hide Referenced;
  }

  lemma DirCreated(I: Inodes, tasks: map<nat, Task>, live: set<nat>, place: map<nat, Place>, depth: map<nat, nat>,
                   u: nat, d: nat, s: nat, x: Dirent)
    requires Inv(I, tasks, live, place, depth, {}) && u in tasks && tasks[u] == Parent(d) && d in live && d in I
    requires d in depth
    requires SlotFree(I[d].entries, s) && NameFree(I[d].entries, x.name) && x.inum !in I && x.inum != 0
    requires I[d].nlink < NLINK_MAX
    ensures Inv(WithNew(I, d, I[d].nlink + 1, s, x, Inode(Directory, 1, [Dirent(x.inum, "."), Dirent(d, "..")])),
                tasks[u := Ref(x.inum)], live + {x.inum}, place[x.inum := Place(d, s)], depth[x.inum := depth[d] + 1],
                  {d})
  {
    hide Names, Subdirs, Pending, Tree, Ranked, Exact, LiveOk, NoOrphans, NameFree, Put;
    var i, e, D := x.inum, Put(I[d].entries, s, x), Contents(I);
    var e0 := [Dirent(i, "."), Dirent(d, "..")];
    var I1 := I[i := Inode(Directory, 1, e0)];
    HeadOf(D, DirSet(I), live, place, d);
    Unheard(I, tasks, live, place, i);
    NotLive(I, live, tasks, i);
    assert Contents(I1) == D[i := e0] && DirSet(I1) == DirSet(I) + {i};
    WrittenContents(I1, d, I[d].nlink + 1, e);
    AddDirEntry(D, DirSet(I), live, place, d, s, x, D[i := e0][d := e]);
    PutHead(I[d].entries, s, x);
    RankedNewDir(D, live, depth, i, e0, d);
    RankedSame(D[i := e0], live + {i}, depth[i := depth[d] + 1], d, e);
    PlainPut(tasks, u, Ref(i));
    ExactNewDir(I, D, live, tasks, tasks[u := Ref(i)], d, s, x, e0);
    LiveNewDir(I, live, tasks, tasks[u := Ref(i)], d, I[d].nlink + 1, e, i, e0);
    OrphansKept(I, tasks, tasks[u := Ref(i)], u, {});
    assert {} + {d} == {d};
    OrphansCreated(I, tasks[u := Ref(i)], d, I[d].nlink + 1, e, i, Inode(Directory, 1, e0));
  }

  lemma NotSubdir(D: Dirs, live: set<nat>, i: nat, d: nat)
    requires i !in live
    ensures i !in Subdirs(D, live, d)
  {
  }

  lemma RankedNewDir(D: Dirs, live: set<nat>, depth: map<nat, nat>, i: nat, e: seq<Dirent>, d: nat)
    requires Ranked(D, live, depth) && i !in live && d in live && |e| == 2 && e[1].inum == d && d in depth
    ensures Ranked(D[i := e], live + {i}, depth[i := depth[d] + 1])
  {
  }

  lemma LiveNewDir(I: Inodes, live: set<nat>, tasks: map<nat, Task>, tasks': map<nat, Task>, d: nat, n: nat,
                   e: seq<Dirent>, i: nat, e0: seq<Dirent>)
    requires LiveOk(I, live, tasks) && d in live && d in I && i !in I && n > 0 && !Locked(tasks, i)
    requires forall j :: Locked(tasks', j) <==> Locked(tasks, j)
    ensures LiveOk(I[i := Inode(Directory, 1, e0)][d := I[d].(nlink := n, entries := e)], live + {i}, tasks')
  {
    hide Locked;
  }

  // ---------- what the invariant says about link counts ----------

  /**
    Between system calls an inode's link count is its entries plus the ".." of its subdirectories, and
    nothing else.
   */
  lemma ExactWhenQuiet(I: Inodes, tasks: map<nat, Task>, live: set<nat>, place: map<nat, Place>, depth: map<nat, nat>,
                       i: nat)
    requires Inv(I, tasks, live, place, depth, {}) && i in I && forall t :: t in tasks ==> Plain(tasks[t])
    ensures I[i].nlink == |Names(Contents(I), live, i)| + |Subdirs(Contents(I), live, i)|
  {
    hide Tree, Ranked, Names, Subdirs;
    assert Counted(I[i].nlink, Contents(I), live, tasks, i);
    assert Pending(tasks, i) == {};
  }

  /** What a live directory names has a link: "unlink: nlink < 1" cannot happen. */
  lemma NamedHasLink(I: Inodes, tasks: map<nat, Task>, live: set<nat>, d: nat, s: nat)
    requires Exact(I, Contents(I), live, tasks) && d in live && d in I && 2 <= s < |I[d].entries|
    requires I[d].entries[s].inum in I
    ensures I[I[d].entries[s].inum].nlink >= 1
  {
    var i := I[d].entries[s].inum;
    assert Counted(I[i].nlink, Contents(I), live, tasks, i);
    assert Contents(I)[d][s].inum == i;
    assert Place(d, s) in Names(Contents(I), live, i);
  }

  /** A live directory other than the root has one link and one for each subdirectory; an empty one has exactly one. */
  lemma DirectoryLinks(I: Inodes, tasks: map<nat, Task>, live: set<nat>, place: map<nat, Place>, depth: map<nat, nat>,
                       i: nat)
    requires Inv(I, tasks, live, place, depth, {}) && i in live && i != ROOT
    ensures i in I && I[i].nlink == 1 + |Subdirs(Contents(I), live, i)|
    ensures (forall s: nat :: 2 <= s < |I[i].entries| ==> I[i].entries[s].inum == 0) ==> I[i].nlink == 1
  {
    hide Tree, Ranked, Names, Subdirs, NoOrphans;
    assert i in I && !Locked(tasks, i);
    NoPending(I, tasks, i);
    NamedOnce(Contents(I), DirSet(I), live, place, i);
    assert Counted(I[i].nlink, Contents(I), live, tasks, i);
    if forall s: nat :: 2 <= s < |I[i].entries| ==> I[i].entries[s].inum == 0 {
      NoSubdirs(Contents(I), DirSet(I), live, place, i);
    }
  }

  lemma NoPending(I: Inodes, tasks: map<nat, Task>, i: nat)
    requires TasksOk(I, tasks) && i in I && I[i].kind.Directory? && !Locked(tasks, i)
    ensures Pending(tasks, i) == {}
  {
  }

  /** Whatever a live directory names is allocated: "ilock: no type" cannot happen. */
  lemma NamedAllocated(I: Inodes, live: set<nat>, place: map<nat, Place>, d: nat, s: nat)
    requires Tree(Contents(I), DirSet(I), live, place) && d in live && d in I && s < |I[d].entries|
    requires I[d].entries[s].inum != 0
    ensures I[d].entries[s].inum in I
    ensures s == 0 ==> I[d].entries[s].name == "."
    ensures s == 1 ==> I[d].entries[s].name == ".."
  {
    assert DirOk(Contents(I), DirSet(I), live, place, d);
    if s >= 2 { assert EntryOk(Contents(I), DirSet(I), live, place, d, s); }
  }

  /** A directory that has been unlinked has nothing to look up but "." and "..". */
  lemma DeadIsBare(I: Inodes, live: set<nat>, place: map<nat, Place>, d: nat)
    requires Tree(Contents(I), DirSet(I), live, place) && d in I && I[d].kind.Directory? && d !in live
    ensures Bare(I[d].entries)
  {
    assert d in DirSet(I);
    assert Contents(I)[d] == I[d].entries;
  }

  /** An empty live directory holds "." and ".." and no more. */
  lemma EmptyIsBare(I: Inodes, live: set<nat>, place: map<nat, Place>, d: nat)
    requires Tree(Contents(I), DirSet(I), live, place) && d in live && d in I
    requires forall s: nat :: 2 <= s < |I[d].entries| ==> I[d].entries[s].inum == 0
    ensures Bare(I[d].entries)
  {
    assert DirOk(Contents(I), DirSet(I), live, place, d);
  }

  lemma NothingButRoot(I: Inodes)
    requires I == map[ROOT := Inode(Directory, 1, [Dirent(ROOT, "."), Dirent(ROOT, "..")])]
    ensures Inv(I, map[], {ROOT}, map[], map[ROOT := 0], {})
  {
    var D := Contents(I);
    assert DirOk(D, DirSet(I), {ROOT}, map[], ROOT);
    assert Names(D, {ROOT}, ROOT) == {} && Subdirs(D, {ROOT}, ROOT) == {ROOT} && Pending(map[], ROOT) == {};
    assert Counted(I[ROOT].nlink, D, {ROOT}, map[], ROOT);
  }

  lemma TaskFacts(I: Inodes, tasks: map<nat, Task>, live: set<nat>, place: map<nat, Place>, depth: map<nat, nat>,
                  t: nat)
    requires Inv(I, tasks, live, place, depth, {}) && t in tasks
    ensures tasks[t].ip in I && (tasks[t].Parent? ==> I[tasks[t].ip].kind.Directory?)
    ensures tasks[t].Linking? ==> !I[tasks[t].ip].kind.Directory?
    ensures Tree(Contents(I), DirSet(I), live, place) && Exact(I, Contents(I), live, tasks) && ROOT in I
  {
    hide Ranked, Exact, NoOrphans;
  }

  lemma LiveFacts(I: Inodes, tasks: map<nat, Task>, live: set<nat>, place: map<nat, Place>, depth: map<nat, nat>,
                  d: nat)
    requires Inv(I, tasks, live, place, depth, {})
    ensures d in live <==> d in I && I[d].kind.Directory? && I[d].nlink > 0 && !Locked(tasks, d)
    ensures d in live ==> d in depth
    ensures 0 !in I
  {
    hide Exact, NoOrphans;
  }

  lemma FreeSlotPastHead(I: Inodes, live: set<nat>, place: map<nat, Place>, d: nat, s: nat)
    requires Tree(Contents(I), DirSet(I), live, place) && d in live && d in I && s <= |I[d].entries|
    requires (forall k: nat :: k < s ==> I[d].entries[k].inum != 0)
    requires (s < |I[d].entries| ==> I[d].entries[s].inum == 0)
    ensures SlotFree(I[d].entries, s)
  {
    HeadOf(Contents(I), DirSet(I), live, place, d);
  }

  lemma RootFacts(I: Inodes, tasks: map<nat, Task>, live: set<nat>, place: map<nat, Place>, depth: map<nat, nat>)
    requires Inv(I, tasks, live, place, depth, {})
    ensures ROOT in I && ROOT in live
  {
    hide Ranked, Exact, NoOrphans, LiveOk, TasksOk;
  }

  /** The inode, or an unused one. */
  function At(I: Inodes, i: nat): Inode { if i in I then I[i] else Inode(File, 0, []) }

  function Recounted(I: Inodes, i: nat, n: int): Inodes {
    if i in I && I[i].nlink + n >= 0 then I[i := I[i].(nlink := I[i].nlink + n)] else I
  }

  function Erased(I: Inodes, d: nat, s: nat): Inodes {
    if d in I && s < |I[d].entries| then I[d := I[d].(entries := I[d].entries[s := FREE])] else I
  }

  function Entered(I: Inodes, d: nat, s: nat, x: Dirent): Inodes {
    if d in I && s <= |I[d].entries| then I[d := I[d].(entries := Put(I[d].entries, s, x))] else I
  }

  /** Slot `s` of `d` is in use for `name`, and names `i`. */
  predicate Holds(I: Inodes, d: nat, s: nat, name: string, i: nat) {
    s < |At(I, d).entries| && At(I, d).entries[s] == Dirent(i, name) && i != 0
  }

  /** What iput leaves of the inode table. */
  function Settled(I: Inodes, tasks: map<nat, Task>, i: nat): Inodes {
    if i in I && I[i].nlink == 0 && !Referenced(tasks, i) then I - {i} else I
  }

  class FileTree {
    const ninodes: nat
    var inodes: Inodes
    var tasks: map<nat, Task>
    ghost var live: set<nat>
    ghost var place: map<nat, Place>
    ghost var depth: map<nat, nat>

    ghost predicate Valid()
      reads this
    {
      Inv(inodes, tasks, live, place, depth, {}) && forall i :: i in inodes ==> i < ninodes
    }

    /** A new file system: the root, which is its own parent. */
    constructor (ninodes: nat)
      requires ninodes > ROOT
      ensures Valid() && tasks == map[] && inodes.Keys == {ROOT} && this.ninodes == ninodes
    {
      this.ninodes := ninodes;
      inodes := map[ROOT := Inode(Directory, 1, [Dirent(ROOT, "."), Dirent(ROOT, "..")])];
      tasks := map[];
      live := {ROOT};
      place := map[];
      depth := map[ROOT := 0];
      new;
      NothingButRoot(inodes);
    }

    /** iput, after the caller's own reference has gone. */
    method Iput(i: nat, ghost but: set<nat>)
      requires Inv(inodes, tasks, live, place, depth, but)
      modifies this`inodes
      ensures Inv(inodes, tasks, live, place, depth, but - {i})
      ensures inodes == Settled(old(inodes), tasks, i)
    {
      hide Inv, Tree, Exact, Locked, Referenced;
      if i in inodes && inodes[i].nlink == 0 && !Referenced(tasks, i) {
        Reclaimed(inodes, tasks, live, place, depth, but, i);
        inodes := inodes - {i};
      } else {
        Retained(inodes, tasks, live, place, depth, but, i);
      }
    }

    /** Give up a plain reference. */
    method Put(t: nat)
      requires Valid() && t in tasks && Plain(tasks[t])
      modifies this`tasks, this`inodes
      ensures Valid() && tasks == old(tasks) - {t} && inodes == Settled(old(inodes), tasks, old(tasks)[t].ip)
    {
      hide Inv, Tree, Exact, Locked, Referenced;
      var i := tasks[t].ip;
      RefDropped(inodes, tasks, live, place, depth, {}, t);
      tasks := tasks - {t};
      Iput(i, {} + {i});
      assert {} + {i} - {i} == {};
    }

    /** iget of the root: where an absolute path starts. */
    method Begin(t: nat)
      requires Valid() && t !in tasks
      modifies this`tasks
      ensures Valid() && tasks == old(tasks)[t := Ref(ROOT)]
    {
      hide Inv, Tree, Exact, Locked, Referenced;
      RootFacts(inodes, tasks, live, place, depth);
      NothingAdded();
      RefTaken(inodes, tasks, live, place, depth, {}, t, Ref(ROOT));
      tasks := tasks[t := Ref(ROOT)];
    }

    /** idup: another reference to the same inode. */
    method Dup(t: nat, u: nat)
      requires Valid() && t in tasks && u !in tasks
      modifies this`tasks
      ensures Valid() && tasks == old(tasks)[u := Ref(old(tasks)[t].ip)]
    {
      hide Inv, Tree, Exact, Locked, Referenced;
      TaskFacts(inodes, tasks, live, place, depth, t);
      NothingAdded();
      RefTaken(inodes, tasks, live, place, depth, {}, u, Ref(tasks[t].ip));
      tasks := tasks[u := Ref(tasks[t].ip)];
    }

    /** One round of namex: look up one path element in a directory that is still linked. */
    method Walk(t: nat, name: string) returns (r: Outcome)
      requires Valid() && t in tasks && tasks[t].Ref?
      modifies this`tasks, this`inodes
      ensures Valid()
      ensures var d := old(tasks)[t].ip;
              && (r == Blocked <==> Locked(old(tasks), d))
              && (r == Blocked ==> tasks == old(tasks) && inodes == old(inodes))
              && (r == Done ==>
                    && d in old(live)
                    && (exists i, s: nat ::
                          Holds(old(inodes), d, s, name, i) && i in inodes && tasks == old(tasks)[t := Ref(i)])
                    && inodes == Settled(old(inodes), tasks, d))
              && (r == Failed ==>
                    && tasks == old(tasks) - {t} && inodes == Settled(old(inodes), tasks, d)
                    && (d !in old(live) || NameFree(At(old(inodes), d).entries, name)))
              && r != Panic
    {
      hide Inv, Tree, Exact, Locked, Referenced;
      var d := tasks[t].ip;
      if Locked(tasks, d) {
        return Blocked;
      }
      TaskFacts(inodes, tasks, live, place, depth, t);
      LiveFacts(inodes, tasks, live, place, depth, d);
      if !inodes[d].kind.Directory? || inodes[d].nlink == 0 {
        Put(t);
        return Failed;
      }
      var s := Dirlookup(inodes[d].entries, name);
      if s.None? {
        Put(t);
        return Failed;
      }
      var next := inodes[d].entries[s.value].inum;
      NamedAllocated(inodes, live, place, d, s.value);
      RefTaken(inodes, tasks, live, place, depth, {}, t, Ref(next));
      tasks := tasks[t := Ref(next)];
      Iput(d, {} + {d});
      assert {} + {d} - {d} == {};
      TaskFacts(inodes, tasks, live, place, depth, t);
      assert Holds(old(inodes), d, s.value, name, next);
      r := Done;
    }

    /** nameiparent stops at the last directory, which is linked when it looks. */
    method ResolveParent(t: nat) returns (r: Outcome)
      requires Valid() && t in tasks && tasks[t].Ref?
      modifies this`tasks, this`inodes
      ensures Valid()
      ensures var d := old(tasks)[t].ip;
              && (r == Blocked <==> Locked(old(tasks), d))
              && (r == Blocked ==> tasks == old(tasks) && inodes == old(inodes))
              && (r == Done <==> d in old(live))
              && (r == Done ==> tasks == old(tasks)[t := Parent(d)] && inodes == old(inodes))
              && (r == Failed ==> tasks == old(tasks) - {t} && inodes == Settled(old(inodes), tasks, d)) && r != Panic
    {
      hide Inv, Tree, Exact, Locked, Referenced;
      var d := tasks[t].ip;
      LiveFacts(inodes, tasks, live, place, depth, d);
      if Locked(tasks, d) {
        return Blocked;
      }
      TaskFacts(inodes, tasks, live, place, depth, t);
      if !inodes[d].kind.Directory? || inodes[d].nlink == 0 {
        Put(t);
        return Failed;
      }
      RefTaken(inodes, tasks, live, place, depth, {}, t, Parent(d));
      tasks := tasks[t := Parent(d)];
      assert {} + {d} - {d} == {};
      Retained(inodes, tasks, live, place, depth, {} + {d}, d);
      r := Done;
    }

    /** sys_link, first half: count the link before making it. */
    method LinkBegin(t: nat) returns (r: Outcome)
      requires Valid() && t in tasks && tasks[t].Ref?
      modifies this`tasks, this`inodes
      ensures Valid()
      ensures var i := old(tasks)[t].ip;
              && (r == Blocked <==> Locked(old(tasks), i))
              && (r == Blocked ==> tasks == old(tasks) && inodes == old(inodes))
              && (r == Done ==>
                    && !At(old(inodes), i).kind.Directory? && At(old(inodes), i).nlink < NLINK_MAX
                    && tasks == old(tasks)[t := Linking(i)] && inodes == Recounted(old(inodes), i, 1))
              && (r == Failed ==>
                    && tasks == old(tasks) - {t} && inodes == Settled(old(inodes), tasks, i)
                    && (At(old(inodes), i).kind.Directory? || At(old(inodes), i).nlink >= NLINK_MAX)) && r != Panic
    {
      hide Inv, Tree, Exact, Locked, Referenced;
      var i := tasks[t].ip;
      TaskFacts(inodes, tasks, live, place, depth, t);
      if Locked(tasks, i) {
        return Blocked;
      }
      if inodes[i].kind.Directory? || inodes[i].nlink >= NLINK_MAX {
        Put(t);
        return Failed;
      }
      LinkCounted(inodes, tasks, live, place, depth, t);
      inodes := inodes[i := inodes[i].(nlink := inodes[i].nlink + 1)];
      tasks := tasks[t := Linking(i)];
      r := Done;
    }

    /** sys_link, second half: enter the name in the directory task `u` resolved. */
    method LinkInto(t: nat, u: nat, name: string, room: bool) returns (r: Outcome, ghost s: nat)
      requires Valid() && t in tasks && u in tasks && tasks[t].Linking? && tasks[u].Parent?
      modifies this`tasks, this`inodes
      ensures Valid()
      ensures var i, d := old(tasks)[t].ip, old(tasks)[u].ip;
              && (r == Blocked <==> Locked(old(tasks), d))
              && (r == Blocked ==> tasks == old(tasks) && inodes == old(inodes))
              && (r == Done ==>
                    && d in old(live) && NameFree(At(old(inodes), d).entries, name)
                    && SlotFree(At(old(inodes), d).entries, s)
                    && tasks == old(tasks) - {u} - {t} && inodes == Entered(old(inodes), d, s, Dirent(i, name)))
              && (r == Failed ==> tasks == old(tasks) - {u} && inodes == Settled(old(inodes), tasks, d)) && r != Panic
      ensures r == Failed <==>
                var d := old(tasks)[u].ip;
                && !Locked(old(tasks), d)
                && (|| d !in old(live) || !NameFree(At(old(inodes), d).entries, name)
                    || (!room && Full(At(old(inodes), d).entries)))
    {
      hide Inv, Tree, Exact, Locked, Referenced;
      s := 0;
      var i, d := tasks[t].ip, tasks[u].ip;
      TaskFacts(inodes, tasks, live, place, depth, t);
      TaskFacts(inodes, tasks, live, place, depth, u);
      LiveFacts(inodes, tasks, live, place, depth, d);
      if Locked(tasks, d) {
        return Blocked, 0;
      }
      if inodes[d].nlink == 0 {
        Put(u);
        return Failed, 0;
      }
      var slot := Dirlink(inodes[d].entries, name, room);
      if slot.None? {
        Put(u);
        return Failed, 0;
      }
      s := slot.value;
      FreeSlotPastHead(inodes, live, place, d, slot.value);
      Put(u); // the directory is live, so this frees nothing
      LinkEntered(inodes, tasks, live, place, depth, t, d, slot.value, name, {});
      inodes := inodes[d := inodes[d].(entries := DirTree.Put(inodes[d].entries, slot.value, Dirent(i, name)))];
      tasks := tasks - {t};
      StillLinked(inodes, tasks, live, place, depth, {} + {i}, d, slot.value);
      Iput(i, {} + {i});
      assert {} + {i} - {i} == {};
      r := Done;
    }

    /** sys_link, undone: the parent did not resolve, or the name could not be entered. */
    method LinkUndo(t: nat) returns (r: Outcome)
      requires Valid() && t in tasks && tasks[t].Linking?
      modifies this`tasks, this`inodes
      ensures Valid()
      ensures var i := old(tasks)[t].ip;
              && (r == Blocked <==> Locked(old(tasks), i))
              && (r == Blocked ==> tasks == old(tasks) && inodes == old(inodes))
              && (r == Done ==>
                    && tasks == old(tasks) - {t} && At(old(inodes), i).nlink > 0
                    && inodes == Settled(Recounted(old(inodes), i, -1), tasks, i))
              && (r == Blocked || r == Done)
    {
      hide Inv, Tree, Exact, Locked, Referenced;
      var i := tasks[t].ip;
      TaskFacts(inodes, tasks, live, place, depth, t);
      if Locked(tasks, i) {
        return Blocked;
      }
      LinkUncounted(inodes, tasks, live, place, depth, t);
      inodes := inodes[i := inodes[i].(nlink := inodes[i].nlink - 1)];
      tasks := tasks - {t};
      Iput(i, {i});
      assert {i} - {i} == {};
      r := Done;
    }

    /** sys_unlink, first half: under both locks, erase the entry and drop the parent's count for a "..". */
    method UnlinkBegin(u: nat, name: string) returns (r: Outcome, ghost s: nat)
      requires Valid() && u in tasks && tasks[u].Parent?
      modifies this
      ensures Valid()
      ensures r != Panic
      ensures r == Blocked <==> UnlinkWaits(old(inodes), old(tasks), old(tasks)[u].ip, name)
      ensures r == Failed <==>
                && !UnlinkWaits(old(inodes), old(tasks), old(tasks)[u].ip, name)
                && UnlinkRefused(old(inodes), old(tasks)[u].ip, name)
      ensures r == Blocked ==> tasks == old(tasks) && inodes == old(inodes) && live == old(live)
      ensures r == Failed ==>
                && tasks == old(tasks) - {u} && inodes == Settled(old(inodes), tasks, old(tasks)[u].ip)
                && live == old(live)
      ensures r == Done ==>
                var d := old(tasks)[u].ip;
                && d in old(live) && s >= 2 && name != "." && name != ".."
                && exists i :: UnlinkStarted(old(inodes), old(tasks), old(live), d, s, name, i, u, inodes, tasks, live)
    {
      hide Inv, Tree, Exact, Locked, Referenced;
      s := 0;
      var d := tasks[u].ip;
      TaskFacts(inodes, tasks, live, place, depth, u);
      LiveFacts(inodes, tasks, live, place, depth, d);
      if Locked(tasks, d) {
        return Blocked, 0;
      }
      if name == "." || name == ".." {
        Put(u);
        return Failed, 0;
      }
      var slot := Dirlookup(inodes[d].entries, name);
      if slot.None? {
        NobodyHolds(inodes, d, name);
        Put(u);
        return Failed, 0;
      }
      s := slot.value;
      if d !in live { DeadIsBare(inodes, live, place, d); }
      NamedAllocated(inodes, live, place, d, slot.value);
      var i := inodes[d].entries[slot.value].inum;
      LiveFacts(inodes, tasks, live, place, depth, i);
      NamedHasLink(inodes, tasks, live, d, slot.value);
      OneHolder(inodes, live, place, d, slot.value, name, i);
      if Locked(tasks, i) {
        return Blocked, 0;
      }
      if inodes[i].nlink < 1 {
        r := Panic;
        return;
      }
      if inodes[i].kind.Directory? {
        var empty := Isdirempty(inodes[i].entries);
        if !empty {
          Put(u);
          return Failed, 0;
        }
        EmptyIsBare(inodes, live, place, i);
        DirErased(inodes, tasks, live, place, depth, u, d, slot.value);
        OneLink(inodes, tasks, live, place, depth, d, slot.value);
        live := live - {i};
        inodes := inodes[d := inodes[d].(nlink := inodes[d].nlink - 1,
                                         entries := inodes[d].entries[slot.value := FREE])];
      } else {
        FileErased(inodes, tasks, live, place, depth, u, d, slot.value);
        inodes := inodes[d := inodes[d].(entries := inodes[d].entries[slot.value := FREE])];
      }
      tasks := tasks[u := Unlinking(i)];
      Iput(d, {d});
      assert {d} - {d} == {};
      assert UnlinkStarted(old(inodes), old(tasks), old(live), d, s, name, i, u, inodes, tasks, live);
      r := Done;
    }

    /** sys_unlink, second half: drop the link's count; an unlinked directory goes from one to none. */
    method UnlinkEnd(u: nat)
      requires Valid() && u in tasks && tasks[u].Unlinking?
      modifies this`tasks, this`inodes
      ensures Valid() && tasks == old(tasks) - {u}
      ensures var i := old(tasks)[u].ip;
              && At(old(inodes), i).nlink >= 1 && (At(old(inodes), i).kind.Directory? ==> At(old(inodes), i).nlink == 1)
              && inodes == Settled(Recounted(old(inodes), i, -1), tasks, i)
    {
      hide Inv, Tree, Exact, Locked, Referenced;
      var i := tasks[u].ip;
      TaskFacts(inodes, tasks, live, place, depth, u);
      UnlinkUncounted(inodes, tasks, live, place, depth, u);
      inodes := inodes[i := inodes[i].(nlink := inodes[i].nlink - 1)];
      tasks := tasks - {u};
      Iput(i, {i});
      assert {i} - {i} == {};
    }

    /** ialloc: the first inode of type 0. */
    method Ialloc() returns (r: Option<nat>)
      ensures r.Some? ==> 0 < r.value < ninodes && r.value !in inodes && forall k: nat :: 0 < k < r.value ==>
                k in inodes
      ensures r.None? ==> forall k: nat :: 0 < k < ninodes ==> k in inodes
    {
      var inum := 1;
      while inum < ninodes
        invariant 1 <= inum && forall k: nat :: 0 < k < inum ==> k in inodes
      {
        if inum !in inodes {
          return Some(inum);
        }
        inum := inum + 1;
      }
      return None;
    }

    /** create finds the name taken by something that may be opened. */
    method OpenFound(u: nat, i: nat, ghost k: nat, ghost name: string, ghost kind: Kind)
      requires Valid() && u in tasks && tasks[u].Parent? && kind.File? && Holds(inodes, tasks[u].ip, k, name, i)
      requires i in inodes && !inodes[i].kind.Directory?
      modifies this
      ensures Valid()
      ensures Opened(old(inodes), old(tasks), old(tasks)[u].ip, kind, name, i, u, inodes, tasks, live, old(live))
    {
      hide Inv;
      var d := tasks[u].ip;
      RefTaken(inodes, tasks, live, place, depth, {}, u, Ref(i));
      tasks := tasks[u := Ref(i)];
      assert {} + {d} == {d} && {d} - {d} == {};
      Iput(d, {d});
    }

    /** create enters the new inode `i` at the free slot `s`. */
    method Enter(u: nat, i: nat, s: nat, name: string, kind: Kind, dots: seq<Dirent>)
      requires Valid() && u in tasks && tasks[u].Parent? && tasks[u].ip in live && tasks[u].ip in inodes
      requires i !in inodes && 0 < i < ninodes && forall k: nat :: 0 < k < i ==> k in inodes
      requires NameFree(inodes[tasks[u].ip].entries, name) && SlotFree(inodes[tasks[u].ip].entries, s)
      requires kind.Directory? ==>
                 inodes[tasks[u].ip].nlink < NLINK_MAX && dots == [Dirent(i, "."), Dirent(tasks[u].ip, "..")]
      modifies this
      ensures Valid()
      ensures Created(old(inodes), old(tasks), old(tasks)[u].ip, s, kind, name, i, u, inodes, tasks, live, old(live))
    {
      hide Inv, NameFree, Referenced, Locked;
      var d, x := tasks[u].ip, Dirent(i, name);
      LiveFacts(inodes, tasks, live, place, depth, d);
      if kind.Directory? {
        DirCreated(inodes, tasks, live, place, depth, u, d, s, x);
        live, place, depth := live + {i}, place[i := Place(d, s)], depth[i := depth[d] + 1];
        inodes := inodes[i := Inode(Directory, 1, dots)]
                        [d := inodes[d].(nlink := inodes[d].nlink + 1,
                                         entries := DirTree.Put(inodes[d].entries, s, x))];
      } else {
        FileCreated(inodes, tasks, live, place, depth, u, d, s, x, kind);
        inodes := inodes[i := Inode(kind, 1, [])][d := inodes[d].(entries := DirTree.Put(inodes[d].entries, s, x))];
      }
      tasks := tasks[u := Ref(i)];
      assert inodes[d].nlink > 0 && {d} - {d} == {};
      Iput(d, {d});
    }

    /**
      create: `room` says, for ".", ".." and the entry, whether the disk had a block to lengthen the
      directory with.
     */
    method Create(u: nat, name: string, kind: Kind, room: (bool, bool, bool)) returns (r: Outcome, ghost s: nat)
      requires Valid() && u in tasks && tasks[u].Parent?
      modifies this
      ensures Valid() && r != Panic
      ensures r == Blocked <==> Locked(old(tasks), old(tasks)[u].ip)
      ensures r == Blocked ==> tasks == old(tasks) && inodes == old(inodes) && live == old(live)
      ensures r == Failed ==>
                && tasks == old(tasks) - {u} && inodes == Settled(old(inodes), tasks, old(tasks)[u].ip)
                && live == old(live)
      ensures r == Failed <==>
                && !Locked(old(tasks), old(tasks)[u].ip)
                && CreateRefused(old(inodes), old(live), ninodes, old(tasks)[u].ip, kind, name, room)
      ensures r == Done ==>
                var d := old(tasks)[u].ip;
                d in old(live) &&
                exists i :: Opened(old(inodes), old(tasks), d, kind, name, i, u, inodes, tasks, live, old(live))
                         || Created(old(inodes), old(tasks), d, s, kind, name, i, u, inodes, tasks, live, old(live))
    {
      hide Inv, Tree, Exact, Locked, Referenced, Opened, Created, Settled, NameFree, SlotFree;
      s := 0;
      var d := tasks[u].ip;
      TaskFacts(inodes, tasks, live, place, depth, u);
      LiveFacts(inodes, tasks, live, place, depth, d);
      if Locked(tasks, d) {
        return Blocked, 0;
      }
      if inodes[d].nlink == 0 || (kind.Directory? && inodes[d].nlink >= NLINK_MAX) {
        Put(u);
        return Failed, 0;
      }
      var found := Dirlookup(inodes[d].entries, name);
      if found.Some? {
        var i := inodes[d].entries[found.value].inum;
        NamedAllocated(inodes, live, place, d, found.value);
        OneHolder(inodes, live, place, d, found.value, name, i);
        if !kind.File? || inodes[i].kind.Directory? {
          Put(u);
          return Failed, 0;
        }
        OpenFound(u, i, found.value, name, kind);
        return Done, 0;
      }
      NobodyHolds(inodes, d, name);
      var ip := Ialloc();
      if ip.None? {
        Put(u);
        return Failed, 0;
      }
      var i := ip.value;
      var dots := Some([]);
      if kind.Directory? {
        dots := NewDots(i, d, room.0, room.1);
      }
      var slot := Dirlink(inodes[d].entries, name, room.2);
      if dots.None? || slot.None? {
        Put(u); // the new inode's count is set to 0, and its iput frees it again
        return Failed, 0;
      }
      FreeSlotPastHead(inodes, live, place, d, slot.value);
      s := slot.value;
      Enter(u, i, slot.value, name, kind, dots.value);
      r := Done;
    }

    /**
      A crash and a reboot. The log commits only between system calls, so no count is pending on
      disk; nobody holds a reference afterwards, and ireclaim frees every inode left without links.
     */
    method Reboot()
      requires Valid() && forall t :: t in tasks ==> Plain(tasks[t])
      modifies this`tasks, this`inodes
      ensures Valid() && tasks == map[]
      ensures inodes == map i | i in old(inodes) && old(inodes)[i].nlink > 0 :: old(inodes)[i]
    {
      hide Inv;
      AllDropped(inodes, tasks, live, place, depth);
      LiveFacts(inodes, tasks, live, place, depth, 0);
      tasks := map[];
      ghost var I0, but := inodes, inodes.Keys;
      var inum := 1;
      while inum < ninodes
        invariant 1 <= inum && tasks == map[]
        invariant Inv(inodes, tasks, live, place, depth, but) && forall i :: i in but && i in inodes ==> i >= inum
        invariant forall i :: i in inodes <==> i in I0 && (i >= inum || I0[i].nlink > 0)
        invariant forall i :: i in inodes ==> inodes[i] == I0[i]
      {
        Iput(inum, but);
        but := but - {inum};
        inum := inum + 1;
      }
      NoneLeft(inodes, tasks, live, place, depth, but);
    }
  }

  /** The "." and ".." of a new directory. */
  method NewDots(i: nat, d: nat, room0: bool, room1: bool) returns (r: Option<seq<Dirent>>)
    ensures r.Some? ==> r.value == [Dirent(i, "."), Dirent(d, "..")]
    ensures r.None? <==> !room0 || !room1 || i == 0
  {
    var s0 := Dirlink([], ".", room0);
    if s0.None? {
      return None;
    }
    var e := Put([], s0.value, Dirent(i, "."));
    var s1 := Dirlink(e, "..", room1);
    if s1.None? || i == 0 {
      return None;
    }
    return Some(Put(e, s1.value, Dirent(d, "..")));
  }

  /** create found the name: an existing file or device is opened. */
  ghost predicate Opened(I: Inodes, tasks: map<nat, Task>, d: nat, kind: Kind, name: string, i: nat, u: nat,
                         I': Inodes, tasks': map<nat, Task>, live': set<nat>, live: set<nat>)
  {
    && kind.File? && !At(I, i).kind.Directory? && (exists k: nat :: Holds(I, d, k, name, i))
    && tasks' == tasks[u := Ref(i)] && I' == Settled(I, tasks', d) && live' == live
  }

  /** create made a new inode with one link, entered it, and counted a new directory's ".." in its parent. */
  ghost predicate Created(I: Inodes, tasks: map<nat, Task>, d: nat, s: nat, kind: Kind, name: string, i: nat, u: nat,
                          I': Inodes, tasks': map<nat, Task>, live': set<nat>, live: set<nat>)
  {
    && NameFree(At(I, d).entries, name) && SlotFree(At(I, d).entries, s) && i !in I && i != 0
    && (forall k: nat :: 0 < k < i ==> k in I) && tasks' == tasks[u := Ref(i)]
    && (if kind.Directory? then
          && live' == live + {i}
          && I' == WithNew(I, d, At(I, d).nlink + 1, s, Dirent(i, name),
                           Inode(kind, 1, [Dirent(i, "."), Dirent(d, "..")]))
        else live' == live && I' == WithNew(I, d, At(I, d).nlink, s, Dirent(i, name), Inode(kind, 1, [])))
  }

  lemma NoneLeft(I: Inodes, tasks: map<nat, Task>, live: set<nat>, place: map<nat, Place>, depth: map<nat, nat>,
                 but: set<nat>)
    requires Inv(I, tasks, live, place, depth, but) && forall i :: i in I && i in but ==> I[i].nlink > 0
    ensures Inv(I, tasks, live, place, depth, {})
  {
    hide Tree, Ranked, Exact, LiveOk, TasksOk, Fits;
  }

  lemma NothingAdded()
    ensures forall s: set<nat> :: s + {} == s
  {
  }

  lemma AllDropped(I: Inodes, tasks: map<nat, Task>, live: set<nat>, place: map<nat, Place>, depth: map<nat, nat>)
    requires Inv(I, tasks, live, place, depth, {}) && forall t :: t in tasks ==> Plain(tasks[t])
    ensures Inv(I, map[], live, place, depth, I.Keys)
  {
    hide Tree, Ranked, Exact, LiveOk, SameCounts;
    assert SameCounts(tasks, map[]) by { QuietCounts(tasks); }
    CountsKept(I, Contents(I), live, tasks, map[]);
  }

  lemma QuietCounts(tasks: map<nat, Task>)
    requires forall t :: t in tasks ==> Plain(tasks[t])
    ensures SameCounts(tasks, map[])
  {
    forall i ensures Pending(map[], i) == Pending(tasks, i) {
      assert Pending(tasks, i) == {};
    }
  }

  predicate IsEmptyDir(I: Inodes, i: nat) {
    i in I && I[i].kind.Directory? && forall s: nat :: 2 <= s < |I[i].entries| ==> I[i].entries[s].inum == 0
  }

  /** Every slot is in use. */
  predicate Full(e: seq<Dirent>) { forall k: nat :: k < |e| ==> e[k].inum != 0 }

  /** The name is taken by something that create must not open. */
  ghost predicate Unopenable(I: Inodes, d: nat, kind: Kind, name: string) {
    exists i, k: nat :: Holds(I, d, k, name, i) && (!kind.File? || At(I, i).kind.Directory?)
  }

  /** A block that a new entry needs could not be had. */
  predicate NoRoom(e: seq<Dirent>, kind: Kind, room: (bool, bool, bool)) {
    (kind.Directory? && !(room.0 && room.1)) || (!room.2 && Full(e))
  }

  /**
    When create gives up: the directory is unlinked or has all the links it may have, the name is
    taken, or something new is called for and there is no inode or no block for it.
   */
  ghost predicate CreateRefused(I: Inodes, live: set<nat>, ninodes: nat, d: nat, kind: Kind, name: string,
                                room: (bool, bool, bool)) {
    || d !in live || (kind.Directory? && At(I, d).nlink >= NLINK_MAX) || Unopenable(I, d, kind, name)
    || (NameFree(At(I, d).entries, name)
        && ((forall k: nat :: 0 < k < ninodes ==> k in I) || NoRoom(At(I, d).entries, kind, room)))
  }

  /** The directory, or what the name stands for in it, is locked by another sys_unlink. */
  ghost predicate UnlinkWaits(I: Inodes, tasks: map<nat, Task>, d: nat, name: string) {
    || Locked(tasks, d)
    || (name != "." && name != ".." && exists i, k: nat :: Holds(I, d, k, name, i) && Locked(tasks, i))
  }

  /** The name is "." or "..", or stands for nothing, or for a directory that is not empty. */
  ghost predicate UnlinkRefused(I: Inodes, d: nat, name: string) {
    || name == "." || name == ".." || NameFree(At(I, d).entries, name)
    || exists i, k: nat :: Holds(I, d, k, name, i) && At(I, i).kind.Directory? && !IsEmptyDir(I, i)
  }

  lemma NobodyHolds(I: Inodes, d: nat, name: string)
    requires NameFree(At(I, d).entries, name)
    ensures forall i, k: nat :: !Holds(I, d, k, name, i)
  {
  }

  /** In a live directory a name stands for one inode, in one slot. */
  lemma OneHolder(I: Inodes, live: set<nat>, place: map<nat, Place>, d: nat, s: nat, name: string, i: nat)
    requires Tree(Contents(I), DirSet(I), live, place) && d in live && d in I
    requires s < |I[d].entries| && I[d].entries[s] == Dirent(i, name) && i != 0
    ensures Holds(I, d, s, name, i) && !NameFree(At(I, d).entries, name)
    ensures forall j, k: nat :: Holds(I, d, k, name, j) ==> j == i && k == s
  {
    assert DirOk(Contents(I), DirSet(I), live, place, d);
    assert UniqueNames(I[d].entries);
  }

  /** What the first half of sys_unlink does when it goes through. */
  ghost predicate UnlinkStarted(I: Inodes, tasks: map<nat, Task>, live: set<nat>, d: nat, s: nat, name: string, i: nat,
                                u: nat,
                                I': Inodes, tasks': map<nat, Task>, live': set<nat>)
  {
    && Holds(I, d, s, name, i) && i in I' && At(I, i).nlink >= 1 && tasks' == tasks[u := Unlinking(i)]
    && (if At(I, i).kind.Directory? then
          && IsEmptyDir(I, i) && At(I, i).nlink == 1 && live' == live - {i}
          && I' == Recounted(Erased(I, d, s), d, -1)
        else live' == live && I' == Erased(I, d, s))
  }

  /** An entry just made keeps what it names. */
  lemma StillLinked(I: Inodes, tasks: map<nat, Task>, live: set<nat>, place: map<nat, Place>, depth: map<nat, nat>,
                    but: set<nat>, d: nat, s: nat)
    requires Inv(I, tasks, live, place, depth, but) && d in live && d in I && 2 <= s < |I[d].entries|
    requires I[d].entries[s].inum in I
    ensures I[I[d].entries[s].inum].nlink > 0
  {
    hide Tree, Ranked, LiveOk, TasksOk, NoOrphans;
    NamedHasLink(I, tasks, live, d, s);
  }

  lemma OneLink(I: Inodes, tasks: map<nat, Task>, live: set<nat>, place: map<nat, Place>, depth: map<nat, nat>, d: nat,
                s: nat)
    requires Inv(I, tasks, live, place, depth, {}) && d in live && d in I && 2 <= s < |I[d].entries|
    requires I[d].entries[s].inum in live && I[d].entries[s].inum in I && IsEmptyDir(I, I[d].entries[s].inum)
    ensures I[I[d].entries[s].inum].nlink == 1
  {
    hide Ranked, Exact, LiveOk, TasksOk, NoOrphans;
    assert DirOk(Contents(I), DirSet(I), live, place, d);
    assert EntryOk(Contents(I), DirSet(I), live, place, d, s);
    assert 0 !in Contents(I);
    DirectoryLinks(I, tasks, live, place, depth, I[d].entries[s].inum);
  }
}
