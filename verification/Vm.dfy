/**
  kalloc.c and vm.c: the physical page allocator and the operations on page tables.
  Page numbers stand for page-aligned addresses; `mem` is all of RAM.
 */
module Vm {
  import opened Basics
  import opened PageTable

  const JUNK_ALLOC: nat := 0x0505_0505_0505_0505
  const JUNK_FREE: nat := 0x0101_0101_0101_0101

  /** Pages in use for anything but page tables keep their use and their contents. */
  predicate Calm(mem: Memory, role: Roles, mem': Memory, role': Roles) {
    role.Keys == mem.Keys && role'.Keys == mem'.Keys &&
    (forall p :: p in role && (role[p].Frame? || role[p].Held?) ==>
                   p in role' && role'[p] == role[p] && mem'[p] == mem[p]) &&
    (forall p :: p in role' && role'[p].Held? ==> p in role && role[p].Held?)
  }

  lemma CalmSame(mem: Memory, role: Roles)
    requires role.Keys == mem.Keys
    ensures Calm(mem, role, mem, role)
  {
  }

  /** A free page is taken, filled and made a table, and the table t is rewritten. */
  lemma CalmNewTable(mem: Memory, role: Roles, p: nat, x: Page, y: Page, key: Key, t: nat, z: Page)
    requires role.Keys == mem.Keys && p in role && role[p].Free? && t in role && role[t].Table?
    ensures Calm(mem, role, mem[p := x][p := y][t := z], role[p := Held][p := Table(key)])
  {
  }

  lemma CalmRoot(mem: Memory, role: Roles, p: nat, x: Page, y: Page, key: Key)
    requires role.Keys == mem.Keys && p in role && role[p].Free?
    ensures Calm(mem, role, mem[p := x][p := y], role[p := Held][p := Table(key)])
  {
  }

  lemma CalmTrans(m0: Memory, r0: Roles, m1: Memory, r1: Roles, m2: Memory, r2: Roles)
    requires Calm(m0, r0, m1, r1) && Calm(m1, r1, m2, r2)
    ensures Calm(m0, r0, m2, r2)
  {
  }

  datatype MapResult = Mapped | NoMemory | Remap

  /** As Calm, for all pages but p. */
  predicate CalmBut(mem: Memory, role: Roles, mem': Memory, role': Roles, p: nat) {
    role.Keys == mem.Keys && role'.Keys == mem'.Keys &&
    (forall q :: q in role && q != p && (role[q].Frame? || role[q].Held?) ==>
                   q in role' && role'[q] == role[q] && mem'[q] == mem[q]) &&
    (forall q :: q in role' && q != p && role'[q].Held? ==> q in role && role[q].Held?)
  }

  predicate Inside(l: Loc, root: nat, lo: nat, hi: nat) { l.root == root && lo <= l.vpn < hi }

  /** The flat map changes at most in the pages [lo, hi) of one address space. */
  ghost predicate SameOutside(flat: Flat, flat': Flat, root: nat, lo: nat, hi: nat) {
    forall l {:trigger l in flat} {:trigger l in flat'} ::
      !Inside(l, root, lo, hi) ==> (l in flat <==> l in flat') && (l in flat ==> flat'[l] == flat[l])
  }

  /** Every mapping outside [lo, hi) of `root` survives with its contents, and so does every page that
      some caller holds. */
  ghost predicate Kept(mem: Memory, flat: Flat, role: Roles, mem': Memory, flat': Flat, role': Roles, root: nat,
                       lo: nat, hi: nat) {
    && SameOutside(flat, flat', root, lo, hi)
    && (forall l {:trigger l in flat} :: l in flat && !Inside(l, root, lo, hi) && l.vpn < TRAPFRAME ==>
          Ppn(flat[l]) in mem && Ppn(flat[l]) in mem' && mem'[Ppn(flat[l])] == mem[Ppn(flat[l])])
    && (forall p :: p in role && role[p].Held? ==>
          p in role' && role'[p].Held? && p in mem && p in mem' && mem'[p] == mem[p])
    && (forall p :: p in role' && role'[p].Held? ==> p in role && role[p].Held?)
  }

  lemma KeptSame(free: seq<nat>, mem: Memory, T: Tables, flat: Flat, role: Roles, root: nat, lo: nat, hi: nat)
    requires Good(free, mem, T, flat, role)
    ensures Kept(mem, flat, role, mem, flat, role, root, lo, hi) && Grown(T, T, root) && role.Keys == mem.Keys
  {
    forall l | l in flat && l.vpn < TRAPFRAME ensures Ppn(flat[l]) in mem {
      assert LeafOk(T, flat, role, l);
    }
  }

  /** Keeping pages calm keeps the mappings they belong to. */
  lemma CalmKept(free: seq<nat>, mem: Memory, T: Tables, flat: Flat, role: Roles, mem': Memory, flat': Flat,
                 role': Roles,
                 root: nat, lo: nat, hi: nat, p: nat)
    requires Good(free, mem, T, flat, role) && CalmBut(mem, role, mem', role', p)
    requires SameOutside(flat, flat', root, lo, hi)
    requires p in role && (role[p].Free? || (role[p].Frame? && Inside(role[p].loc, root, lo, hi)))
    requires p in role' && !role'[p].Held?
    ensures Kept(mem, flat, role, mem', flat', role', root, lo, hi)
  {
    forall l | l in flat && !Inside(l, root, lo, hi) && l.vpn < TRAPFRAME
      ensures Ppn(flat[l]) in mem && Ppn(flat[l]) in mem' && mem'[Ppn(flat[l])] == mem[Ppn(flat[l])]
    {
      assert LeafOk(T, flat, role, l);
    }
  }

  /** A table entry rewritten, nothing else touched. */
  lemma CalmKeptTable(free: seq<nat>, mem: Memory, T: Tables, flat: Flat, role: Roles, mem': Memory, flat': Flat,
                      root: nat, lo: nat, hi: nat, t: nat, x: Page)
    requires Good(free, mem, T, flat, role) && t in role && role[t].Table? && mem' == mem[t := x]
    requires SameOutside(flat, flat', root, lo, hi)
    ensures Kept(mem, flat, role, mem', flat', role, root, lo, hi)
  {
    forall l | l in flat && !Inside(l, root, lo, hi) && l.vpn < TRAPFRAME
      ensures Ppn(flat[l]) in mem && Ppn(flat[l]) in mem' && mem'[Ppn(flat[l])] == mem[Ppn(flat[l])]
    {
      assert LeafOk(T, flat, role, l);
    }
  }

  lemma CalmUnmapFree(mem: Memory, role: Roles, mem': Memory, role': Roles, t: nat, x: Page, l: Loc, e: nat, junk: Page)
    requires role.Keys == mem.Keys && t in role && role[t].Table? && l.vpn < TRAPFRAME && Ppn(e) in role
    requires role' == RoleUnmapped(role, l, e)[Ppn(e) := Role.Free] && mem' == mem[t := x][Ppn(e) := junk]
    ensures CalmBut(mem, role, mem', role', Ppn(e))
  {
  }

  lemma UnmapGood(free: seq<nat>, mem: Memory, T: Tables, flat: Flat, role: Roles, l: Loc)
    requires Good(free, mem, T, flat, role) && l in flat
    ensures var k := Toward(l.root, 0, l.vpn);
            && k in T && T[k] in mem && l.vpn < MAXVPN
            && Good(free, WriteEntry(mem, T[k], PX(0, l.vpn), 0), T, flat - {l}, RoleUnmapped(role, l, flat[l]))
    ensures l.vpn < TRAPFRAME ==> Ppn(flat[l]) in role && role[Ppn(flat[l])] == Frame(l)
    ensures role.Keys == mem.Keys
  {
    UnmapLeaf(mem, T, flat, role, l);
    assert LeafOk(T, flat, role, l);
    if l.vpn < TRAPFRAME { FreeElsewhere(free, role, Ppn(flat[l]), Held); }
    hide RolesOk, EntriesOk, FreeOk;
  }

  /** The flat map without the pages [lo, hi) of `root`. */
  function Cleared(flat: Flat, root: nat, lo: nat, hi: nat): Flat {
    map l | l in flat && !Inside(l, root, lo, hi) :: flat[l]
  }

  lemma ClearedNone(flat: Flat, root: nat, lo: nat)
    ensures Cleared(flat, root, lo, lo) == flat
  {
  }

  lemma ClearedMore(flat: Flat, root: nat, lo: nat, hi: nat)
    requires lo <= hi
    ensures Cleared(flat, root, lo, hi) - {Loc(root, hi)} == Cleared(flat, root, lo, hi + 1)
  {
  }

  lemma KeptTrans(m0: Memory, f0: Flat, r0: Roles, m1: Memory, f1: Flat, r1: Roles, m2: Memory, f2: Flat, r2: Roles,
                  root: nat, lo: nat, hi: nat, lo1: nat, hi1: nat)
    requires Kept(m0, f0, r0, m1, f1, r1, root, lo, hi) && Kept(m1, f1, r1, m2, f2, r2, root, lo1, hi1)
    requires lo <= lo1 && hi1 <= hi
    ensures Kept(m0, f0, r0, m2, f2, r2, root, lo, hi)
  {
  }

  /** PGROUNDUP(sz) / PGSIZE */
  function Pages(sz: nat): nat { (sz + PGSIZE - 1) / PGSIZE }

  predicate NoneMapped(flat: Flat, root: nat, lo: nat, hi: nat) {
    forall l :: l in flat ==> !Inside(l, root, lo, hi)
  }

  /** Page v of `root` is mapped with permissions `perm` to a page full of zeros. */
  predicate ZeroPage(mem: Memory, flat: Flat, root: nat, v: nat, perm: nat) {
    && Loc(root, v) in flat
    && var e := flat[Loc(root, v)];
       Ppn(e) in mem && mem[Ppn(e)] == Filled(0) && e == Pte(Ppn(e), WithV(perm))
  }

  predicate ZeroPages(mem: Memory, flat: Flat, root: nat, lo: nat, hi: nat, perm: nat) {
    forall v :: lo <= v < hi ==> ZeroPage(mem, flat, root, v, perm)
  }

  lemma RootStays(T: Tables, T': Tables, root: nat)
    requires Grown(T, T', root) && Key(root, 2, 0) in T
    ensures Key(root, 2, 0) in T'
  {
  }

  lemma GrownTrans(T0: Tables, T1: Tables, T2: Tables, root: nat)
    requires Grown(T0, T1, root) && Grown(T1, T2, root)
    ensures Grown(T0, T2, root)
  {
  }

  lemma ZeroMore(mem: Memory, flat: Flat, role: Roles, mem': Memory, flat': Flat, role': Roles, root: nat, lo: nat,
                 a: nat,
                 perm: nat)
    requires ZeroPages(mem, flat, root, lo, a, perm) && Kept(mem, flat, role, mem', flat', role', root, a, a + 1)
    requires a < TRAPFRAME && ZeroPage(mem', flat', root, a, perm)
    ensures ZeroPages(mem', flat', root, lo, a + 1, perm)
  {
    forall v | lo <= v < a + 1 ensures ZeroPage(mem', flat', root, v, perm) {
      assert v < a ==> ZeroPage(mem, flat, root, v, perm);
    }
  }

  /** Unmapping what had been mapped in a region that was empty restores the flat map. */
  lemma Undone(m0: Memory, f0: Flat, r0: Roles, m1: Memory, f1: Flat, r1: Roles, root: nat, lo: nat, a: nat, hi: nat)
    requires Kept(m0, f0, r0, m1, f1, r1, root, lo, hi) && lo <= a <= hi
    requires NoneMapped(f0, root, lo, hi) && NoneMapped(f1, root, a, hi)
    ensures Cleared(f1, root, lo, a) == f0
  {
  }

  /** Page v is mapped in the child as it was in the parent: same flags, same contents. */
  predicate CopiedPage(m0: Memory, f0: Flat, parent: nat, mem: Memory, flat: Flat, child: nat, v: nat) {
    && (Loc(parent, v) in f0 <==> Loc(child, v) in flat)
    && (Loc(parent, v) in f0 ==>
          var e, e' := f0[Loc(parent, v)], flat[Loc(child, v)];
          && Flags(e') == Flags(e)
          && Ppn(e) in m0 && Ppn(e') in mem && mem[Ppn(e')] == m0[Ppn(e)])
  }

  predicate CopiedPages(m0: Memory, f0: Flat, parent: nat, mem: Memory, flat: Flat, child: nat, n: nat) {
    forall v: nat :: v < n ==> CopiedPage(m0, f0, parent, mem, flat, child, v)
  }

  /** Frames given to a child were nobody's before. */
  lemma FreshFrames(free: seq<nat>, m0: Memory, f0: Flat, r0: Roles, mem: Memory, T: Tables, flat: Flat, role: Roles,
                    child: nat, hi: nat)
    requires Good(free, mem, T, flat, role) && Kept(m0, f0, r0, mem, flat, role, child, 0, hi)
    requires NoneMapped(f0, child, 0, hi) && hi <= TRAPFRAME
    ensures forall v: nat, l :: v < hi && Loc(child, v) in flat && l in f0 && l.vpn < TRAPFRAME ==>
              Ppn(flat[Loc(child, v)]) != Ppn(f0[l])
  {
    forall v: nat, l | v < hi && Loc(child, v) in flat && l in f0 && l.vpn < TRAPFRAME
      ensures Ppn(flat[Loc(child, v)]) != Ppn(f0[l])
    {
      assert l in flat && flat[l] == f0[l] && l != Loc(child, v);
      assert LeafOk(T, flat, role, l) && LeafOk(T, flat, role, Loc(child, v));
    }
  }

  lemma GrownHas(T: Tables, T': Tables, root: nat, k: Key)
    requires Grown(T, T', root) && k in T
    ensures k in T'
  {
  }

  lemma ParentSame(m0: Memory, f0: Flat, r0: Roles, mem: Memory, flat: Flat, role: Roles, child: nat, hi: nat, l: Loc)
    requires Kept(m0, f0, r0, mem, flat, role, child, 0, hi) && l.root != child && l.vpn < TRAPFRAME
    ensures (l in f0 <==> l in flat)
    ensures l in f0 ==> flat[l] == f0[l] && Ppn(f0[l]) in m0 && Ppn(f0[l]) in mem && mem[Ppn(f0[l])] == m0[Ppn(f0[l])]
  {
  }

  lemma ParentPage(free: seq<nat>, mem: Memory, T: Tables, flat: Flat, role: Roles, root: nat, vpn: nat)
    requires Good(free, mem, T, flat, role) && Loc(root, vpn) in flat && vpn < TRAPFRAME
    ensures var e := flat[Loc(root, vpn)];
            && Ppn(e) in mem && WithV(Flags(e)) == Flags(e) && IsLeaf(Flags(e))
  {
    assert LeafOk(T, flat, role, Loc(root, vpn)) && role.Keys == mem.Keys;
    hide Good;
    var e := flat[Loc(root, vpn)];
    assert e == Pte(Ppn(e), Flags(e));
    PteRoundTrip(Ppn(e), Flags(e));
  }

  lemma CopiedMore(m0: Memory, f0: Flat, parent: nat, m1: Memory, f1: Flat, r1: Roles, mem: Memory, flat: Flat,
                   role: Roles, child: nat, i: nat, hi: nat)
    requires CopiedPages(m0, f0, parent, m1, f1, child, i) && Kept(m1, f1, r1, mem, flat, role, child, i, i + 1)
    requires CopiedPage(m0, f0, parent, mem, flat, child, i) && i < TRAPFRAME
    requires NoneMapped(f1, child, i, hi)
    ensures CopiedPages(m0, f0, parent, mem, flat, child, i + 1) && NoneMapped(flat, child, i + 1, hi)
  {
    forall v: nat | v < i + 1 ensures CopiedPage(m0, f0, parent, mem, flat, child, v) {
      assert v < i ==> CopiedPage(m0, f0, parent, m1, f1, child, v);
    }
  }

  predicate GoodBut(free: seq<nat>, mem: Memory, T: Tables, flat: Flat, role: Roles, open: set<Key>) {
    RolesOk(mem, T, flat, role) && EntriesOk(mem, T, flat, open) && FreeOk(free, role)
  }

  /** The tables other than K are as they were. */
  predicate SameTables(T: Tables, mem: Memory, mem': Memory, K: Key) {
    forall k :: k in T && k != K ==> T[k] in mem && T[k] in mem' && mem'[T[k]] == mem[T[k]]
  }

  lemma SameTablesTrans(T1: Tables, T2: Tables, m0: Memory, m1: Memory, m2: Memory, K: Key, c: Key)
    requires SameTables(T1, m0, m1, K) && SameTables(T2, m1, m2, c) && T2 == WithoutTree(T1, c) && K in T2
    ensures SameTables(T2, m0, m2, K) && T2[K] in m1 && T2[K] in m2 && m2[T2[K]] == m1[T2[K]]
  {
    assert Under(c, c);
  }

  lemma FreewalkStart(free: seq<nat>, mem: Memory, T: Tables, flat: Flat, role: Roles, K: Key, open: set<Key>)
    requires GoodBut(free, mem, T, flat, role, open) && K in T
    ensures GoodBut(free, mem, T, flat, role, open + {K}) && T[K] in mem && T[K] in role && role[T[K]].Table?
    ensures Calm(mem, role, mem, role) && SameTables(T, mem, mem, K)
  {
    forall k | k in T ensures T[k] in mem {
      assert TableOk(T, role, k);
    }
    assert TableOk(T, role, K);
  }

  lemma PrunedStep(mem: Memory, T: Tables, flat: Flat, role: Roles, K: Key, i: nat)
    requires RolesOk(mem, T, flat, role) && K in T && i < ENTRIES
    ensures K in Pruned(T, K, i + 1) && Pruned(T, K, i + 1)[K] == T[K]
    ensures if K.level > 0 && Child(K, i) in T then
              && Child(K, i) in Pruned(T, K, i) && Pruned(T, K, i)[Child(K, i)] == T[Child(K, i)]
              && WithoutTree(Pruned(T, K, i), Child(K, i)) == Pruned(T, K, i + 1)
              && Child(K, i) != K && Parent(Child(K, i)) == K && Child(K, i).root == K.root
              && Child(K, i).level == K.level - 1
            else Pruned(T, K, i) == Pruned(T, K, i + 1)
  {
    assert TableOk(T, role, K);
    if K.level > 0 {
      PrunedMore(mem, T, flat, role, K, i);
      ChildParent(K, i);
    }
  }

  lemma CalmTable(m0: Memory, r0: Roles, mem: Memory, role: Roles, t: nat, x: Page)
    requires Calm(m0, r0, mem, role) && t in r0 && r0[t].Table? && t in mem
    ensures Calm(m0, r0, mem[t := x], role) && Calm(m0, r0, mem[t := x], role[t := Role.Free])
  {
  }

  lemma OnlyItsPage(m0: Memory, mem: Memory, T: Tables, flat: Flat, role: Roles, K: Key, x: Page)
    requires RolesOk(mem, T, flat, role) && K in T && SameTables(T, m0, mem, K)
    ensures T[K] in mem && SameTables(T, m0, mem[T[K] := x], K)
  {
    assert TableOk(T, role, K);
    forall k | k in T && k != K ensures T[k] != T[K] {
      assert TableOk(T, role, k);
    }
  }

  /** Clearing an entry of a table that is being taken apart. */
  lemma Zeroed(free: seq<nat>, m0: Memory, r0: Roles, mem: Memory, T: Tables, flat: Flat, role: Roles, K: Key, x: Page,
               open: set<Key>)
    requires GoodBut(free, mem, T, flat, role, open) && K in T && K in open
    requires Calm(m0, r0, mem, role) && T[K] in r0 && r0[T[K]].Table? && SameTables(T, m0, mem, K)
    ensures T[K] in mem
    ensures GoodBut(free, mem[T[K] := x], T, flat, role, open)
    ensures Calm(m0, r0, mem[T[K] := x], role) && SameTables(T, m0, mem[T[K] := x], K)
  {
    WriteOpen(mem, T, flat, role, K, x, open);
    CalmTable(m0, r0, mem, role, T[K], x);
    OnlyItsPage(m0, mem, T, flat, role, K, x);
    hide RolesOk, EntriesOk, FreeOk, Calm, SameTables;
  }

  /** Freeing a table whose entries have all been cleared. */
  lemma Dropped(free: seq<nat>, m0: Memory, r0: Roles, mem: Memory, T: Tables, flat: Flat, role: Roles, K: Key,
                open: set<Key>)
    requires GoodBut(free, mem, T, flat, role, open + {K}) && K in T && Alone(T, K)
    requires (forall l :: l in flat ==> l.root != K.root) && (K.level < 2 ==> Parent(K) in open)
    requires Calm(m0, r0, mem, role) && T[K] in r0 && r0[T[K]].Table? && SameTables(T, m0, mem, K)
    ensures T[K] in mem
    ensures var mem', role' := mem[T[K] := Filled(JUNK_FREE)], role[T[K] := Role.Free];
            && GoodBut([T[K]] + free, mem', T - {K}, flat, role', open)
            && Calm(m0, r0, mem', role') && SameTables(T - {K}, m0, mem', K)
  {
    DropTable(mem, T, flat, role, K, Filled(JUNK_FREE), open);
    assert TableOk(T, role, K);
    PushFree(free, role, T[K]);
    CalmTable(m0, r0, mem, role, T[K], Filled(JUNK_FREE));
    OnlyItsPage(m0, mem, T, flat, role, K, Filled(JUNK_FREE));
    hide RolesOk, EntriesOk, FreeOk, Calm, Alone;
  }

  /** The flat map with n pages from vpn on mapped to the n pages from ppn on. */
  function MappedRange(flat: Flat, root: nat, vpn: nat, n: nat, ppn: nat, flags: nat): Flat {
    if n == 0 then flat
    else MappedRange(flat, root, vpn, n - 1, ppn, flags)[Loc(root, vpn + n - 1) := Pte(ppn + n - 1, flags)]
  }

  lemma {:induction false} RangeOnly(flat: Flat, root: nat, vpn: nat, n: nat, ppn: nat, flags: nat)
    ensures forall l :: l in MappedRange(flat, root, vpn, n, ppn, flags) <==> l in flat || Inside(l, root, vpn, vpn + n)
    ensures forall l :: l in flat && !Inside(l, root, vpn, vpn + n) ==>
              MappedRange(flat, root, vpn, n, ppn, flags)[l] == flat[l]
    ensures forall l :: Inside(l, root, vpn, vpn + n) ==>
              MappedRange(flat, root, vpn, n, ppn, flags)[l] == Pte(ppn + l.vpn - vpn, flags)
  {
    if n > 0 {
      RangeOnly(flat, root, vpn, n - 1, ppn, flags);
    }
  }

  /** The pages to be mapped below TRAPFRAME are the caller's. */
  predicate AllHeld(role: Roles, vpn: nat, n: nat, ppn: nat) {
    forall p: nat :: ppn <= p < ppn + n && vpn + p - ppn < TRAPFRAME ==> p in role && role[p].Held?
  }

  lemma RangeNext(flat: Flat, root: nat, vpn: nat, n: nat, ppn: nat, flags: nat)
    ensures Loc(root, vpn + n) in MappedRange(flat, root, vpn, n, ppn, flags) <==> Loc(root, vpn + n) in flat
  {
    RangeOnly(flat, root, vpn, n, ppn, flags);
  }

  lemma HeldFirst(role: Roles, vpn: nat, n: nat, ppn: nat)
    requires AllHeld(role, vpn, n, ppn) && 0 < n
    ensures vpn < TRAPFRAME ==> ppn in role && role[ppn].Held?
  {
  }

  lemma HeldRest(m: Memory, r: Roles, m': Memory, r': Roles, vpn: nat, n: nat, ppn: nat)
    requires AllHeld(r, vpn, n, ppn) && 0 < n && CalmBut(m, r, m', r', ppn)
    ensures AllHeld(r', vpn + 1, n - 1, ppn + 1)
  {
  }

  function OtherTables(T: Tables, root: nat): Tables { map k | k in T && k.root != root :: T[k] }

  /** Everything of an address space lies below its root. */
  lemma RootTree(mem: Memory, T: Tables, flat: Flat, role: Roles, root: nat)
    requires RolesOk(mem, T, flat, role)
    ensures WithoutTree(T, Key(root, 2, 0)) == OtherTables(T, root)
  {
    var K := Key(root, 2, 0);
    forall k | k in T ensures Under(k, K) <==> k.root == root {
      assert TableOk(T, role, k);
      if Under(k, K) && k != K { UnderParent(k, K); }
      if k.root == root && k.level == 1 { assert Parent(k) == K; }
      if k.root == root && k.level == 0 { assert Parent(Parent(k)) == K && Under(Parent(k), K); }
    }
  }

  lemma CalmToKept(free: seq<nat>, mem: Memory, T: Tables, flat: Flat, role: Roles, mem': Memory, flat': Flat,
                   role': Roles,
                   root: nat, lo: nat, hi: nat)
    requires Good(free, mem, T, flat, role) && Calm(mem, role, mem', role') && SameOutside(flat, flat', root, lo, hi)
    ensures Kept(mem, flat, role, mem', flat', role', root, lo, hi)
  {
    forall l | l in flat && l.vpn < TRAPFRAME
      ensures Ppn(flat[l]) in mem && Ppn(flat[l]) in mem' && mem'[Ppn(flat[l])] == mem[Ppn(flat[l])]
    {
      assert LeafOk(T, flat, role, l);
    }
  }

  lemma KeptUnmapped(mem: Memory, flat: Flat, role: Roles, mem': Memory, role': Roles, root: nat, v: nat)
    requires Kept(mem, flat, role, mem', flat, role', root, v, v + 1) && Loc(root, v) !in flat
    ensures Kept(mem, flat, role, mem', flat, role', root, 0, 0)
  {
  }

  lemma CalmFresh(mem0: Memory, role0: Roles, mem1: Memory, role1: Roles, mem2: Memory, role2: Roles, p: nat)
    requires p in role0 && role0[p].Free? && role0.Keys == mem0.Keys && CalmBut(mem1, role1, mem2, role2, p)
    requires role1 == role0[p := Held] && forall q :: q in mem0 && q != p ==> q in mem1 && mem1[q] == mem0[q]
    ensures CalmBut(mem0, role0, mem2, role2, p)
  {
  }

  lemma CalmGiveBack(mem0: Memory, role0: Roles, mem1: Memory, role1: Roles, mem2: Memory, role2: Roles,
                     mem3: Memory, role3: Roles, p: nat, x: Page)
    requires p in role0 && role0[p].Free? && role0.Keys == mem0.Keys && Calm(mem1, role1, mem2, role2)
    requires role1 == role0[p := Held] && forall q :: q in mem0 && q != p ==> q in mem1 && mem1[q] == mem0[q]
    requires p in role2 && role3 == role2[p := Role.Free] && mem3 == mem2[p := x]
    ensures CalmBut(mem0, role0, mem3, role3, p)
  {
  }

  /** Tables are only added, and only to the address space `root`. */
  predicate Grown(T: Tables, T': Tables, root: nat) {
    && (forall k :: k in T ==> k in T' && T'[k] == T[k])
    && (forall k :: k in T' ==> k in T || k.root == root)
  }

  /** What walk reads on the way: a link to the next table exactly when there is one. */
  lemma WalkEntry(free: seq<nat>, mem: Memory, T: Tables, flat: Flat, role: Roles, root: nat, level: nat, vpn: nat)
    requires Good(free, mem, T, flat, role) && 0 < level <= 2 && vpn < MAXVPN && Toward(root, level, vpn) in T
    ensures var k, c := Toward(root, level, vpn), Toward(root, level - 1, vpn);
            && T[k] in mem && KeyOk(k) && Child(k, PX(level, vpn)) == c
            && var e := mem[T[k]][PX(level, vpn)];
               && (IsV(e) <==> c in T) && (c in T ==> Ppn(e) == T[c])
  {
    var k := Toward(root, level, vpn);
    PathStep(root, level, vpn);
    assert EntryOk(mem, T, flat, k, PX(level, vpn));
    hide Good, PX, Toward;
    LinkEntry(mem, T, flat, k, PX(level, vpn));
    hide IsV, IsLeaf, Ppn;
  }

  /** A missing table cuts off everything below it. */
  lemma NoPath(free: seq<nat>, mem: Memory, T: Tables, flat: Flat, role: Roles, root: nat, level: nat, vpn: nat)
    requires Good(free, mem, T, flat, role) && 0 < level <= 2 && vpn < MAXVPN && Toward(root, level - 1, vpn) !in T
    ensures Toward(root, 0, vpn) !in T
  {
    assert Toward(root, 0, vpn) in T ==> TableOk(T, role, Toward(root, 0, vpn));
    assert Parent(Toward(root, 0, vpn)) == Toward(root, 1, vpn);
  }

  lemma GrownMore(T: Tables, T': Tables, k: Key, i: nat, root: nat, p: nat)
    requires Grown(T, T', root) && 0 < k.level && k.root == root && Child(k, i) !in T'
    ensures Grown(T, T'[Child(k, i) := p], root)
  {
  }

  /** Every page has one role. */
  lemma OneEach(free: seq<nat>, mem: Memory, T: Tables, flat: Flat, role: Roles)
    requires Good(free, mem, T, flat, role)
    ensures role.Keys == mem.Keys
  {
  }

  lemma TableNotHeld(free: seq<nat>, mem: Memory, T: Tables, flat: Flat, role: Roles, k: Key, p: nat)
    requires Good(free, mem, T, flat, role) && k in T && p in role && role[p].Held?
    ensures T[k] in mem && T[k] != p && role.Keys == mem.Keys && role[T[k]] == Table(k)
  {
    assert TableOk(T, role, k);
  }

  /** The leaf entry of a page number, once its table exists, is the flat map's. */
  lemma LeafEntry(free: seq<nat>, mem: Memory, T: Tables, flat: Flat, role: Roles, root: nat, vpn: nat)
    requires Good(free, mem, T, flat, role) && vpn < MAXVPN && Toward(root, 0, vpn) in T
    ensures var k, l := Toward(root, 0, vpn), Loc(root, vpn);
            && T[k] in mem && T[k] in role && role[T[k]] == Table(k)
            && (IsV(mem[T[k]][PX(0, vpn)]) <==> l in flat)
            && (l in flat ==> mem[T[k]][PX(0, vpn)] == flat[l] && IsLeaf(flat[l]))
  {
    var k, l := Toward(root, 0, vpn), Loc(root, vpn);
    assert TableOk(T, role, k) && EntryOk(mem, T, flat, k, PX(0, vpn));
    assert k.prefix * 512 + PX(0, vpn) == vpn;
    assert l in flat ==> LeafOk(T, flat, role, l);
  }

  /** A page without a table is not mapped. */
  lemma Unreached(free: seq<nat>, mem: Memory, T: Tables, flat: Flat, role: Roles, root: nat, vpn: nat)
    requires Good(free, mem, T, flat, role)
    ensures Loc(root, vpn) in flat ==> Toward(root, 0, vpn) in T && vpn < MAXVPN
  {
    assert Loc(root, vpn) in flat ==> LeafOk(T, flat, role, Loc(root, vpn));
  }

  lemma CalmHeld(mem: Memory, role: Roles, mem': Memory, role': Roles, p: nat, care: bool)
    requires Calm(mem, role, mem', role') && (care ==> p in role && role[p].Held?)
    ensures care ==> p in role' && role'[p].Held? && mem'[p] == mem[p]
  {
  }

  lemma MapGood(free: seq<nat>, mem: Memory, T: Tables, flat: Flat, role: Roles, l: Loc, ppn: nat, flags: nat)
    requires Good(free, mem, T, flat, role) && l.vpn < MAXVPN && Toward(l.root, 0, l.vpn) in T && l !in flat
    requires flags < 1024 && IsLeaf(flags) && (l.vpn < TRAPFRAME ==> ppn in role && role[ppn].Held?)
    ensures T[Toward(l.root, 0, l.vpn)] in mem
    ensures var e := Pte(ppn, flags);
            Good(free, WriteEntry(mem, T[Toward(l.root, 0, l.vpn)], PX(0, l.vpn), e), T, flat[l := e],
                 RoleMapped(role, l, e))
  {
    PteRoundTrip(ppn, flags);
    MapLeaf(mem, T, flat, role, l, Pte(ppn, flags));
    if l.vpn < TRAPFRAME { FreeElsewhere(free, role, ppn, Frame(l)); }
    hide RolesOk, EntriesOk, FreeOk;
  }

  lemma MapCalm(mem: Memory, role: Roles, mem1: Memory, role1: Roles, mem2: Memory, role2: Roles, l: Loc, ppn: nat,
                flags: nat, t: nat, x: Page)
    requires Calm(mem, role, mem1, role1) && t in mem1 && role1[t].Table? && flags < 1024
    requires mem2 == mem1[t := x] && role2 == RoleMapped(role1, l, Pte(ppn, flags))
    requires l.vpn < TRAPFRAME ==> ppn in role && role[ppn].Held?
    ensures CalmBut(mem, role, mem2, role2, ppn)
    ensures l.vpn >= TRAPFRAME ==> Calm(mem, role, mem2, role2)
    ensures l.vpn < TRAPFRAME ==> ppn in role2 && ppn in mem2 && role2[ppn] == Frame(l) && mem2[ppn] == mem[ppn]
  {
    PteRoundTrip(ppn, flags);
  }

  lemma NoPages()
    ensures Good([], map[], map[], map[], map[])
  {
  }

  lemma OnePageMore(free: seq<nat>, mem: Memory, role: Roles, p: nat)
    requires Good(free, mem, map[], map[], role) && p !in role && forall q :: q in role ==> role[q].Free?
    ensures Good([p] + free, mem[p := Filled(JUNK_FREE)], map[], map[], role[p := Role.Free])
  {
  }

  class Paging {
    var free: seq<nat>             // kmem.freelist, head first
    var mem: Memory
    ghost var T: Tables
    ghost var flat: Flat
    ghost var role: Roles

    ghost predicate Valid()
      reads this
    {
      Good(free, mem, T, flat, role)
    }

    /** kinit: every page of `lo .. hi` goes on the free list, the last one first. */
    constructor (lo: nat, hi: nat)
      requires lo <= hi
      ensures Valid() && T == map[] && flat == map[] && |free| == hi - lo
      ensures forall p: nat :: p in role <==> lo <= p < hi
      ensures forall p :: p in role ==> role[p].Free?
    {
      free, mem, T, flat, role := [], map[], map[], map[], map[];
      new;
      hide Good;
      NoPages();
      var p := lo;
      while p < hi
        invariant lo <= p <= hi && Valid() && T == map[] && flat == map[] && |free| == p - lo
        invariant forall q: nat :: q in role <==> lo <= q < p
        invariant forall q :: q in role ==> role[q].Free?
      {
        OnePageMore(free, mem, role, p);
        mem := mem[p := Filled(JUNK_FREE)];
        free, role := [p] + free, role[p := Role.Free];
        p := p + 1;
      }
    }

    /** kalloc. */
    method Kalloc() returns (r: Option<nat>)
      requires Valid()
      modifies this`free, this`mem, this`role
      ensures Valid()
      ensures r.None? <==> old(free) == []
      ensures r.None? ==> free == old(free) && mem == old(mem) && role == old(role)
      ensures r.Some? ==>
                && r.value == old(free)[0] && free == old(free)[1..] && r.value in old(role)
                && role == old(role)[r.value := Held] && mem == old(mem)[r.value := Filled(JUNK_ALLOC)]
                && old(role)[r.value].Free?
    {
      if free == [] {
        return None;
      }
      var p := free[0];
      PopFree(free, role);
      Rewrite(mem, T, flat, role, p, Filled(JUNK_ALLOC), Held, {});
      hide RolesOk, EntriesOk, FreeOk;
      free, role := free[1..], role[p := Held];
      mem := mem[p := Filled(JUNK_ALLOC)];
      r := Some(p);
    }

    /** kfree of a page its caller owns. */
    method Kfree(p: nat)
      requires Valid() && p in role && role[p].Held?
      modifies this`free, this`mem, this`role
      ensures Valid() && free == [p] + old(free)
      ensures role == old(role)[p := Role.Free] && mem == old(mem)[p := Filled(JUNK_FREE)]
    {
      PushFree(free, role, p);
      Rewrite(mem, T, flat, role, p, Filled(JUNK_FREE), Role.Free, {});
      hide RolesOk, EntriesOk, FreeOk;
      mem := mem[p := Filled(JUNK_FREE)];
      free, role := [p] + free, role[p := Role.Free];
    }

    /** memset or memmove into a page its caller owns. */
    method Fill(p: nat, x: Page)
      requires Valid() && p in role && role[p].Held?
      modifies this`mem
      ensures Valid() && mem == old(mem)[p := x]
    {
      Rewrite(mem, T, flat, role, p, x, Held, {});
      assert role[p := Held] == role;
      hide RolesOk, EntriesOk, FreeOk;
      mem := mem[p := x];
    }

    /** The allocating branch of walk: a zeroed table linked in at entry i of table k. */
    method NewTable(ghost k: Key, i: nat, t: nat) returns (r: Option<nat>)
      requires Valid() && k in T && T[k] == t && t in mem && 0 < k.level && i < ENTRIES && Child(k, i) !in T
      modifies this`free, this`mem, this`T, this`role
      ensures Valid() && Calm(old(mem), old(role), mem, role)
      ensures r.None? ==> free == [] && old(free) == [] && T == old(T)
      ensures r.Some? ==> T == old(T)[Child(k, i) := r.value] && |free| == |old(free)| - 1
    {
      hide RolesOk, EntriesOk, FreeOk, Calm, Filled, Pte;
      ghost var mem0, role0 := mem, role;
      OneEach(free, mem, T, flat, role);
      r := Kalloc();
      if r.None? {
        CalmSame(mem, role);
        return;
      }
      var p := r.value;
      Fill(p, Filled(0));
      TableNotHeld(free, mem, T, flat, role, k, p);
      AddTable(mem, T, flat, role, k, i, p);
      FreeElsewhere(free, role, p, Table(Child(k, i)));
      CalmNewTable(mem0, role0, p, Filled(JUNK_ALLOC), Filled(0), Child(k, i), t, mem[t][i := Pte(p, PTE_V)]);
      mem := mem[t := mem[t][i := Pte(p, PTE_V)]];
      T, role := T[Child(k, i) := p], role[p := Table(Child(k, i))];
    }

    /** walk: the level-0 table for a page number, or None. Tables made on the way stay, even when a
        later level cannot be allocated; the flat map never changes. */
    method Walk(root: nat, vpn: nat, alloc: bool) returns (r: Option<nat>)
      requires Valid() && vpn < MAXVPN && Key(root, 2, 0) in T
      modifies this`free, this`mem, this`T, this`role
      ensures Valid() && Calm(old(mem), old(role), mem, role) && Grown(old(T), T, root)
      ensures r.Some? ==> Toward(root, 0, vpn) in T && T[Toward(root, 0, vpn)] == r.value
      ensures !alloc ==> free == old(free) && mem == old(mem) && T == old(T) && role == old(role)
      ensures r.None? ==> Toward(root, 0, vpn) !in T && (alloc ==> free == [] && |old(free)| < 2)
      ensures |free| >= |old(free)| - 2
    {
      var table := root;
      var level := 2;
      RootExists(mem, T, flat, role, Key(root, 2, 0));
      while level > 0
        invariant 0 <= level <= 2 && Valid()
        invariant Toward(root, level, vpn) in T && T[Toward(root, level, vpn)] == table
        invariant Calm(old(mem), old(role), mem, role) && Grown(old(T), T, root)
        invariant !alloc ==> free == old(free) && mem == old(mem) && T == old(T) && role == old(role)
        invariant |free| >= |old(free)| - (2 - level)
      {
        hide Good, Calm, Grown;
        ghost var k := Toward(root, level, vpn);
        WalkEntry(free, mem, T, flat, role, root, level, vpn);
        var pte := mem[table][PX(level, vpn)];
        if IsV(pte) {
          table := Ppn(pte);
        } else {
          if !alloc {
            NoPath(free, mem, T, flat, role, root, level, vpn);
            return None;
          }
          ghost var mem0, T0, role0 := mem, T, role;
          var p := NewTable(k, PX(level, vpn), table);
          CalmTrans(old(mem), old(role), mem0, role0, mem, role);
          if p.None? {
            NoPath(free, mem, T, flat, role, root, level, vpn);
            return None;
          }
          GrownMore(old(T), T0, k, PX(level, vpn), root, p.value);
          table := p.value;
        }
        level := level - 1;
      }
      r := Some(table);
    }

    /** One turn of mappages's loop. */
    method MapOne(root: nat, vpn: nat, ppn: nat, perm: nat) returns (res: MapResult)
      requires Valid() && vpn < MAXVPN && Key(root, 2, 0) in T && perm < 1024 && IsLeaf(WithV(perm))
      requires vpn < TRAPFRAME ==> ppn in role && role[ppn].Held?
      modifies this
      ensures Valid() && Grown(old(T), T, root)
      ensures res.Remap? <==> Loc(root, vpn) in old(flat)
      ensures res.NoMemory? ==> free == [] && |old(free)| < 2
      ensures |free| >= |old(free)| - 2
      ensures !res.Mapped? ==> flat == old(flat) && Calm(old(mem), old(role), mem, role)
      ensures res.Mapped? ==>
                && flat == old(flat)[Loc(root, vpn) := Pte(ppn, WithV(perm))]
                && CalmBut(old(mem), old(role), mem, role, ppn)
                && (vpn >= TRAPFRAME ==> Calm(old(mem), old(role), mem, role))
                && (vpn < TRAPFRAME ==> ppn in role && role[ppn] == Frame(Loc(root, vpn))
                                        && ppn in mem && ppn in old(mem) && mem[ppn] == old(mem)[ppn])
    {
      hide Good, Calm, CalmBut, Grown;
      ghost var l := Loc(root, vpn);
      var t := Walk(root, vpn, true);
      if t.None? {
        Unreached(free, mem, T, flat, role, root, vpn);
        return NoMemory;
      }
      LeafEntry(free, mem, T, flat, role, root, vpn);
      var pte := mem[t.value][PX(0, vpn)];
      if IsV(pte) {
        return Remap;
      }
      CalmHeld(old(mem), old(role), mem, role, ppn, vpn < TRAPFRAME);
      MapGood(free, mem, T, flat, role, l, ppn, WithV(perm));
      ghost var mem1, role1 := mem, role;
      mem := mem[t.value := mem[t.value][PX(0, vpn) := Pte(ppn, WithV(perm))]];
      flat, role := flat[l := Pte(ppn, WithV(perm))], RoleMapped(role, l, Pte(ppn, WithV(perm)));
      MapCalm(old(mem), old(role), mem1, role1, mem, role, l, ppn, WithV(perm), t.value,
              mem[t.value]);
      res := Mapped;
    }

    /** The body shared by uvmalloc, uvmcopy and vmfault: a fresh page with the given contents, mapped at
        vpn; given back when no table can be had for it. */
    method MapFresh(root: nat, vpn: nat, perm: nat, contents: Page) returns (ok: bool, p: nat)
      requires Valid() && vpn < TRAPFRAME && Key(root, 2, 0) in T && perm < 1024 && IsLeaf(WithV(perm))
      requires Loc(root, vpn) !in flat
      modifies this
      ensures Valid() && Grown(old(T), T, root)
      ensures Kept(old(mem), old(flat), old(role), mem, flat, role, root, vpn, vpn + 1)
      ensures !ok ==> flat == old(flat) && |old(free)| < 3
      ensures |free| >= |old(free)| - 3
      ensures ok ==>
                && flat == old(flat)[Loc(root, vpn) := Pte(p, WithV(perm))] && Ppn(Pte(p, WithV(perm))) == p
                && p in old(role) && old(role)[p].Free? && p in mem && mem[p] == contents
    {
      hide Good, Calm, CalmBut, Kept, Grown;
      ghost var free0, mem0, T0, flat0, role0 := free, mem, T, flat, role;
      KeptSame(free, mem, T, flat, role, root, vpn, vpn + 1);
      var page := Kalloc();
      if page.None? {
        return false, 0;
      }
      p := page.value;
      Fill(p, contents);
      ghost var mem1, role1 := mem, role;
      var res := MapOne(root, vpn, p, perm);
      if !res.Mapped? {
        CalmHeld(mem1, role1, mem, role, p, true);
        ghost var mem2, role2 := mem, role;
        Kfree(p);
        CalmGiveBack(mem0, role0, mem1, role1, mem2, role2, mem, role, p, Filled(JUNK_FREE));
        CalmKept(free0, mem0, T0, flat0, role0, mem, flat, role, root, vpn, vpn + 1, p);
        return false, 0;
      }
      PteRoundTrip(p, WithV(perm));
      CalmFresh(mem0, role0, mem1, role1, mem, role, p);
      CalmKept(free0, mem0, T0, flat0, role0, mem, flat, role, root, vpn, vpn + 1, p);
      ok := true;
    }

    /** One turn of uvmunmap's loop. User pages are freed; the two top pages are not the process's to free. */
    method UnmapOne(root: nat, vpn: nat, do_free: bool)
      requires Valid() && vpn < MAXVPN && Key(root, 2, 0) in T && (do_free <==> vpn < TRAPFRAME)
      modifies this
      ensures Valid() && T == old(T) && flat == old(flat) - {Loc(root, vpn)}
      ensures Kept(old(mem), old(flat), old(role), mem, flat, role, root, vpn, vpn + 1)
      ensures Loc(root, vpn) in old(flat) && do_free ==> free == [Ppn(old(flat)[Loc(root, vpn)])] + old(free)
      ensures Loc(root, vpn) !in old(flat) || !do_free ==> free == old(free)
    {
      hide Good, Calm, Kept, Grown, PX, Ppn, IsV, Toward;
      KeptSame(free, mem, T, flat, role, root, vpn, vpn + 1);
      Unreached(free, mem, T, flat, role, root, vpn);
      var t := Walk(root, vpn, false);
      if t.None? {
        return;
      }
      LeafEntry(free, mem, T, flat, role, root, vpn);
      if IsV(mem[t.value][PX(0, vpn)]) {
        ClearLeaf(root, vpn, t.value, do_free);
      }
    }

    /** The leaf entry of a mapped page is cleared, and its frame is freed where asked. */
    method ClearLeaf(root: nat, vpn: nat, t: nat, do_free: bool)
      requires Valid() && vpn < MAXVPN && (do_free <==> vpn < TRAPFRAME) && Loc(root, vpn) in flat
      requires Toward(root, 0, vpn) in T && T[Toward(root, 0, vpn)] == t
      modifies this
      ensures Valid() && T == old(T) && flat == old(flat) - {Loc(root, vpn)}
      ensures Kept(old(mem), old(flat), old(role), mem, flat, role, root, vpn, vpn + 1)
      ensures free == if do_free then [Ppn(old(flat)[Loc(root, vpn)])] + old(free) else old(free)
    {
      hide Good, Calm, CalmBut, Kept, PX, Ppn, Filled, Toward;
      ghost var free0, mem0, flat0, role0, l := free, mem, flat, role, Loc(root, vpn);
      LeafEntry(free, mem, T, flat, role, root, vpn);
      var pte := mem[t][PX(0, vpn)];
      UnmapGood(free, mem, T, flat, role, l);
      mem := mem[t := mem[t][PX(0, vpn) := 0]];
      flat, role := flat - {l}, RoleUnmapped(role, l, pte);
      if do_free {
        Kfree(Ppn(pte));
        CalmUnmapFree(mem0, role0, mem, role, t, mem0[t][PX(0, vpn) := 0], l, pte, Filled(JUNK_FREE));
        CalmKept(free0, mem0, T, flat0, role0, mem, flat, role, root, vpn, vpn + 1, Ppn(pte));
      } else {
        CalmKeptTable(free0, mem0, T, flat0, role0, mem, flat, root, vpn, vpn + 1, t, mem0[t][PX(0, vpn) := 0]);
      }
    }

    /** uvmunmap. */
    method Uvmunmap(root: nat, vpn: nat, npages: nat, do_free: bool)
      requires Valid() && Key(root, 2, 0) in T && vpn + npages <= MAXVPN
      requires if do_free then vpn + npages <= TRAPFRAME else TRAPFRAME <= vpn
      modifies this
      ensures Valid() && T == old(T) && flat == Cleared(old(flat), root, vpn, vpn + npages)
      ensures Kept(old(mem), old(flat), old(role), mem, flat, role, root, vpn, vpn + npages)
    {
      hide Good, Kept;
      var a := vpn;
      KeptSame(free, mem, T, flat, role, root, vpn, vpn + npages);
      ClearedNone(flat, root, vpn);
      while a < vpn + npages
        invariant vpn <= a <= vpn + npages && Valid() && T == old(T) && flat == Cleared(old(flat), root, vpn, a)
        invariant Kept(old(mem), old(flat), old(role), mem, flat, role, root, vpn, vpn + npages)
      {
        ghost var mem1, flat1, role1 := mem, flat, role;
        UnmapOne(root, a, do_free);
        ClearedMore(old(flat), root, vpn, a);
        KeptTrans(old(mem), old(flat), old(role), mem1, flat1, role1, mem, flat, role, root, vpn, vpn + npages, a,
                  a + 1);
        a := a + 1;
      }
    }

    /** uvmdealloc. */
    method Uvmdealloc(root: nat, oldsz: nat, newsz: nat) returns (r: nat)
      requires Valid() && Key(root, 2, 0) in T && Pages(oldsz) <= TRAPFRAME
      modifies this
      ensures Valid() && T == old(T) && r == (if newsz < oldsz then newsz else oldsz)
      ensures flat == (if newsz < oldsz then Cleared(old(flat), root, Pages(newsz), Pages(oldsz)) else old(flat))
      ensures Kept(old(mem), old(flat), old(role), mem, flat, role, root, Pages(newsz), Pages(oldsz))
    {
      hide Good, Kept;
      KeptSame(free, mem, T, flat, role, root, Pages(newsz), Pages(oldsz));
      if newsz >= oldsz {
        return oldsz;
      }
      ClearedNone(flat, root, Pages(newsz));
      if Pages(newsz) < Pages(oldsz) {
        Uvmunmap(root, Pages(newsz), Pages(oldsz) - Pages(newsz), true);
      }
      r := newsz;
    }

    /** uvmalloc; None is the 0 it returns when memory runs out. */
    method Uvmalloc(root: nat, oldsz: nat, newsz: nat, xperm: nat) returns (r: Option<nat>)
      requires Valid() && Key(root, 2, 0) in T && Pages(newsz) <= TRAPFRAME && xperm in {0, PTE_W, PTE_X, PTE_W + PTE_X}
      requires NoneMapped(flat, root, Pages(oldsz), Pages(newsz))
      modifies this
      ensures Valid() && Grown(old(T), T, root)
      ensures Kept(old(mem), old(flat), old(role), mem, flat, role, root, Pages(oldsz), Pages(newsz))
      ensures newsz < oldsz ==> r == Some(oldsz) && flat == old(flat)
      ensures r.None? ==> flat == old(flat) && oldsz <= newsz && |old(free)| < 3 * (Pages(newsz) - Pages(oldsz))
      ensures oldsz <= newsz && r.Some? ==>
                r == Some(newsz) && ZeroPages(mem, flat, root, Pages(oldsz), Pages(newsz), PTE_R + PTE_U + xperm)
    {
      hide Good, Kept, Grown;
      var lo := Pages(oldsz);
      ghost var hi := Pages(newsz);
      KeptSame(free, mem, T, flat, role, root, lo, hi);
      if newsz < oldsz {
        return Some(oldsz);
      }
      var a := lo;
      while a * PGSIZE < newsz
        invariant lo <= a <= hi && Valid() && Grown(old(T), T, root)
        invariant Kept(old(mem), old(flat), old(role), mem, flat, role, root, lo, hi)
        invariant ZeroPages(mem, flat, root, lo, a, PTE_R + PTE_U + xperm) && NoneMapped(flat, root, a, hi)
        invariant |free| >= |old(free)| - 3 * (a - lo)
      {
        ghost var T1, mem1, flat1, role1 := T, mem, flat, role;
        RootStays(old(T), T, root);
        var ok, _ := MapFresh(root, a, PTE_R + PTE_U + xperm, Filled(0));
        KeptTrans(old(mem), old(flat), old(role), mem1, flat1, role1, mem, flat, role, root, lo, hi, a, a + 1);
        GrownTrans(old(T), T1, T, root);
        if !ok {
          ghost var mem2, flat2, role2 := mem, flat, role;
          RootStays(old(T), T, root);
          var _ := Uvmdealloc(root, a * PGSIZE, lo * PGSIZE);
          KeptTrans(old(mem), old(flat), old(role), mem2, flat2, role2, mem, flat, role, root, lo, hi, lo, a);
          Undone(old(mem), old(flat), old(role), mem2, flat2, role2, root, lo, a, hi);
          return None;
        }
        ZeroMore(mem1, flat1, role1, mem, flat, role, root, lo, a, PTE_R + PTE_U + xperm);
        a := a + 1;
      }
      r := Some(newsz);
    }

    /** uvmcopy: on success the child has the parent's pages below sz, in frames that were free; on failure
        nothing is left behind. */
    method Uvmcopy(parent: nat, child: nat, sz: nat) returns (ok: bool)
      requires Valid() && Key(parent, 2, 0) in T && Key(child, 2, 0) in T && parent != child
      requires Pages(sz) <= TRAPFRAME && NoneMapped(flat, child, 0, Pages(sz))
      modifies this
      ensures Valid() && Grown(old(T), T, child)
      ensures Kept(old(mem), old(flat), old(role), mem, flat, role, child, 0, Pages(sz))
      ensures ok ==> CopiedPages(old(mem), old(flat), parent, mem, flat, child, Pages(sz))
      ensures !ok ==> flat == old(flat) && |old(free)| < 3 * Pages(sz)
    {
      hide Good, Kept, Grown;
      ghost var hi := Pages(sz);
      var i := 0;
      KeptSame(free, mem, T, flat, role, child, 0, hi);
      while i * PGSIZE < sz
        invariant 0 <= i <= hi && Valid() && Grown(old(T), T, child)
        invariant Kept(old(mem), old(flat), old(role), mem, flat, role, child, 0, hi)
        invariant CopiedPages(old(mem), old(flat), parent, mem, flat, child, i) && NoneMapped(flat, child, i, hi)
        invariant |free| >= |old(free)| - 3 * i
      {
        ghost var T1, mem1, flat1, role1 := T, mem, flat, role;
        GrownHas(old(T), T, child, Key(parent, 2, 0));
        GrownHas(old(T), T, child, Key(child, 2, 0));
        ParentSame(old(mem), old(flat), old(role), mem, flat, role, child, hi, Loc(parent, i));
        var t := Walk(parent, i, false);
        var pte := 0;
        if t.Some? {
          LeafEntry(free, mem, T, flat, role, parent, i);
          pte := mem[t.value][PX(0, i)];
        } else {
          Unreached(free, mem, T, flat, role, parent, i);
        }
        if IsV(pte) {
          ParentPage(free, mem, T, flat, role, parent, i);
          var done, _ := MapFresh(child, i, Flags(pte), mem[Ppn(pte)]);
          KeptTrans(old(mem), old(flat), old(role), mem1, flat1, role1, mem, flat, role, child, 0, hi, i, i + 1);
          GrownTrans(old(T), T1, T, child);
          if !done {
            ghost var mem2, flat2, role2 := mem, flat, role;
            GrownHas(old(T), T, child, Key(child, 2, 0));
            Uvmunmap(child, 0, i, true);
            KeptTrans(old(mem), old(flat), old(role), mem2, flat2, role2, mem, flat, role, child, 0, hi, 0, i);
            Undone(old(mem), old(flat), old(role), mem2, flat2, role2, child, 0, i, hi);
            return false;
          }
        } else {
          KeptSame(free, mem, T, flat, role, child, i, i + 1);
        }
        CopiedMore(old(mem), old(flat), parent, mem1, flat1, role1, mem, flat, role, child, i, hi);
        i := i + 1;
      }
      ok := true;
    }

    /** vmfault: a lazily promised page is supplied on first use. */
    method Vmfault(root: nat, psz: nat, va: nat) returns (r: Option<nat>)
      requires Valid() && Key(root, 2, 0) in T && Pages(psz) <= TRAPFRAME
      modifies this
      ensures Valid() && Grown(old(T), T, root)
      ensures Kept(old(mem), old(flat), old(role), mem, flat, role, root, va / PGSIZE, va / PGSIZE + 1)
      ensures r.None? ==> flat == old(flat) && Kept(old(mem), old(flat), old(role), mem, flat, role, root, 0, 0)
      ensures r.None? ==> va >= psz || Loc(root, va / PGSIZE) in old(flat) || |old(free)| < 3
      ensures r.Some? ==>
                && va < psz && Loc(root, va / PGSIZE) !in old(flat)
                && ZeroPage(mem, flat, root, va / PGSIZE, PTE_W + PTE_U + PTE_R)
                && r.value == Ppn(flat[Loc(root, va / PGSIZE)])
                && SameOutside(old(flat), flat, root, va / PGSIZE, va / PGSIZE + 1)
    {
      hide Good, Kept, Grown;
      var vpn := va / PGSIZE;
      KeptSame(free, mem, T, flat, role, root, vpn, vpn + 1);
      KeptSame(free, mem, T, flat, role, root, 0, 0);
      if va >= psz {
        return None;
      }
      var t := Walk(root, vpn, false);
      if t.Some? {
        LeafEntry(free, mem, T, flat, role, root, vpn);
        if IsV(mem[t.value][PX(0, vpn)]) {
          return None;
        }
      } else {
        Unreached(free, mem, T, flat, role, root, vpn);
      }
      var ok, p := MapFresh(root, vpn, PTE_W + PTE_U + PTE_R, Filled(0));
      if !ok {
        KeptUnmapped(old(mem), old(flat), old(role), mem, role, root, vpn);
      }
      r := if ok then Some(p) else None;
    }

    /** Valid, except that the tables in `open` may hold dangling entries. */
    ghost predicate ValidBut(open: set<Key>)
      reads this
    {
      GoodBut(free, mem, T, flat, role, open)
    }

    /** freewalk on table K, in page t, of an address space with nothing mapped. */
    method Freewalk(ghost K: Key, t: nat, ghost open: set<Key>) returns (panics: bool)
      requires ValidBut(open) && K in T && T[K] == t && (K.level < 2 ==> Parent(K) in open)
      requires forall k :: k in open ==> k.level > K.level
      requires forall l :: l in flat ==> l.root != K.root
      modifies this`free, this`mem, this`T, this`role
      ensures !panics
      ensures ValidBut(open) && T == WithoutTree(old(T), K)
      ensures Calm(old(mem), old(role), mem, role) && SameTables(T, old(mem), mem, K)
      decreases K.level
    {
      hide RolesOk, EntriesOk, FreeOk, Calm, Pruned, SameTables, WithoutTree, Under, Alone, Child, Parent;
      ghost var mem0, T0, role0 := mem, T, role;
      var i := 0;
      PrunedStart(T, K);
      FreewalkStart(free, mem, T, flat, role, K, open);
      while i < ENTRIES
        invariant 0 <= i <= ENTRIES && ValidBut(open + {K}) && T == Pruned(T0, K, i) && K in T && T[K] == t && t in mem
        invariant t in mem0 && forall j :: i <= j < ENTRIES ==> mem[t][j] == mem0[t][j]
        invariant Calm(mem0, role0, mem, role) && SameTables(T, mem0, mem, K)
      {
        BareEntry(mem0, T0, flat, role0, K, i, open);
        PrunedStep(mem0, T0, flat, role0, K, i);
        var pte := mem[t][i];
        if IsV(pte) && !IsLeaf(pte) {
          ghost var mem1, T1, role1 := mem, T, role;
          panics := Freewalk(Child(K, i), Ppn(pte), open + {K});
          CalmTrans(mem0, role0, mem1, role1, mem, role);
          SameTablesTrans(T1, T, mem0, mem1, mem, K, Child(K, i));
          Zeroed(free, mem0, role0, mem, T, flat, role, K, mem[t][i := 0], open + {K});
          mem := mem[t := mem[t][i := 0]];
        } else if IsV(pte) {
          return true;
        }
        i := i + 1;
      }
      PrunedEnd(mem0, T0, flat, role0, K, i);
      Dropped(free, mem0, role0, mem, T, flat, role, K, open);
      mem := mem[t := Filled(JUNK_FREE)];
      free, T, role := [t] + free, T - {K}, role[t := Role.Free];
      panics := false;
    }

    /** mappages: `done` pages of the range are mapped; all of them exactly on success. */
    method Mappages(root: nat, vpn: nat, npages: nat, ppn: nat, perm: nat) returns (res: MapResult, ghost done: nat)
      requires Valid() && Key(root, 2, 0) in T && 0 < npages && vpn + npages <= MAXVPN
      requires perm < 1024 && IsLeaf(WithV(perm)) && AllHeld(role, vpn, npages, ppn)
      modifies this
      ensures Valid() && Grown(old(T), T, root)
      ensures flat == MappedRange(old(flat), root, vpn, done, ppn, WithV(perm))
      ensures res.Mapped? <==> done == npages
      ensures !res.Mapped? ==> done < npages && (res.Remap? <==> Loc(root, vpn + done) in old(flat))
    {
      hide Good, Calm, CalmBut, Grown, Kept, AllHeld;
      KeptSame(free, mem, T, flat, role, root, 0, 0);
      done := 0;
      var a := 0;
      while true
        invariant a == done < npages && Valid() && Grown(old(T), T, root)
        invariant flat == MappedRange(old(flat), root, vpn, done, ppn, WithV(perm))
        invariant AllHeld(role, vpn + a, npages - a, ppn + a)
        decreases npages - a
      {
        ghost var T1, mem1, role1 := T, mem, role;
        GrownHas(old(T), T, root, Key(root, 2, 0));
        RangeNext(old(flat), root, vpn, done, ppn, WithV(perm));
        HeldFirst(role, vpn + a, npages - a, ppn + a);
        res := MapOne(root, vpn + a, ppn + a, perm);
        GrownTrans(old(T), T1, T, root);
        if !res.Mapped? {
          return;
        }
        HeldRest(mem1, role1, mem, role, vpn + a, npages - a, ppn + a);
        done := done + 1;
        if a == npages - 1 {
          break;
        }
        a := a + 1;
      }
    }

    /** uvmcreate: an empty address space. */
    method Uvmcreate() returns (r: Option<nat>)
      requires Valid()
      modifies this
      ensures Valid() && flat == old(flat) && Calm(old(mem), old(role), mem, role)
      ensures r.None? ==> T == old(T) && old(free) == []
      ensures |free| >= |old(free)| - 1
      ensures r.Some? ==> T == old(T)[Key(r.value, 2, 0) := r.value] && Key(r.value, 2, 0) !in old(T)
                          && forall l :: l in flat ==> l.root != r.value
    {
      hide RolesOk, EntriesOk, FreeOk, Calm, Filled;
      ghost var mem0, role0 := mem, role;
      OneEach(free, mem, T, flat, role);
      r := Kalloc();
      if r.None? {
        CalmSame(mem, role);
        return;
      }
      var p := r.value;
      Fill(p, Filled(0));
      AddRoot(mem, T, flat, role, p);
      FreeElsewhere(free, role, p, Table(Key(p, 2, 0)));
      CalmRoot(mem0, role0, p, Filled(JUNK_ALLOC), Filled(0), Key(p, 2, 0));
      T, role := T[Key(p, 2, 0) := p], role[p := Table(Key(p, 2, 0))];
    }

    /** uvmfree: give back the pages below sz, then every table of the address space. */
    method Uvmfree(root: nat, sz: nat) returns (panics: bool)
      requires Valid() && Key(root, 2, 0) in T && Pages(sz) <= TRAPFRAME
      requires forall l :: l in flat && l.root == root ==> l.vpn < Pages(sz)
      modifies this
      ensures !panics
      ensures Valid() && T == OtherTables(old(T), root) && flat == Cleared(old(flat), root, 0, Pages(sz))
      ensures Kept(old(mem), old(flat), old(role), mem, flat, role, root, 0, Pages(sz))
    {
      hide RolesOk, EntriesOk, FreeOk, Kept, Calm;
      KeptSame(free, mem, T, flat, role, root, 0, Pages(sz));
      ClearedNone(flat, root, 0);
      if sz > 0 {
        Uvmunmap(root, 0, Pages(sz), true);
      }
      ghost var free1, mem1, T1, role1 := free, mem, T, role;
      RootExists(mem, T, flat, role, Key(root, 2, 0));
      panics := Freewalk(Key(root, 2, 0), root, {});
      RootTree(mem1, T1, flat, role1, root);
      CalmToKept(free1, mem1, T1, flat, role1, mem, flat, role, root, 0, Pages(sz));
      KeptTrans(old(mem), old(flat), old(role), mem1, flat, role1, mem, flat, role, root, 0, Pages(sz), 0, Pages(sz));
    }
  }
}
