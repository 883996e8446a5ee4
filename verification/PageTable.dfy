/**
  Sv39 page tables as values: three levels of 512-entry tables in physical pages,
  and the flat partial map from virtual page numbers to entries that they represent.
  Section 4.4 of the RISC-V Privileged Architecture manual, version 20211203.
 */
module PageTable {
  const PGSIZE: nat := 4096
  const ENTRIES: nat := 512
  const MAXVA: nat := 0x40_0000_0000               // 1 << (9 + 9 + 9 + 12 - 1)
  const MAXVPN: nat := 0x400_0000                  // MAXVA / PGSIZE
  const TRAMPOLINE: nat := MAXVPN - 1              // page numbers of the two top pages
  const TRAPFRAME: nat := MAXVPN - 2

  const PTE_V: nat := 1
  const PTE_R: nat := 2
  const PTE_W: nat := 4
  const PTE_X: nat := 8
  const PTE_U: nat := 16

  /** A physical page, as 512 words of 64 bits. */
  type Page = p: seq<nat> | |p| == ENTRIES witness seq(ENTRIES, i => 0)

  function Filled(w: nat): Page { seq(ENTRIES, i => w) }

  // ---------- address and entry arithmetic (riscv.h) ----------

  function Shift(level: nat): nat
    requires level <= 2
  {
    if level == 0 then 1 else if level == 1 then 512 else 262144
  }

  /** PX(level, va), for the page number of va. */
  function PX(level: nat, vpn: nat): (r: nat)
    requires level <= 2
    ensures r < ENTRIES
  {
    (vpn / Shift(level)) % 512
  }

  function Pte(ppn: nat, flags: nat): nat { ppn * 1024 + flags }   // PA2PTE(pa) | flags
  function Ppn(pte: nat): nat { pte / 1024 }                       // PTE2PA(pte) / PGSIZE
  function Flags(pte: nat): nat { pte % 1024 }                     // PTE_FLAGS(pte)
  predicate IsV(pte: nat) { pte % 2 == 1 }
  predicate IsLeaf(pte: nat) { IsV(pte) && (pte / 2) % 8 != 0 }

  /** perm | PTE_V */
  function WithV(perm: nat): nat { if perm % 2 == 1 then perm else perm + 1 }

  /** Dividing by the powers of two of the entry format. */
  lemma Quotients(q: nat, r: nat)
    ensures r < 1024 ==> (q * 1024 + r) / 1024 == q && (q * 1024 + r) % 1024 == r
    ensures r < 8 ==> (q * 8 + r) % 8 == r
    ensures r < 2 ==> (q * 2 + r) / 2 == q && (q * 2 + r) % 2 == r
  {
  }

  lemma LowBits(ppn: nat, flags: nat)
    ensures (ppn * 1024 + flags) % 2 == flags % 2 && (ppn * 1024 + flags) / 2 % 8 == flags / 2 % 8
  {
    var half, bit := flags / 2, flags % 2;
    Quotients(ppn * 512 + half, bit);
    assert (ppn * 512 + half) * 2 + bit == ppn * 1024 + flags;
    Quotients(ppn * 64 + half / 8, half % 8);
    assert (ppn * 64 + half / 8) * 8 + half % 8 == ppn * 512 + half;
  }

  lemma PteRoundTrip(ppn: nat, flags: nat)
    requires flags < 1024
    ensures Ppn(Pte(ppn, flags)) == ppn && Flags(Pte(ppn, flags)) == flags
    ensures IsV(Pte(ppn, flags)) == IsV(flags) && IsLeaf(Pte(ppn, flags)) == IsLeaf(flags)
  {
    Quotients(ppn, flags);
    LowBits(ppn, flags);
  }

  // ---------- the tree and the flat map ----------

  /** A table: which address space, which level, and the part of the page number that leads to it. */
  datatype Key = Key(root: nat, level: nat, prefix: nat)

  /** A virtual page of an address space. */
  datatype Loc = Loc(root: nat, vpn: nat)

  /** What a physical page is used for. */
  datatype Role = Free | Held | Table(key: Key) | Frame(loc: Loc)

  type Memory = map<nat, Page>
  type Tables = map<Key, nat>
  type Flat = map<Loc, nat>
  type Roles = map<nat, Role>

  predicate KeyOk(k: Key) {
    k.level <= 2 && (if k.level == 2 then k.prefix == 0 else if k.level == 1 then k.prefix < 512 else k.prefix < 262144)
  }

  function Child(k: Key, i: nat): Key
    requires 0 < k.level
  {
    Key(k.root, k.level - 1, k.prefix * 512 + i)
  }

  function Parent(k: Key): Key { Key(k.root, k.level + 1, k.prefix / 512) }

  /** The table at `level` on the way to a page number. */
  function Toward(root: nat, level: nat, vpn: nat): Key
    requires level <= 2
  {
    Key(root, level, if level == 2 then 0 else if level == 1 then vpn / 262144 else vpn / 512)
  }

  lemma ChildParent(k: Key, i: nat)
    requires KeyOk(k) && 0 < k.level && i < ENTRIES
    ensures KeyOk(Child(k, i)) && Parent(Child(k, i)) == k
  {
  }

  /** The index arithmetic of walk descends along the path of the page number. */
  lemma PathStep(root: nat, level: nat, vpn: nat)
    requires 0 < level <= 2 && vpn < MAXVPN
    ensures KeyOk(Toward(root, level, vpn)) && KeyOk(Toward(root, level - 1, vpn))
    ensures Child(Toward(root, level, vpn), PX(level, vpn)) == Toward(root, level - 1, vpn)
  {
    if level == 2 {
      assert vpn / 262144 < 512;
    } else {
      Halves(vpn);
    }
  }

  lemma Halves(vpn: nat)
    requires vpn < MAXVPN
    ensures vpn / 512 < 262144 && vpn / 262144 < 512 && (vpn / 262144) * 512 + (vpn / 512) % 512 == vpn / 512
  {
    var q := vpn / 512;
    assert q / 512 == vpn / 262144;
    assert q == 512 * (q / 512) + q % 512;
  }

  /** The three indices determine the page number. */
  lemma Recompose(v: nat)
    requires v < MAXVPN
    ensures v == PX(2, v) * 262144 + PX(1, v) * 512 + PX(0, v)
  {
    assert (v / 512) / 512 == v / 262144;
  }

  /** Distinct pages below MAXVA reach distinct leaf entries. */
  lemma DistinctLeaves(root: nat, v: nat, w: nat)
    requires v < MAXVPN && w < MAXVPN && v != w
    ensures Toward(root, 0, v) != Toward(root, 0, w) || PX(0, v) != PX(0, w)
    ensures Toward(root, 0, v).prefix * 512 + PX(0, v) == v
    ensures (PX(2, v), PX(1, v), PX(0, v)) != (PX(2, w), PX(1, w), PX(0, w))
  {
    Recompose(v);
    Recompose(w);
  }

  predicate EntryOk(mem: Memory, T: Tables, flat: Flat, k: Key, i: nat) {
    && k in T && T[k] in mem && i < ENTRIES
    && var e := mem[T[k]][i];
       if k.level > 0 then
         e == (if Child(k, i) in T then Pte(T[Child(k, i)], PTE_V) else 0)
       else
         e == (if Loc(k.root, k.prefix * 512 + i) in flat then flat[Loc(k.root, k.prefix * 512 + i)] else 0)
  }

  /** Every RAM page has one role, and every role but Held is backed by what claims it. */
  predicate RolesOk(mem: Memory, T: Tables, flat: Flat, role: Roles) {
    && role.Keys == mem.Keys
    && (forall k {:trigger TableOk(T, role, k)} :: k in T ==> TableOk(T, role, k))
    && (forall l {:trigger LeafOk(T, flat, role, l)} :: l in flat ==> LeafOk(T, flat, role, l))
    && (forall p {:trigger Backed(T, flat, role, p)} :: p in role ==> Backed(T, flat, role, p))
  }

  /** What a page is said to be used for, it is used for. */
  predicate Backed(T: Tables, flat: Flat, role: Roles, p: nat) {
    && p in role
    && (role[p].Table? ==> role[p].key in T && T[role[p].key] == p)
    && (role[p].Frame? ==> role[p].loc in flat && role[p].loc.vpn < TRAPFRAME && Ppn(flat[role[p].loc]) == p)
  }

  /** A table: its page is its own, and it hangs in the tree. */
  predicate TableOk(T: Tables, role: Roles, k: Key) {
    && k in T && KeyOk(k) && T[k] in role && role[T[k]] == Table(k)
    && (k.level == 2 ==> T[k] == k.root) && (k.level < 2 ==> Parent(k) in T)
  }

  /** A mapped page: its table exists, and below TRAPFRAME the page it maps belongs to it alone. */
  predicate LeafOk(T: Tables, flat: Flat, role: Roles, l: Loc) {
    && l in flat && l.vpn < MAXVPN && Toward(l.root, 0, l.vpn) in T && IsLeaf(flat[l])
    && (l.vpn < TRAPFRAME ==> Ppn(flat[l]) in role && role[Ppn(flat[l])] == Frame(l))
  }

  /** All tables except those in `open` hold what the tree and the flat map say. */
  predicate EntriesOk(mem: Memory, T: Tables, flat: Flat, open: set<Key>) {
    forall k, i: nat :: k in T && k !in open && i < ENTRIES ==> EntryOk(mem, T, flat, k, i)
  }

  predicate FreeOk(free: seq<nat>, role: Roles) {
    && (forall i, j :: 0 <= i < j < |free| ==> free[i] != free[j])
    && (forall p :: p in free ==> p in role && role[p].Free?)
    && (forall p :: p in role && role[p].Free? ==> p in free)
  }

  predicate Good(free: seq<nat>, mem: Memory, T: Tables, flat: Flat, role: Roles) {
    RolesOk(mem, T, flat, role) && EntriesOk(mem, T, flat, {}) && FreeOk(free, role)
  }

  // ---------- what each primitive change keeps ----------

  /** A page that is neither table nor frame may be rewritten and may change hands. */
  lemma Rewrite(mem: Memory, T: Tables, flat: Flat, role: Roles, p: nat, x: Page, r: Role, open: set<Key>)
    requires RolesOk(mem, T, flat, role) && EntriesOk(mem, T, flat, open)
    requires p in role && (role[p].Free? || role[p].Held?) && (r.Free? || r.Held?)
    ensures RolesOk(mem[p := x], T, flat, role[p := r]) && EntriesOk(mem[p := x], T, flat, open)
  {
    var mem' := mem[p := x];
    RewriteRoles(mem, T, flat, role, p, r, mem');
    forall k, i: nat | k in T && k !in open && i < ENTRIES ensures EntryOk(mem', T, flat, k, i) {
      assert EntryOk(mem, T, flat, k, i) && TableOk(T, role, k);
    }
    hide RolesOk;
  }

  lemma RewriteRoles(mem: Memory, T: Tables, flat: Flat, role: Roles, p: nat, r: Role, mem': Memory)
    requires RolesOk(mem, T, flat, role) && mem'.Keys == mem.Keys
    requires p in role && (role[p].Free? || role[p].Held?) && (r.Free? || r.Held?)
    ensures RolesOk(mem', T, flat, role[p := r])
  {
    var role' := role[p := r];
    forall k | k in T ensures TableOk(T, role', k) {
      assert TableOk(T, role, k);
    }
    forall l | l in flat ensures LeafOk(T, flat, role', l) {
      assert LeafOk(T, flat, role, l);
    }
    forall q | q in role' ensures Backed(T, flat, role', q) {
      assert Backed(T, flat, role, q);
    }
  }

  lemma PopFree(free: seq<nat>, role: Roles)
    requires FreeOk(free, role) && free != []
    ensures free[0] in role && role[free[0]].Free? && FreeOk(free[1..], role[free[0] := Held])
  {
    var rest := free[1..];
    assert forall p :: p in free <==> p == free[0] || p in rest;
  }

  lemma PushFree(free: seq<nat>, role: Roles, p: nat)
    requires FreeOk(free, role) && p in role && !role[p].Free?
    ensures FreeOk([p] + free, role[p := Role.Free])
  {
  }

  /** Pages that stay off the free list do not concern it. */
  lemma FreeElsewhere(free: seq<nat>, role: Roles, p: nat, r: Role)
    requires FreeOk(free, role) && p in role && !role[p].Free? && !r.Free?
    ensures FreeOk(free, role[p := r])
  {
  }

  function WriteEntry(mem: Memory, t: nat, i: nat, e: nat): Memory
    requires t in mem && i < ENTRIES
  {
    mem[t := mem[t][i := e]]
  }

  /** walk links a zeroed page in as the table c = Child(k, i). */
  lemma AddTable(mem: Memory, T: Tables, flat: Flat, role: Roles, k: Key, i: nat, p: nat)
    requires RolesOk(mem, T, flat, role) && EntriesOk(mem, T, flat, {})
    requires k in T && T[k] in mem && 0 < k.level && i < ENTRIES && Child(k, i) !in T
    requires p in role && role[p].Held? && mem[p] == Filled(0)
    ensures var mem' := WriteEntry(mem, T[k], i, Pte(p, PTE_V));
            var T', role' := T[Child(k, i) := p], role[p := Table(Child(k, i))];
            RolesOk(mem', T', flat, role') && EntriesOk(mem', T', flat, {})
  {
    var c := Child(k, i);
    assert TableOk(T, role, k);
    ChildParent(k, i);
    var mem' := WriteEntry(mem, T[k], i, Pte(p, PTE_V));
    var T' := T[c := p];
    AddTableRoles(mem, T, flat, role, k, i, p, mem');
    forall j, n: nat | j in T' && n < ENTRIES ensures EntryOk(mem', T', flat, j, n) {
      if j == c {
        NothingBelow(T, flat, role, mem, c, n);
      } else {
        assert EntryOk(mem, T, flat, j, n) && TableOk(T, role, j);
        if j.level > 0 && Child(j, n) == c { ChildParent(j, n); }
      }
    }
    hide RolesOk;
  }

  lemma AddTableRoles(mem: Memory, T: Tables, flat: Flat, role: Roles, k: Key, i: nat, p: nat, mem': Memory)
    requires RolesOk(mem, T, flat, role) && mem'.Keys == mem.Keys
    requires k in T && 0 < k.level && i < ENTRIES && Child(k, i) !in T && p in role && role[p].Held?
    ensures RolesOk(mem', T[Child(k, i) := p], flat, role[p := Table(Child(k, i))])
  {
    var c := Child(k, i);
    assert TableOk(T, role, k);
    ChildParent(k, i);
    var T', role' := T[c := p], role[p := Table(c)];
    forall j | j in T' ensures TableOk(T', role', j) {
      if j != c { assert TableOk(T, role, j); }
    }
    forall l | l in flat ensures LeafOk(T', flat, role', l) {
      assert LeafOk(T, flat, role, l);
    }
    forall q | q in role' ensures Backed(T', flat, role', q) {
      assert Backed(T, flat, role, q);
    }
  }

  /** Nothing hangs below a table that does not exist. */
  lemma NothingBelow(T: Tables, flat: Flat, role: Roles, mem: Memory, c: Key, n: nat)
    requires RolesOk(mem, T, flat, role) && KeyOk(c) && c !in T && n < ENTRIES
    ensures 0 < c.level ==> Child(c, n) !in T
    ensures c.level == 0 ==> Loc(c.root, c.prefix * 512 + n) !in flat
  {
    var l := Loc(c.root, c.prefix * 512 + n);
    if 0 < c.level {
      ChildParent(c, n);
      assert Child(c, n) in T ==> TableOk(T, role, Child(c, n));
    } else {
      assert l in flat ==> LeafOk(T, flat, role, l);
    }
  }

  /** An empty root table. */
  lemma AddRoot(mem: Memory, T: Tables, flat: Flat, role: Roles, p: nat)
    requires RolesOk(mem, T, flat, role) && EntriesOk(mem, T, flat, {})
    requires p in role && role[p].Held? && mem[p] == Filled(0)
    ensures var T', role' := T[Key(p, 2, 0) := p], role[p := Table(Key(p, 2, 0))];
            && Key(p, 2, 0) !in T
            && RolesOk(mem, T', flat, role') && EntriesOk(mem, T', flat, {})
            && (forall l :: l in flat ==> l.root != p)
  {
    var c := Key(p, 2, 0);
    assert c in T ==> TableOk(T, role, c);
    var T', role' := T[c := p], role[p := Table(c)];
    forall j | j in T' ensures TableOk(T', role', j) {
      if j != c { assert TableOk(T, role, j); }
    }
    forall l | l in flat ensures LeafOk(T', flat, role', l) && l.root != p {
      assert LeafOk(T, flat, role, l);
      RootExists(mem, T, flat, role, Toward(l.root, 0, l.vpn));
    }
    forall q | q in role' ensures Backed(T', flat, role', q) {
      assert Backed(T, flat, role, q);
    }
    forall j, n: nat | j in T' && n < ENTRIES ensures EntryOk(mem, T', flat, j, n) {
      if j == c {
        NothingBelow(T, flat, role, mem, c, n);
      } else {
        assert EntryOk(mem, T, flat, j, n) && TableOk(T, role, j);
      }
    }
  }

  /** Every table has its root. */
  lemma RootExists(mem: Memory, T: Tables, flat: Flat, role: Roles, k: Key)
    requires RolesOk(mem, T, flat, role) && k in T
    ensures Key(k.root, 2, 0) in T && T[Key(k.root, 2, 0)] == k.root
    ensures k.root in role && role[k.root] == Table(Key(k.root, 2, 0))
    decreases if k.level <= 2 then 2 - k.level else 0
  {
    assert TableOk(T, role, k);
    if k.level < 2 { RootExists(mem, T, flat, role, Parent(k)); }
  }

  function RoleMapped(role: Roles, l: Loc, e: nat): Roles {
    if l.vpn < TRAPFRAME then role[Ppn(e) := Frame(l)] else role
  }

  function RoleUnmapped(role: Roles, l: Loc, e: nat): Roles {
    if l.vpn < TRAPFRAME then role[Ppn(e) := Held] else role
  }

  lemma MapLeaf(mem: Memory, T: Tables, flat: Flat, role: Roles, l: Loc, e: nat)
    requires RolesOk(mem, T, flat, role) && EntriesOk(mem, T, flat, {})
    requires l.vpn < MAXVPN && Toward(l.root, 0, l.vpn) in T && l !in flat && IsLeaf(e)
    requires l.vpn < TRAPFRAME ==> Ppn(e) in role && role[Ppn(e)].Held?
    ensures var k := Toward(l.root, 0, l.vpn);
            && T[k] in mem
            && var mem' := WriteEntry(mem, T[k], PX(0, l.vpn), e);
               var flat', role' := flat[l := e], RoleMapped(role, l, e);
               RolesOk(mem', T, flat', role') && EntriesOk(mem', T, flat', {})
  {
    var k := Toward(l.root, 0, l.vpn);
    assert TableOk(T, role, k);
    var mem' := WriteEntry(mem, T[k], PX(0, l.vpn), e);
    var flat', role' := flat[l := e], RoleMapped(role, l, e);
    MapLeafRoles(mem, T, flat, role, l, e, mem');
    forall j, n: nat | j in T && n < ENTRIES ensures EntryOk(mem', T, flat', j, n) {
      assert EntryOk(mem, T, flat, j, n) && TableOk(T, role, j);
    }
    hide RolesOk;
  }

  lemma MapLeafRoles(mem: Memory, T: Tables, flat: Flat, role: Roles, l: Loc, e: nat, mem': Memory)
    requires RolesOk(mem, T, flat, role) && mem'.Keys == mem.Keys
    requires l.vpn < MAXVPN && Toward(l.root, 0, l.vpn) in T && l !in flat && IsLeaf(e)
    requires l.vpn < TRAPFRAME ==> Ppn(e) in role && role[Ppn(e)].Held?
    ensures RolesOk(mem', T, flat[l := e], RoleMapped(role, l, e))
  {
    var flat', role' := flat[l := e], RoleMapped(role, l, e);
    forall j | j in T ensures TableOk(T, role', j) {
      assert TableOk(T, role, j);
    }
    forall m | m in flat' ensures LeafOk(T, flat', role', m) {
      if m != l { assert LeafOk(T, flat, role, m); }
    }
    forall q | q in role' ensures Backed(T, flat', role', q) {
      assert Backed(T, flat, role, q);
    }
  }

  lemma UnmapLeaf(mem: Memory, T: Tables, flat: Flat, role: Roles, l: Loc)
    requires RolesOk(mem, T, flat, role) && EntriesOk(mem, T, flat, {}) && l in flat
    ensures var k := Toward(l.root, 0, l.vpn);
            && k in T && T[k] in mem && l.vpn < MAXVPN && mem[T[k]][PX(0, l.vpn)] == flat[l]
            && var mem' := WriteEntry(mem, T[k], PX(0, l.vpn), 0);
               var flat', role' := flat - {l}, RoleUnmapped(role, l, flat[l]);
               RolesOk(mem', T, flat', role') && EntriesOk(mem', T, flat', {})
  {
    assert LeafOk(T, flat, role, l);
    var k := Toward(l.root, 0, l.vpn);
    assert EntryOk(mem, T, flat, k, PX(0, l.vpn)) && TableOk(T, role, k);
    var mem' := WriteEntry(mem, T[k], PX(0, l.vpn), 0);
    var flat', role' := flat - {l}, RoleUnmapped(role, l, flat[l]);
    UnmapLeafRoles(mem, T, flat, role, l, mem');
    forall j, n: nat | j in T && n < ENTRIES ensures EntryOk(mem', T, flat', j, n) {
      assert EntryOk(mem, T, flat, j, n) && TableOk(T, role, j);
    }
    hide RolesOk;
  }

  lemma UnmapLeafRoles(mem: Memory, T: Tables, flat: Flat, role: Roles, l: Loc, mem': Memory)
    requires RolesOk(mem, T, flat, role) && mem'.Keys == mem.Keys && l in flat
    ensures RolesOk(mem', T, flat - {l}, RoleUnmapped(role, l, flat[l]))
  {
    assert LeafOk(T, flat, role, l);
    var flat', role' := flat - {l}, RoleUnmapped(role, l, flat[l]);
    forall j | j in T ensures TableOk(T, role', j) {
      assert TableOk(T, role, j);
    }
    forall m | m in flat' ensures LeafOk(T, flat', role', m) {
      assert LeafOk(T, flat, role, m);
    }
    forall q | q in role' ensures Backed(T, flat', role', q) {
      assert Backed(T, flat, role, q);
    }
  }

  // ---------- taking a tree apart ----------

  /** k is K or lies below it. */
  predicate Under(k: Key, K: Key)
    decreases if k.level < K.level then K.level - k.level else 0
  {
    k == K || (k.level < K.level && Under(Parent(k), K))
  }

  /** Which entry of K leads to k. */
  function Branch(k: Key, K: Key): nat
    requires k.level < K.level
    decreases K.level - k.level
  {
    if k.level + 1 == K.level then k.prefix % 512 else Branch(Parent(k), K)
  }

  /** The keys below K split by the entry that leads to them. */
  lemma {:induction false} BranchUnder(k: Key, K: Key, i: nat)
    requires KeyOk(k) && KeyOk(K) && 0 < K.level && i < ENTRIES
    ensures Under(k, Child(K, i)) <==> k.level < K.level && Under(k, K) && Branch(k, K) == i
    ensures k.level < K.level ==> Branch(k, K) < ENTRIES
    decreases if k.level < K.level then K.level - k.level else 0
  {
    ChildParent(K, i);
    var C := Child(K, i);
    if k.level >= K.level {
      assert k != C && !Under(k, C);
    } else if k.level + 1 == K.level {
      assert Under(k, C) <==> k == C;
      assert Under(k, K) <==> Parent(k) == K;
      assert Parent(k) == K && k.prefix % 512 == i ==> k == C;
    } else {
      BranchUnder(Parent(k), K, i);
      assert Under(k, C) <==> Under(Parent(k), C);
      assert Under(k, K) <==> Under(Parent(k), K);
      assert Branch(k, K) == Branch(Parent(k), K);
    }
  }

  lemma {:induction false} UnderParent(k: Key, K: Key)
    requires Under(k, K) && k != K
    ensures k.level < K.level && Under(Parent(k), K) && k.root == K.root
    decreases if k.level < K.level then K.level - k.level else 0
  {
    if Parent(k) != K { UnderParent(Parent(k), K); }
  }

  /** T without what lies below the first n entries of K. */
  function Pruned(T: Tables, K: Key, n: nat): Tables {
    map k | k in T && !(k.level < K.level && Under(k, K) && Branch(k, K) < n) :: T[k]
  }

  function WithoutTree(T: Tables, K: Key): Tables {
    map k | k in T && !Under(k, K) :: T[k]
  }

  /** A tree with a key below K has K. */
  lemma {:induction false} UnderIn(mem: Memory, T: Tables, flat: Flat, role: Roles, k: Key, K: Key)
    requires RolesOk(mem, T, flat, role) && k in T && Under(k, K) && K.level <= 2
    ensures K in T
    decreases if k.level < K.level then K.level - k.level else 0
  {
    assert TableOk(T, role, k);
    if k != K { UnderIn(mem, T, flat, role, Parent(k), K); }
  }

  lemma PrunedMore(mem: Memory, T: Tables, flat: Flat, role: Roles, K: Key, n: nat)
    requires RolesOk(mem, T, flat, role) && KeyOk(K) && 0 < K.level && n < ENTRIES
    ensures WithoutTree(Pruned(T, K, n), Child(K, n)) == Pruned(T, K, n + 1)
    ensures Child(K, n) !in T ==> Pruned(T, K, n) == Pruned(T, K, n + 1)
    ensures Child(K, n) in Pruned(T, K, n) <==> Child(K, n) in T
  {
    ChildParent(K, n);
    forall k | k in T
      ensures Under(k, Child(K, n)) <==> k.level < K.level && Under(k, K) && Branch(k, K) == n
      ensures Under(k, Child(K, n)) ==> Child(K, n) in T
    {
      assert TableOk(T, role, k);
      BranchUnder(k, K, n);
      if Under(k, Child(K, n)) { UnderIn(mem, T, flat, role, k, Child(K, n)); }
    }
  }

  /** Nothing of T lies below K. */
  ghost predicate Alone(T: Tables, K: Key) {
    forall k {:trigger Under(k, K)} :: k in T && Under(k, K) ==> k == K
  }

  lemma PrunedStart(T: Tables, K: Key)
    ensures Pruned(T, K, 0) == T
  {
  }

  lemma PrunedEnd(mem: Memory, T: Tables, flat: Flat, role: Roles, K: Key, n: nat)
    requires RolesOk(mem, T, flat, role) && K in T && (n == ENTRIES || K.level == 0)
    ensures K in Pruned(T, K, n) && Pruned(T, K, n)[K] == T[K]
    ensures Pruned(T, K, n) - {K} == WithoutTree(T, K) && Alone(Pruned(T, K, n), K)
  {
    assert TableOk(T, role, K);
    forall k | k in T ensures Under(k, K) && k != K ==> k.level < K.level && Branch(k, K) < n
    {
      assert TableOk(T, role, k);
      if Under(k, K) && k != K { UnderParent(k, K); BranchUnder(k, K, 0); }
    }
    hide RolesOk, TableOk, Under;
    assert K in T && !(K.level < K.level);
  }

  /** A table with nothing below it is freed; only the entry that led to it is left dangling. */
  lemma DropTable(mem: Memory, T: Tables, flat: Flat, role: Roles, K: Key, junk: Page, open: set<Key>)
    requires RolesOk(mem, T, flat, role) && EntriesOk(mem, T, flat, open + {K}) && K in T && Alone(T, K)
    requires forall l :: l in flat ==> l.root != K.root
    requires K.level < 2 ==> Parent(K) in open
    ensures T[K] in mem
    ensures RolesOk(mem[T[K] := junk], T - {K}, flat, role[T[K] := Role.Free])
    ensures EntriesOk(mem[T[K] := junk], T - {K}, flat, open)
  {
    hide Under, Alone;
    assert TableOk(T, role, K);
    var mem', T' := mem[T[K] := junk], T - {K};
    DropTableRoles(mem, T, flat, role, K, mem');
    forall k, i: nat | k in T' && k !in open && i < ENTRIES ensures EntryOk(mem', T', flat, k, i) {
      assert EntryOk(mem, T, flat, k, i) && TableOk(T, role, k);
      if k.level > 0 && Child(k, i) == K { ChildParent(k, i); }
    }
    hide RolesOk;
  }

  lemma DropTableRoles(mem: Memory, T: Tables, flat: Flat, role: Roles, K: Key, mem': Memory)
    requires RolesOk(mem, T, flat, role) && K in T && mem'.Keys == mem.Keys && Alone(T, K)
    requires forall l :: l in flat ==> l.root != K.root
    ensures RolesOk(mem', T - {K}, flat, role[T[K] := Role.Free])
  {
    assert TableOk(T, role, K);
    var T', role' := T - {K}, role[T[K] := Role.Free];
    forall k | k in T' ensures TableOk(T', role', k) {
      assert TableOk(T, role, k);
      NotChildOf(T, k, K);
    }
    hide Alone, Under;
    forall l | l in flat ensures LeafOk(T', flat, role', l) {
      assert LeafOk(T, flat, role, l);
    }
    forall q | q in role' ensures Backed(T', flat, role', q) {
      assert Backed(T, flat, role, q);
    }
  }

  lemma NotChildOf(T: Tables, k: Key, K: Key)
    requires k in T && k != K && Alone(T, K)
    ensures Parent(k) != K
  {
    assert Parent(k) == K ==> Under(k, K);
  }

  /** Writing into a table that is already open concerns nobody. */
  lemma WriteOpen(mem: Memory, T: Tables, flat: Flat, role: Roles, K: Key, x: Page, open: set<Key>)
    requires RolesOk(mem, T, flat, role) && EntriesOk(mem, T, flat, open) && K in T && K in open
    ensures T[K] in mem && RolesOk(mem[T[K] := x], T, flat, role) && EntriesOk(mem[T[K] := x], T, flat, open)
  {
    assert TableOk(T, role, K);
    var mem' := mem[T[K] := x];
    forall k, i: nat | k in T && k !in open && i < ENTRIES ensures EntryOk(mem', T, flat, k, i) {
      assert EntryOk(mem, T, flat, k, i) && TableOk(T, role, k);
    }
  }

  /** What freewalk reads: a link to a table below, or nothing, when no page of the space is mapped. */
  lemma BareEntry(mem: Memory, T: Tables, flat: Flat, role: Roles, K: Key, i: nat, open: set<Key>)
    requires RolesOk(mem, T, flat, role) && EntriesOk(mem, T, flat, open) && K in T && K !in open && i < ENTRIES
    requires forall l :: l in flat ==> l.root != K.root
    ensures T[K] in mem
    ensures var e := mem[T[K]][i];
            if K.level > 0 && Child(K, i) in T then
              IsV(e) && !IsLeaf(e) && Ppn(e) == T[Child(K, i)]
            else e == 0
  {
    assert EntryOk(mem, T, flat, K, i);
    hide RolesOk, EntriesOk;
    if K.level > 0 {
      LinkEntry(mem, T, flat, K, i);
    }
  }

  /** An entry above the last level: a link that is no leaf, or nothing. */
  lemma LinkEntry(mem: Memory, T: Tables, flat: Flat, k: Key, i: nat)
    requires EntryOk(mem, T, flat, k, i) && k.level > 0
    ensures var e := mem[T[k]][i];
            if Child(k, i) in T then IsV(e) && !IsLeaf(e) && Ppn(e) == T[Child(k, i)] else e == 0 && !IsV(e)
  {
    if Child(k, i) in T {
      assert IsV(PTE_V) && !IsLeaf(PTE_V);
      PteRoundTrip(T[Child(k, i)], PTE_V);
      hide IsV, IsLeaf, Ppn, Pte;
    }
  }
}
