/**
  The memory side of processes: proc_pagetable, growproc, sys_sbrk (eager and lazy),
  page faults, fork and exit, with any kalloc allowed to fail.
 */
module ProcMemory {
  import opened Basics
  import opened PageTable
  import opened Vm

  /** The address-space part of struct proc. */
  datatype Proc = Proc(root: nat, sz: nat, trapframe: nat)

  const TRAMPOLINE_PPN: nat := 0x80007       // the kernel's trampoline page; not in the allocator's RAM
  const WRAP: nat := 0x1_0000_0000_0000_0000 // uint64 arithmetic

  /** A live process: user pages only below its size, and the two pages at the top. */
  ghost predicate ProcOk(T: Tables, flat: Flat, role: Roles, p: Proc) {
    && Key(p.root, 2, 0) in T && p.sz <= TRAPFRAME * PGSIZE
    && (forall l :: l in flat && l.root == p.root ==> l.vpn < Pages(p.sz) || l.vpn == TRAPFRAME || l.vpn == TRAMPOLINE)
    && Loc(p.root, TRAPFRAME) in flat && Loc(p.root, TRAMPOLINE) in flat
    && Ppn(flat[Loc(p.root, TRAPFRAME)]) == p.trapframe
    && p.trapframe in role && role[p.trapframe].Held?
  }

  ghost predicate Distinct(table: map<nat, Proc>) {
    forall a, b :: a in table && b in table && a != b ==>
                     table[a].root != table[b].root && table[a].trapframe != table[b].trapframe
  }

  /** Nothing leaks: every table is some process's, every held page is some process's trapframe. */
  ghost predicate NoLeak(T: Tables, role: Roles, table: map<nat, Proc>) {
    && (forall k :: k in T ==> exists a :: a in table && table[a].root == k.root)
    && (forall p :: p in role && role[p].Held? ==> exists a :: a in table && table[a].trapframe == p)
  }

  ghost predicate EachOk(T: Tables, flat: Flat, role: Roles, table: map<nat, Proc>) {
    forall a :: a in table ==> ProcOk(T, flat, role, table[a])
  }

  ghost predicate AllOk(T: Tables, flat: Flat, role: Roles, table: map<nat, Proc>) {
    EachOk(T, flat, role, table) && Distinct(table) && NoLeak(T, role, table)
  }

  /** A process is untouched by work on another address space. */
  lemma OtherProc(mem: Memory, T: Tables, flat: Flat, role: Roles, mem': Memory, T': Tables, flat': Flat, role': Roles,
                  root: nat, lo: nat, hi: nat, p: Proc)
    requires ProcOk(T, flat, role, p) && p.root != root && Kept(mem, flat, role, mem', flat', role', root, lo, hi)
    requires forall k :: k in T && k.root != root ==> k in T'
    ensures ProcOk(T', flat', role', p)
  {
  }

  /** Work inside one address space that keeps its own process in order keeps them all. */
  lemma AllAfter(mem: Memory, T: Tables, flat: Flat, role: Roles, mem': Memory, T': Tables, flat': Flat, role': Roles,
                 table: map<nat, Proc>, a: nat, p: Proc, lo: nat, hi: nat)
    requires AllOk(T, flat, role, table) && a in table && p.root == table[a].root && p.trapframe == table[a].trapframe
    requires Kept(mem, flat, role, mem', flat', role', p.root, lo, hi) && Grown(T, T', p.root)
    requires ProcOk(T', flat', role', p)
    ensures AllOk(T', flat', role', table[a := p])
  {
    hide NoLeak, Kept, Grown, ProcOk, EachOk;
    NoLeakAfter(mem, T, flat, role, mem', T', flat', role', table, a, p, lo, hi);
    KeepsOthers(T, T', p.root);
    EachAfter(mem, T, flat, role, mem', T', flat', role', table, a, p, lo, hi);
  }

  lemma EachAfter(mem: Memory, T: Tables, flat: Flat, role: Roles, mem': Memory, T': Tables, flat': Flat, role': Roles,
                  table: map<nat, Proc>, a: nat, p: Proc, lo: nat, hi: nat)
    requires EachOk(T, flat, role, table) && Distinct(table) && a in table && p.root == table[a].root
    requires Kept(mem, flat, role, mem', flat', role', p.root, lo, hi)
    requires forall k :: k in T && k.root != p.root ==> k in T'
    requires ProcOk(T', flat', role', p)
    ensures EachOk(T', flat', role', table[a := p])
  {
    hide Kept, ProcOk;
    var table' := table[a := p];
    forall b | b in table' ensures ProcOk(T', flat', role', table'[b]) {
      if b != a { OtherProc(mem, T, flat, role, mem', T', flat', role', p.root, lo, hi, table[b]); }
    }
  }

  lemma KeepsOthers(T: Tables, T': Tables, root: nat)
    requires Grown(T, T', root)
    ensures forall k :: k in T && k.root != root ==> k in T'
  {
  }

  lemma NoLeakAfter(mem: Memory, T: Tables, flat: Flat, role: Roles, mem': Memory, T': Tables, flat': Flat,
                    role': Roles,
                    table: map<nat, Proc>, a: nat, p: Proc, lo: nat, hi: nat)
    requires NoLeak(T, role, table) && a in table && p.root == table[a].root && p.trapframe == table[a].trapframe
    requires Kept(mem, flat, role, mem', flat', role', p.root, lo, hi) && Grown(T, T', p.root)
    ensures NoLeak(T', role', table[a := p])
  {
    var table' := table[a := p];
    forall k | k in T' ensures exists b :: b in table' && table'[b].root == k.root {
      if k.root == p.root { assert a in table' && table'[a].root == k.root; }
      else {
        var b :| b in table && table[b].root == k.root;
        assert b in table' && table'[b].root == k.root;
      }
    }
    forall q | q in role' && role'[q].Held? ensures exists b :: b in table' && table'[b].trapframe == q {
      var b :| b in table && table[b].trapframe == q;
      assert b in table' && table'[b].trapframe == q;
    }
  }

  /** Changes below max(old, new) size leave a process in order with the new size. */
  lemma Resized(mem: Memory, T: Tables, flat: Flat, role: Roles, mem': Memory, T': Tables, flat': Flat, role': Roles,
                p: Proc, sz: nat, lo: nat, hi: nat)
    requires ProcOk(T, flat, role, p) && sz <= TRAPFRAME * PGSIZE
    requires Kept(mem, flat, role, mem', flat', role', p.root, lo, hi) && Grown(T, T', p.root) && hi <= TRAPFRAME
    requires forall l :: l in flat' && l.root == p.root && l.vpn < TRAPFRAME ==> l.vpn < Pages(sz)
    requires forall l :: l in flat' ==> l.vpn < MAXVPN
    ensures ProcOk(T', flat', role', p.(sz := sz))
  {
  }

  lemma Bounded(free: seq<nat>, mem: Memory, T: Tables, flat: Flat, role: Roles)
    requires Good(free, mem, T, flat, role)
    ensures forall l :: l in flat ==> l.vpn < MAXVPN
  {
    forall l | l in flat ensures l.vpn < MAXVPN {
      assert LeafOk(T, flat, role, l);
    }
  }

  /** Nothing is mapped above a process's size, so growing never meets "mappages: remap". */
  lemma RoomAbove(T: Tables, flat: Flat, role: Roles, p: Proc, hi: nat)
    requires ProcOk(T, flat, role, p) && hi <= TRAPFRAME
    ensures NoneMapped(flat, p.root, Pages(p.sz), hi) && Key(p.root, 2, 0) in T && Pages(p.sz) <= TRAPFRAME
  {
  }

  /** The pages that a change of the size by `n` can touch: between the two sizes, and none if the sum wraps. */
  function Least(sz: nat, n: int): nat { if n >= 0 then Pages(sz) else if sz + n >= 0 then Pages(sz + n) else 0 }

  function Most(sz: nat, n: int): nat { if n >= 0 then Pages(sz + n) else if sz + n >= 0 then Pages(sz) else 0 }

  /** A range of no pages is as good as any other. */
  lemma KeptAll(mem: Memory, flat: Flat, role: Roles, mem': Memory, flat': Flat, role': Roles, root: nat, lo: nat,
                hi: nat)
    requires Kept(mem, flat, role, mem', flat', role', root, lo, hi) && lo >= hi
    ensures Kept(mem, flat, role, mem', flat', role', root, 0, 0)
  {
  }

  class Procs {
    const vm: Paging
    var table: map<nat, Proc>

    ghost predicate Valid()
      reads this, vm
    {
      vm.Valid() && AllOk(vm.T, vm.flat, vm.role, table)
    }

    /** No processes yet; every page is free. */
    constructor (vm: Paging)
      requires vm.Valid() && vm.T == map[] && vm.flat == map[] && forall p :: p in vm.role ==> vm.role[p].Free?
      ensures this.vm == vm && table == map[] && Valid()
    {
      this.vm := vm;
      table := map[];
    }

    /** growproc(n) for n > 0. */
    method Grow(pid: nat, n: nat) returns (ok: bool)
      requires Valid() && pid in table && n > 0
      modifies this, vm
      ensures Valid()
      ensures !ok ==> table == old(table) && vm.flat == old(vm.flat)
      ensures !ok ==>
                var p := old(table)[pid];
                p.sz + n > TRAPFRAME * PGSIZE || |old(vm.free)| < 3 * (Pages(p.sz + n) - Pages(p.sz))
      ensures ok ==>
                var p := old(table)[pid];
                && p.sz + n <= TRAPFRAME * PGSIZE && table == old(table)[pid := p.(sz := p.sz + n)]
                && ZeroPages(vm.mem, vm.flat, p.root, Pages(p.sz), Pages(p.sz + n), PTE_R + PTE_U + PTE_W)
      ensures var p := old(table)[pid];
              Kept(old(vm.mem), old(vm.flat), old(vm.role), vm.mem, vm.flat, vm.role, p.root, Least(p.sz, n),
                   Most(p.sz, n))
    {
      hide Good, AllOk, Kept, ProcOk, Grown;
      var p := table[pid];
      ghost var free0, mem0, T0, flat0, role0 := vm.free, vm.mem, vm.T, vm.flat, vm.role;
      KeptSame(vm.free, vm.mem, vm.T, vm.flat, vm.role, p.root, Pages(p.sz), Pages(p.sz + n));
      if p.sz + n > TRAPFRAME * PGSIZE {
        return false;
      }
      ItsOwn(vm.T, vm.flat, vm.role, table, pid);
      RoomAbove(vm.T, vm.flat, vm.role, p, Pages(p.sz + n));
      var got := vm.Uvmalloc(p.root, p.sz, p.sz + n, PTE_W);
      if got.None? {
        AllAfterResize(free0, mem0, T0, flat0, role0, vm.free, vm.mem, vm.T, vm.flat, vm.role, table, pid, p.sz,
                       Pages(p.sz), Pages(p.sz + n));
        assert table[pid := p.(sz := p.sz)] == table;
        return false;
      }
      StillBelow(mem0, T0, flat0, role0, vm.mem, vm.flat, vm.role, p, Pages(p.sz), Pages(p.sz + n));
      AllAfterResize(free0, mem0, T0, flat0, role0, vm.free, vm.mem, vm.T, vm.flat, vm.role, table, pid, p.sz + n,
                     Pages(p.sz), Pages(p.sz + n));
      table := table[pid := p.(sz := got.value)];
      ok := true;
    }

    /** growproc(n) for n < 0: sz + n is computed in 64 bits and may wrap, and then nothing happens. */
    method Shrink(pid: nat, n: int)
      requires Valid() && pid in table && -0x8000_0000 <= n < 0
      modifies this, vm
      ensures Valid()
      ensures var p := old(table)[pid];
              && table == old(table)[pid := p.(sz := if p.sz + n >= 0 then p.sz + n else p.sz)]
              && vm.flat ==
                 (if p.sz + n >= 0 then Cleared(old(vm.flat), p.root, Pages(p.sz + n), Pages(p.sz)) else old(vm.flat))
      ensures var p := old(table)[pid];
              Kept(old(vm.mem), old(vm.flat), old(vm.role), vm.mem, vm.flat, vm.role, p.root, Least(p.sz, n),
                   Most(p.sz, n))
    {
      hide Good, AllOk, Kept, ProcOk, Grown;
      var p := table[pid];
      ghost var free0, mem0, T0, flat0, role0 := vm.free, vm.mem, vm.T, vm.flat, vm.role;
      KeptSame(vm.free, vm.mem, vm.T, vm.flat, vm.role, p.root, 0, 0);
      ItsOwn(vm.T, vm.flat, vm.role, table, pid);
      RoomAbove(vm.T, vm.flat, vm.role, p, 0);
      var newsz := (p.sz + n) % WRAP;
      var sz := vm.Uvmdealloc(p.root, p.sz, newsz);
      if p.sz + n < 0 {
        KeptAll(mem0, flat0, role0, vm.mem, vm.flat, vm.role, p.root, Pages(newsz), Pages(p.sz));
      }
      AllAfterResize(free0, mem0, T0, flat0, role0, vm.free, vm.mem, vm.T, vm.flat, vm.role, table, pid, sz,
                     Pages(newsz), Pages(p.sz));
      table := table[pid := p.(sz := sz)];
    }

    /** sys_sbrk; -1 on failure, else the old size. */
    method Sbrk(pid: nat, n: int, eager: bool) returns (r: int)
      requires Valid() && pid in table && -0x8000_0000 <= n < 0x8000_0000
      modifies this, vm
      ensures Valid()
      ensures r == -1 ==> n > 0 && table == old(table) && vm.flat == old(vm.flat)
      ensures r == -1 ==>
                var p := old(table)[pid];
                p.sz + n > TRAPFRAME * PGSIZE || (eager && |old(vm.free)| < 3 * (Pages(p.sz + n) - Pages(p.sz)))
      ensures r != -1 ==>
                var p := old(table)[pid];
                && r == p.sz && table == old(table)[pid := p.(sz := if r + n >= 0 then r + n else r)]
                && (!eager && n >= 0 ==> vm.flat == old(vm.flat))
                && (eager && n > 0 ==>
                      ZeroPages(vm.mem, vm.flat, p.root, Pages(r), Pages(r + n), PTE_R + PTE_U + PTE_W))
                && (n < 0 && r + n >= 0 ==> vm.flat == Cleared(old(vm.flat), p.root, Pages(r + n), Pages(r)))
      ensures var p := old(table)[pid];
              Kept(old(vm.mem), old(vm.flat), old(vm.role), vm.mem, vm.flat, vm.role, p.root, Least(p.sz, n),
                   Most(p.sz, n))
    {
      hide Good, AllOk, Kept, ProcOk, Cleared, ZeroPages;
      var p := table[pid];
      KeptSame(vm.free, vm.mem, vm.T, vm.flat, vm.role, p.root, Least(p.sz, n), Most(p.sz, n));
      r := p.sz;
      if n < 0 {
        Shrink(pid, n);
      } else if eager {
        if n > 0 {
          var ok := Grow(pid, n);
          if !ok {
            return -1;
          }
        } else {
          assert table[pid := p.(sz := p.sz)] == table;
        }
      } else {
        if p.sz + n > TRAPFRAME * PGSIZE {
          NotAtLimit(vm.T, vm.flat, vm.role, table, pid);
          return -1;
        }
        LazilyGrown(vm.free, vm.mem, vm.T, vm.flat, vm.role, table, pid, p.sz + n);
        table := table[pid := p.(sz := p.sz + n)];
      }
    }

    /** A page fault of the process at address va. */
    method Fault(pid: nat, va: nat) returns (r: Option<nat>)
      requires Valid() && pid in table
      modifies vm
      ensures Valid()
      ensures r.None? ==>
                && vm.flat == old(vm.flat)
                && (va >= table[pid].sz || Loc(table[pid].root, va / PGSIZE) in old(vm.flat) || |old(vm.free)| < 3)
      ensures r.Some? ==>
                va < table[pid].sz && ZeroPage(vm.mem, vm.flat, table[pid].root, va / PGSIZE, PTE_W + PTE_U + PTE_R)
      ensures Kept(old(vm.mem), old(vm.flat), old(vm.role), vm.mem, vm.flat, vm.role, table[pid].root,
                   va / PGSIZE, va / PGSIZE + 1)
    {
      hide Good, AllOk, Kept, ProcOk, Grown;
      var p := table[pid];
      ghost var free0, mem0, T0, flat0, role0, v := vm.free, vm.mem, vm.T, vm.flat, vm.role, va / PGSIZE;
      ItsOwn(vm.T, vm.flat, vm.role, table, pid);
      RoomAbove(vm.T, vm.flat, vm.role, p, 0);
      r := vm.Vmfault(p.root, p.sz, va);
      FaultBelow(mem0, T0, flat0, role0, vm.mem, vm.flat, vm.role, p, v, r.Some?);
      if r.Some? {
        AllAfterResize(free0, mem0, T0, flat0, role0, vm.free, vm.mem, vm.T, vm.flat, vm.role, table, pid, p.sz, v,
                       v + 1);
      } else {
        AllAfterResize(free0, mem0, T0, flat0, role0, vm.free, vm.mem, vm.T, vm.flat, vm.role, table, pid, p.sz, 0, 0);
      }
      assert table[pid := p.(sz := p.sz)] == table;
    }

    /** proc_pagetable: an address space with the trampoline and the given trapframe at the top. */
    method ProcPagetable(tf: nat) returns (r: Option<nat>)
      requires vm.Valid() && tf in vm.role && vm.role[tf].Held?
      modifies vm
      ensures vm.Valid()
      ensures |vm.free| >= |old(vm.free)| - 5 || r.None?
      ensures r.None? ==> vm.T == old(vm.T) && vm.flat == old(vm.flat) && |old(vm.free)| < 5
                          && Kept(old(vm.mem), old(vm.flat), old(vm.role), vm.mem, vm.flat, vm.role, tf, 0, 0)
      ensures r.Some? ==>
                && NewSpace(old(vm.T), old(vm.flat), vm.T, r.value) && vm.flat == WithTop(old(vm.flat), r.value, tf)
                && Kept(old(vm.mem), old(vm.flat), old(vm.role), vm.mem, vm.flat, vm.role, r.value, 0, MAXVPN)
    {
      hide Good, Kept, Calm, CalmBut, Grown, NewSpace;
      ghost var free0, mem0, T0, flat0, role0 := vm.free, vm.mem, vm.T, vm.flat, vm.role;
      r := vm.Uvmcreate();
      CalmToKept(free0, mem0, T0, flat0, role0, vm.mem, vm.flat, vm.role, tf, 0, 0);
      if r.None? {
        return;
      }
      var root := r.value;
      Started(free0, mem0, T0, flat0, role0, vm.mem, vm.T, vm.role, root);
      var ok := MapTop(root, TRAMPOLINE, TRAMPOLINE_PPN, PTE_R + PTE_X, T0, mem0, flat0, role0);
      if !ok {
        Abandon(root, tf, T0, mem0, flat0, role0);
        return None;
      }
      HasRoot(T0, flat0, vm.T, root);
      ok := MapTop(root, TRAPFRAME, tf, PTE_R + PTE_W, T0, mem0, flat0, role0);
      if !ok {
        ghost var mem1, flat1, role1 := vm.mem, vm.flat, vm.role;
        HasRoot(T0, flat0, vm.T, root);
        vm.Uvmunmap(root, TRAMPOLINE, 1, false);
        KeptTrans(mem0, flat0, role0, mem1, flat1, role1, vm.mem, vm.flat, vm.role, root, 0, MAXVPN,
                  TRAMPOLINE, TRAMPOLINE + 1);
        TopCleared(flat0, root, Pte(TRAMPOLINE_PPN, WithV(PTE_R + PTE_X)));
        Abandon(root, tf, T0, mem0, flat0, role0);
        return None;
      }
    }

    /** uvmfree of a space under construction without pages: everything is as it was before uvmcreate. */
    method Abandon(root: nat, ghost x: nat, ghost T0: Tables, ghost mem0: Memory, ghost flat0: Flat, ghost role0: Roles)
      requires vm.Valid() && NewSpace(T0, flat0, vm.T, root) && vm.flat == flat0
      requires Kept(mem0, flat0, role0, vm.mem, vm.flat, vm.role, root, 0, MAXVPN)
      modifies vm
      ensures vm.Valid() && vm.T == T0 && vm.flat == flat0
      ensures Kept(mem0, flat0, role0, vm.mem, vm.flat, vm.role, x, 0, 0)
    {
      hide Good, Kept, NewSpace, Cleared, OtherTables;
      ghost var mem1, T1, role1 := vm.mem, vm.T, vm.role;
      HasRoot(T0, flat0, vm.T, root);
      ClearedNone(vm.flat, root, 0);
      var _ := vm.Uvmfree(root, 0);
      Discarded(mem0, T0, flat0, role0, mem1, T1, role1, vm.mem, vm.role, root, x);
    }

    /** mappages of one of the two top pages of a space under construction. */
    method MapTop(root: nat, vpn: nat, ppn: nat, perm: nat, ghost T0: Tables, ghost mem0: Memory, ghost flat0: Flat,
                  ghost role0: Roles) returns (ok: bool)
      requires vm.Valid() && NewSpace(T0, flat0, vm.T, root) && TRAPFRAME <= vpn < MAXVPN && Loc(root, vpn) !in vm.flat
      requires perm < 1024 && IsLeaf(WithV(perm))
      requires Kept(mem0, flat0, role0, vm.mem, vm.flat, vm.role, root, 0, MAXVPN)
      modifies vm
      ensures vm.Valid() && NewSpace(T0, flat0, vm.T, root)
      ensures Kept(mem0, flat0, role0, vm.mem, vm.flat, vm.role, root, 0, MAXVPN)
      ensures vm.flat == if ok then old(vm.flat)[Loc(root, vpn) := Pte(ppn, WithV(perm))] else old(vm.flat)
      ensures |vm.free| >= |old(vm.free)| - 2 && (!ok ==> |old(vm.free)| < 2)
    {
      hide Good, Kept, Calm, CalmBut, Grown;
      ghost var free1, mem1, T1, flat1, role1 := vm.free, vm.mem, vm.T, vm.flat, vm.role;
      var res := vm.MapOne(root, vpn, ppn, perm);
      GrownTrans(T0, T1, vm.T, root);
      GrownHas(T1, vm.T, root, Key(root, 2, 0));
      CalmToKept(free1, mem1, T1, flat1, role1, vm.mem, vm.flat, vm.role, root, 0, MAXVPN);
      KeptTrans(mem0, flat0, role0, mem1, flat1, role1, vm.mem, vm.flat, vm.role, root, 0, MAXVPN, 0, MAXVPN);
      ok := res.Mapped?;
    }

    /** The memory part of allocproc. */
    method AllocProc(pid: nat) returns (ok: bool)
      requires Valid() && pid !in table
      modifies this, vm
      ensures Valid()
      ensures !ok ==> table == old(table) && vm.flat == old(vm.flat) && SamePages(old(vm.mem), vm.mem, vm.flat)
      ensures if ok then |vm.free| >= |old(vm.free)| - 6 else |old(vm.free)| < 6
      ensures FramesKept(old(table), old(vm.mem), vm.mem)
      ensures ok ==>
                && pid in table && table == old(table)[pid := table[pid]] && table[pid].sz == 0
                && NewSpace(old(vm.T), old(vm.flat), vm.T, table[pid].root)
                && vm.flat == WithTop(old(vm.flat), table[pid].root, table[pid].trapframe)
                && KeptPages(old(vm.mem), old(vm.flat), vm.mem, vm.flat, table[pid].root)
    {
      hide Good, AllOk, Kept, KeptPages, NewSpace, SamePages, FramesKept;
      ghost var free0, mem0, T0, flat0, role0 := vm.free, vm.mem, vm.T, vm.flat, vm.role;
      var tf := vm.Kalloc();
      if tf.None? {
        NoPagesTouched(free0, mem0, T0, flat0, role0);
        NoFramesTouched(free0, mem0, T0, flat0, role0, table);
        return false;
      }
      ghost var mem1, role1 := vm.mem, vm.role;
      var root := ProcPagetable(tf.value);
      if root.None? {
        ghost var mem2, role2 := vm.mem, vm.role;
        StillHeld(mem1, flat0, role1, mem2, flat0, role2, tf.value, 0, 0, tf.value);
        vm.Kfree(tf.value);
        AllAfterGiveBack(T0, flat0, role0, mem1, role1, mem2, role2, table, tf.value);
        PagesAfterGiveBack(free0, mem0, T0, flat0, role0, tf.value, Filled(JUNK_ALLOC), role1, mem2, role2,
                           Filled(JUNK_FREE));
        FramesAfter(free0, mem0, T0, flat0, role0, table, tf.value, Filled(JUNK_ALLOC), role1, mem2, flat0, role2,
                    tf.value, 0, 0, Filled(JUNK_FREE));
        return false;
      }
      FramesAfter(free0, mem0, T0, flat0, role0, table, tf.value, Filled(JUNK_ALLOC), role1, vm.mem, vm.flat, vm.role,
                  root.value, 0, MAXVPN, Filled(JUNK_FREE));
      AllAfterNew(T0, flat0, role0, mem1, role1, vm.mem, vm.T, vm.flat, vm.role, table, pid, root.value, tf.value);
      PagesAfter(free0, mem0, T0, flat0, role0, tf.value, Filled(JUNK_ALLOC), role1, vm.mem, vm.flat, vm.role,
                 root.value);
      table := table[pid := Proc(root.value, 0, tf.value)];
      ok := true;
    }

    /** freeproc: give back the trapframe, the user pages and the tables. */
    method FreeProc(pid: nat) returns (panics: bool)
      requires Valid() && pid in table
      modifies this, vm
      ensures !panics
      ensures Valid() && table == old(table) - {pid}
      ensures vm.flat == OtherFlat(old(vm.flat), old(table)[pid].root)
      ensures KeptPages(old(vm.mem), old(vm.flat), vm.mem, vm.flat, old(table)[pid].root)
      ensures FramesKept(table, old(vm.mem), vm.mem)
    {
      hide Good, AllOk, Kept, KeptPages, ProcOk, FramesKept;
      var p := table[pid];
      var root := p.root;
      ghost var free0, mem0, T0, flat0, role0 := vm.free, vm.mem, vm.T, vm.flat, vm.role;
      ItsOwn(T0, flat0, role0, table, pid);
      ItsTop(T0, flat0, role0, p);
      vm.Kfree(p.trapframe);
      ghost var mem1, role1 := vm.mem, vm.role;
      KeptSame(vm.free, mem1, T0, flat0, role1, root, 0, MAXVPN);
      vm.Uvmunmap(root, TRAMPOLINE, 1, false);
      ghost var mem2, flat2, role2 := vm.mem, vm.flat, vm.role;
      KeptTrans(mem1, flat0, role1, mem1, flat0, role1, mem2, flat2, role2, root, 0, MAXVPN, TRAMPOLINE,
                TRAMPOLINE + 1);
      vm.Uvmunmap(root, TRAPFRAME, 1, false);
      ghost var mem3, flat3, role3 := vm.mem, vm.flat, vm.role;
      KeptTrans(mem1, flat0, role1, mem2, flat2, role2, mem3, flat3, role3, root, 0, MAXVPN, TRAPFRAME, TRAPFRAME + 1);
      OnlyUser(T0, flat0, role0, p, flat2, flat3);
      panics := vm.Uvmfree(root, p.sz);
      KeptTrans(mem1, flat0, role1, mem3, flat3, role3, vm.mem, vm.flat, vm.role, root, 0, MAXVPN, 0, Pages(p.sz));
      AllCleared(T0, flat0, role0, p, flat2, flat3, vm.flat);
      AllAfterExit(T0, flat0, role0, mem1, role1, vm.mem, vm.T, vm.flat, vm.role, table, pid);
      PagesAfter(free0, mem0, T0, flat0, role0, p.trapframe, Filled(JUNK_FREE), role1, vm.mem, vm.flat, vm.role, root);
      FramesLeft(free0, mem0, T0, flat0, role0, table, pid, Filled(JUNK_FREE), vm.mem, vm.flat, vm.role, root);
      table := table - {pid};
    }

    /** The memory part of kfork: the child gets the parent's pages in frames of its own, or nothing happens. */
    method Fork(parent: nat, child: nat) returns (ok: bool)
      requires Valid() && parent in table && child !in table
      modifies this, vm
      ensures Valid()
      ensures !ok ==> table == old(table) && vm.flat == old(vm.flat) && SamePages(old(vm.mem), vm.mem, vm.flat)
      ensures !ok ==> |old(vm.free)| < 6 + 3 * Pages(table[parent].sz)
      ensures FramesKept(old(table), old(vm.mem), vm.mem)
      ensures ok ==>
                && child in table && table == old(table)[child := table[child]] && table[child].sz == table[parent].sz
                && CopiedPages(old(vm.mem), old(vm.flat), table[parent].root, vm.mem, vm.flat, table[child].root,
                               Pages(table[parent].sz))
                && FreshAll(old(vm.flat), vm.flat, table[child].root)
                && KeptPages(old(vm.mem), old(vm.flat), vm.mem, vm.flat, table[child].root)
                && ForkedRegisters(old(vm.mem), table[parent].trapframe, vm.mem, table[child].trapframe)
    {
      hide Good, AllOk, Kept, KeptPages, ProcOk, NewSpace, Grown, FreshAll, CopiedPages, SamePages, FramesKept;
      ghost var mem0, T0, flat0 := vm.mem, vm.T, vm.flat;
      ok := AllocProc(child);
      if !ok {
        return;
      }
      var p, c := table[parent], table[child];
      ghost var free1, mem1, T1, flat1, role1, table0, table1 :=
        vm.free, vm.mem, vm.T, vm.flat, vm.role, old(table), table;
      ItsOwn(T1, flat1, role1, table, child);
      ItsOwn(T1, flat1, role1, table, parent);
      RoomAbove(T1, flat1, role1, c, Pages(p.sz));
      RoomAbove(T1, flat1, role1, p, 0);
      DifferentRoots(T1, flat1, role1, table, parent, child);
      ok := vm.Uvmcopy(p.root, c.root, p.sz);
      FramesSame(mem1, T1, flat1, role1, table, vm.mem, vm.flat, vm.role, c.root, 0, Pages(p.sz));
      FramesTrans(table0, table1, mem0, mem1, vm.mem);
      StillBelow(mem1, T1, flat1, role1, vm.mem, vm.flat, vm.role, c, 0, Pages(p.sz));
      if !ok {
        BelowSize(T1, flat1, role1, c);
        AllAfterResize(free1, mem1, T1, flat1, role1, vm.free, vm.mem, vm.T, vm.flat, vm.role, table, child, c.sz, 0,
                       Pages(p.sz));
        assert table[child := c.(sz := c.sz)] == table;
        ghost var mem2, flat2, role2 := vm.mem, vm.flat, vm.role;
        var _ := FreeProc(child);
        PagesAfterUndo(T0, T1, mem0, flat0, mem1, flat1, role1, mem2, flat2, role2, vm.mem, vm.flat, c.root,
                       Pages(p.sz));
        TopGone(T0, flat0, T1, c.root, c.trapframe);
        assert table == old(table);
        FramesTrans(table0, table, mem0, mem2, vm.mem);
        return;
      }
      AllAfterResize(free1, mem1, T1, flat1, role1, vm.free, vm.mem, vm.T, vm.flat, vm.role, table, child, p.sz, 0,
                     Pages(p.sz));
      HasRoot(T0, flat0, T1, c.root);
      FreshFrames(vm.free, mem1, flat1, role1, vm.mem, vm.T, vm.flat, vm.role, c.root, Pages(p.sz));
      ForkDone(mem0, flat0, mem1, flat1, role1, vm.mem, vm.flat, vm.role, p.root, c.root, Pages(p.sz));
      table := table[child := c.(sz := p.sz)];
      CopyRegisters(parent, child, table0, mem0, flat0, Pages(p.sz));
    }

    /** kfork: the saved registers go over, and the child will see 0 as the result. */
    method CopyRegisters(parent: nat, child: nat, ghost table0: map<nat, Proc>, ghost mem0: Memory, ghost flat0: Flat,
                         ghost n: nat)
      requires Valid() && parent in table0 && child !in table0 && child in table
      requires table == table0[child := table[child]]
      requires FramesKept(table0, mem0, vm.mem) && n <= TRAPFRAME
      requires CopiedPages(mem0, flat0, table[parent].root, vm.mem, vm.flat, table[child].root, n)
      requires KeptPages(mem0, flat0, vm.mem, vm.flat, table[child].root)
      modifies vm
      ensures Valid() && vm.flat == old(vm.flat) && FramesKept(table0, mem0, vm.mem)
      ensures CopiedPages(mem0, flat0, table[parent].root, vm.mem, vm.flat, table[child].root, n)
      ensures KeptPages(mem0, flat0, vm.mem, vm.flat, table[child].root)
      ensures ForkedRegisters(mem0, table[parent].trapframe, vm.mem, table[child].trapframe)
    {
      hide Good, AllOk, KeptPages, CopiedPages, FramesKept;
      var p, c := table[parent], table[child];
      ghost var mem2 := vm.mem;
      FrameFacts(vm.free, vm.mem, vm.T, vm.flat, vm.role, table, parent, child);
      FrameOf(table0, mem0, mem2, parent);
      vm.Fill(c.trapframe, Registers(vm.mem[p.trapframe], vm.mem[c.trapframe]));
      FrameFilled(vm.free, mem0, flat0, mem2, vm.T, vm.flat, vm.role, p.root, c.root, n, c.trapframe,
                  vm.mem[c.trapframe]);
      forall a | a in table0 ensures table0[a].trapframe != c.trapframe {
        assert table[a] == table0[a];
      }
      FramesBeside(table0, mem0, mem2, c.trapframe, vm.mem[c.trapframe]);
    }
  }

  const TF_WORDS: nat := 36 // words of a trapframe; the rest of its page is not used
  const A0: nat := 14       // where the return value of a system call is

  /** The saved registers, with 0 as the return value; what is behind them in the page stays. */
  function Registers(from: Page, to: Page): Page { from[..TF_WORDS][A0 := 0] + to[TF_WORDS..] }

  /** The child returns from fork with 0, and to the same place with the same registers as its parent otherwise. */
  predicate ForkedRegisters(mem0: Memory, parent: nat, mem: Memory, child: nat) {
    && parent in mem0 && child in mem
    && forall i: nat :: i < TF_WORDS ==> mem[child][i] == if i == A0 then 0 else mem0[parent][i]
  }

  /** The trapframes of the processes of `table` hold what they held. */
  ghost predicate FramesKept(table: map<nat, Proc>, mem: Memory, mem': Memory) {
    forall a :: a in table ==>
      var t := table[a].trapframe; t in mem && t in mem' && mem'[t] == mem[t]
  }

  lemma NoFramesTouched(free: seq<nat>, mem: Memory, T: Tables, flat: Flat, role: Roles, table: map<nat, Proc>)
    requires Good(free, mem, T, flat, role) && AllOk(T, flat, role, table)
    ensures FramesKept(table, mem, mem)
  {
  }

  lemma FramesSame(mem: Memory, T: Tables, flat: Flat, role: Roles, table: map<nat, Proc>, mem': Memory, flat': Flat,
                   role': Roles, root: nat, lo: nat, hi: nat)
    requires AllOk(T, flat, role, table) && Kept(mem, flat, role, mem', flat', role', root, lo, hi)
    ensures FramesKept(table, mem, mem')
  {
  }

  /** A free page was taken in between, and perhaps given back. */
  lemma FramesAfter(free: seq<nat>, mem: Memory, T: Tables, flat: Flat, role: Roles, table: map<nat, Proc>, p: nat,
                    x: Page, role1: Roles, mem2: Memory, flat2: Flat, role2: Roles, root: nat, lo: nat, hi: nat,
                    y: Page)
    requires Good(free, mem, T, flat, role) && AllOk(T, flat, role, table) && p in role && role[p].Free?
    requires role1 == role[p := Held] && Kept(mem[p := x], flat, role1, mem2, flat2, role2, root, lo, hi)
    ensures FramesKept(table, mem, mem2) && FramesKept(table, mem, mem2[p := y])
  {
    hide AllOk, Good, Kept;
    forall a | a in table
      ensures var t := table[a].trapframe; t in mem && t in mem2 && mem2[t] == mem[t] && t != p
    {
      HeldFrame(free, mem, T, flat, role, table, a);
      HeldStays(mem[p := x], flat, role1, mem2, flat2, role2, root, lo, hi, table[a].trapframe);
    }
  }

  lemma HeldFrame(free: seq<nat>, mem: Memory, T: Tables, flat: Flat, role: Roles, table: map<nat, Proc>, a: nat)
    requires Good(free, mem, T, flat, role) && AllOk(T, flat, role, table) && a in table
    ensures table[a].trapframe in mem && table[a].trapframe in role && role[table[a].trapframe].Held?
  {
  }

  lemma HeldStays(mem: Memory, flat: Flat, role: Roles, mem': Memory, flat': Flat, role': Roles, root: nat, lo: nat,
                  hi: nat, p: nat)
    requires Kept(mem, flat, role, mem', flat', role', root, lo, hi) && p in role && role[p].Held?
    ensures p in mem && p in mem' && mem'[p] == mem[p]
  {
  }

  /** The trapframe of one process was given back before. */
  lemma FramesLeft(free: seq<nat>, mem: Memory, T: Tables, flat: Flat, role: Roles, table: map<nat, Proc>, a: nat,
                   x: Page, mem2: Memory, flat2: Flat, role2: Roles, root: nat)
    requires Good(free, mem, T, flat, role) && AllOk(T, flat, role, table) && a in table
    requires var p := table[a].trapframe;
             Kept(mem[p := x], flat, role[p := Role.Free], mem2, flat2, role2, root, 0, MAXVPN)
    ensures FramesKept(table - {a}, mem, mem2)
  {
  }

  lemma FramesTrans(table: map<nat, Proc>, table1: map<nat, Proc>, m0: Memory, m1: Memory, m2: Memory)
    requires FramesKept(table, m0, m1) && FramesKept(table1, m1, m2)
    requires forall a :: a in table ==> a in table1 && table1[a] == table[a]
    ensures FramesKept(table, m0, m2)
  {
  }

  lemma FrameFacts(free: seq<nat>, mem: Memory, T: Tables, flat: Flat, role: Roles, table: map<nat, Proc>, parent: nat,
                   child: nat)
    requires Good(free, mem, T, flat, role) && AllOk(T, flat, role, table)
    requires parent in table && child in table && parent != child
    ensures table[parent].trapframe in mem && table[child].trapframe in mem && table[child].trapframe in role
    ensures role[table[child].trapframe].Held?
    ensures forall a :: a in table && a != child ==> table[a].trapframe != table[child].trapframe
  {
  }

  /** The child's trapframe is no page that anybody has mapped. */
  lemma FrameFilled(free: seq<nat>, mem0: Memory, flat0: Flat, mem: Memory, T: Tables, flat: Flat, role: Roles,
                    parent: nat, child: nat, n: nat, t: nat, x: Page)
    requires Good(free, mem[t := x], T, flat, role) && t in role && role[t].Held? && n <= TRAPFRAME
    requires CopiedPages(mem0, flat0, parent, mem, flat, child, n) && KeptPages(mem0, flat0, mem, flat, child)
    ensures CopiedPages(mem0, flat0, parent, mem[t := x], flat, child, n)
    ensures KeptPages(mem0, flat0, mem[t := x], flat, child)
  {
    forall l | l in flat && l.vpn < TRAPFRAME ensures Ppn(flat[l]) != t {
      assert LeafOk(T, flat, role, l);
    }
    var mem' := mem[t := x];
    forall v: nat | v < n ensures CopiedPage(mem0, flat0, parent, mem', flat, child, v) {
      assert CopiedPage(mem0, flat0, parent, mem, flat, child, v);
    }
  }

  lemma FramesBeside(table: map<nat, Proc>, m0: Memory, m1: Memory, t: nat, x: Page)
    requires FramesKept(table, m0, m1) && forall a :: a in table ==> table[a].trapframe != t
    ensures FramesKept(table, m0, m1[t := x])
  {
  }

  lemma FrameOf(table: map<nat, Proc>, m0: Memory, m1: Memory, a: nat)
    requires FramesKept(table, m0, m1) && a in table
    ensures var t := table[a].trapframe; t in m0 && t in m1 && m1[t] == m0[t]
  {
  }

  /** `root` is a new address space, and nothing else about the tables has changed. */
  ghost predicate NewSpace(T0: Tables, flat0: Flat, T: Tables, root: nat) {
    && Key(root, 2, 0) in T && Grown(T0, T, root)
    && (forall k :: k in T0 ==> k.root != root) && (forall l :: l in flat0 ==> l.root != root)
  }

  function WithTop(flat: Flat, root: nat, tf: nat): Flat {
    flat[Loc(root, TRAMPOLINE) := Pte(TRAMPOLINE_PPN, WithV(PTE_R + PTE_X))]
        [Loc(root, TRAPFRAME) := Pte(tf, WithV(PTE_R + PTE_W))]
  }

  lemma Started(free: seq<nat>, mem: Memory, T: Tables, flat: Flat, role: Roles, mem': Memory, T': Tables, role': Roles,
                root: nat)
    requires Good(free, mem, T, flat, role) && Calm(mem, role, mem', role')
    requires Key(root, 2, 0) !in T && T' == T[Key(root, 2, 0) := root] && forall l :: l in flat ==> l.root != root
    ensures NewSpace(T, flat, T', root) && Kept(mem, flat, role, mem', flat, role', root, 0, MAXVPN)
  {
    CalmToKept(free, mem, T, flat, role, mem', flat, role', root, 0, MAXVPN);
    forall k | k in T ensures k.root != root {
      RootExists(mem, T, flat, role, k);
    }
  }

  /** Every page mapped outside `root` is still mapped, to the same contents. */
  ghost predicate KeptPages(mem: Memory, flat: Flat, mem': Memory, flat': Flat, root: nat) {
    && SameOutside(flat, flat', root, 0, MAXVPN)
    && (forall l {:trigger l in flat} :: l in flat && l.root != root && l.vpn < TRAPFRAME ==>
          Ppn(flat[l]) in mem && Ppn(flat[l]) in mem' && mem'[Ppn(flat[l])] == mem[Ppn(flat[l])])
  }

  ghost predicate SamePages(mem: Memory, mem': Memory, flat: Flat) {
    forall l {:trigger l in flat} :: l in flat && l.vpn < TRAPFRAME ==>
      Ppn(flat[l]) in mem && Ppn(flat[l]) in mem' && mem'[Ppn(flat[l])] == mem[Ppn(flat[l])]
  }

  lemma NoPagesTouched(free: seq<nat>, mem: Memory, T: Tables, flat: Flat, role: Roles)
    requires Good(free, mem, T, flat, role)
    ensures SamePages(mem, mem, flat)
  {
    forall l | l in flat && l.vpn < TRAPFRAME ensures Ppn(flat[l]) in mem {
      assert LeafOk(T, flat, role, l);
    }
  }

  lemma PagesAfterGiveBack(free: seq<nat>, mem: Memory, T: Tables, flat: Flat, role: Roles, p: nat, x: Page,
                           role1: Roles,
                           mem2: Memory, role2: Roles, y: Page)
    requires Good(free, mem, T, flat, role) && p in role && !role[p].Frame?
    requires Kept(mem[p := x], flat, role1, mem2, flat, role2, p, 0, 0)
    ensures SamePages(mem, mem2[p := y], flat)
  {
    forall l | l in flat && l.vpn < TRAPFRAME
      ensures Ppn(flat[l]) in mem && Ppn(flat[l]) in mem2 && mem2[p := y][Ppn(flat[l])] == mem[Ppn(flat[l])]
    {
      assert LeafOk(T, flat, role, l);
    }
  }

  lemma PagesAfterUndo(T0: Tables, T1: Tables, mem0: Memory, flat0: Flat, mem1: Memory, flat1: Flat, role1: Roles,
                       mem2: Memory, flat2: Flat, role2: Roles, mem3: Memory, flat3: Flat, root: nat, n: nat)
    requires NewSpace(T0, flat0, T1, root) && KeptPages(mem0, flat0, mem1, flat1, root)
    requires Kept(mem1, flat1, role1, mem2, flat2, role2, root, 0, n) && KeptPages(mem2, flat2, mem3, flat3, root)
    ensures SamePages(mem0, mem3, flat0)
  {
  }

  function OtherFlat(flat: Flat, root: nat): Flat { map l | l in flat && l.root != root :: flat[l] }

  /** The frames of `root` were not the frames of any page mapped before. */
  ghost predicate FreshAll(flat: Flat, flat': Flat, root: nat) {
    forall v: nat, l :: v < TRAPFRAME && Loc(root, v) in flat' && l in flat && l.vpn < TRAPFRAME ==>
                          Ppn(flat'[Loc(root, v)]) != Ppn(flat[l])
  }

  lemma StillHeld(mem: Memory, flat: Flat, role: Roles, mem': Memory, flat': Flat, role': Roles, root: nat, lo: nat,
                  hi: nat, p: nat)
    requires Kept(mem, flat, role, mem', flat', role', root, lo, hi) && p in role && role[p].Held?
    ensures p in role' && role'[p].Held?
  {
  }

  /** Rewriting a page that is no frame, then working inside `root`, keeps the pages of everybody else. */
  lemma PagesAfter(free: seq<nat>, mem: Memory, T: Tables, flat: Flat, role: Roles, p: nat, x: Page, role1: Roles,
                   mem2: Memory, flat2: Flat, role2: Roles, root: nat)
    requires Good(free, mem, T, flat, role) && p in role && !role[p].Frame?
    requires Kept(mem[p := x], flat, role1, mem2, flat2, role2, root, 0, MAXVPN)
    ensures KeptPages(mem, flat, mem2, flat2, root)
  {
    forall l | l in flat && l.root != root && l.vpn < TRAPFRAME
      ensures Ppn(flat[l]) in mem && Ppn(flat[l]) in mem2 && mem2[Ppn(flat[l])] == mem[Ppn(flat[l])]
    {
      assert LeafOk(T, flat, role, l);
    }
  }

  lemma AllAfterGiveBack(T: Tables, flat: Flat, role: Roles, mem1: Memory, role1: Roles, mem2: Memory, role2: Roles,
                         table: map<nat, Proc>, tf: nat)
    requires AllOk(T, flat, role, table) && tf in role && role[tf].Free? && role1 == role[tf := Held]
    requires Kept(mem1, flat, role1, mem2, flat, role2, tf, 0, 0)
    ensures AllOk(T, flat, role2[tf := Role.Free], table)
  {
    forall a | a in table ensures ProcOk(T, flat, role2[tf := Role.Free], table[a]) {
      assert ProcOk(T, flat, role, table[a]);
    }
  }

  lemma AllAfterNew(T: Tables, flat: Flat, role: Roles, mem1: Memory, role1: Roles,
                    mem2: Memory, T2: Tables, flat2: Flat, role2: Roles, table: map<nat, Proc>, pid: nat, root: nat,
                      tf: nat)
    requires AllOk(T, flat, role, table) && pid !in table && tf in role && role[tf].Free? && role1 == role[tf := Held]
    requires Kept(mem1, flat, role1, mem2, flat2, role2, root, 0, MAXVPN)
    requires NewSpace(T, flat, T2, root) && flat2 == WithTop(flat, root, tf)
    ensures AllOk(T2, flat2, role2, table[pid := Proc(root, 0, tf)])
  {
    hide NoLeak, Kept, ProcOk, WithTop, Grown, EachOk;
    var p := Proc(root, 0, tf);
    FirstOk(T, flat, role1, T2, flat2, role2, mem1, mem2, root, tf);
    FreshlyHeld(T, flat, role, role1, table, root, tf);
    EachNew(mem1, T, flat, role1, mem2, T2, flat2, role2, table, pid, p);
    NoLeakNew(T, role, role1, T2, role2, flat, flat2, mem1, mem2, table, pid, p);
  }

  lemma FirstOk(T: Tables, flat: Flat, role1: Roles, T2: Tables, flat2: Flat, role2: Roles, mem1: Memory, mem2: Memory,
                root: nat, tf: nat)
    requires Kept(mem1, flat, role1, mem2, flat2, role2, root, 0, MAXVPN) && tf in role1 && role1[tf].Held?
    requires NewSpace(T, flat, T2, root) && flat2 == WithTop(flat, root, tf)
    ensures ProcOk(T2, flat2, role2, Proc(root, 0, tf)) && forall k :: k in T && k.root != root ==> k in T2
  {
    PteRoundTrip(tf, WithV(PTE_R + PTE_W));
  }

  /** Taking a free page as a trapframe disturbs no process, and gives a root and a page nobody has. */
  lemma FreshlyHeld(T: Tables, flat: Flat, role: Roles, role1: Roles, table: map<nat, Proc>, root: nat, tf: nat)
    requires EachOk(T, flat, role, table) && tf in role && role[tf].Free? && role1 == role[tf := Held]
    requires forall k :: k in T ==> k.root != root
    ensures EachOk(T, flat, role1, table)
    ensures forall a :: a in table ==> table[a].root != root && table[a].trapframe != tf
  {
    forall a | a in table
      ensures ProcOk(T, flat, role1, table[a]) && table[a].root != root && table[a].trapframe != tf
    {
      assert ProcOk(T, flat, role, table[a]);
    }
  }

  lemma EachNew(mem: Memory, T: Tables, flat: Flat, role: Roles, mem': Memory, T': Tables, flat': Flat, role': Roles,
                table: map<nat, Proc>, pid: nat, p: Proc)
    requires EachOk(T, flat, role, table) && forall a :: a in table ==> table[a].root != p.root
    requires Kept(mem, flat, role, mem', flat', role', p.root, 0, MAXVPN)
    requires forall k :: k in T && k.root != p.root ==> k in T'
    requires ProcOk(T', flat', role', p)
    ensures EachOk(T', flat', role', table[pid := p])
  {
    hide Kept, ProcOk;
    var table' := table[pid := p];
    forall b | b in table' ensures ProcOk(T', flat', role', table'[b]) {
      if b != pid { OtherProc(mem, T, flat, role, mem', T', flat', role', p.root, 0, MAXVPN, table[b]); }
    }
  }

  lemma NoLeakNew(T: Tables, role: Roles, role1: Roles, T2: Tables, role2: Roles, flat: Flat, flat2: Flat,
                  mem1: Memory, mem2: Memory, table: map<nat, Proc>, pid: nat, p: Proc)
    requires NoLeak(T, role, table) && pid !in table && role1 == role[p.trapframe := Held] && Grown(T, T2, p.root)
    requires Kept(mem1, flat, role1, mem2, flat2, role2, p.root, 0, MAXVPN)
    ensures NoLeak(T2, role2, table[pid := p])
  {
    var table' := table[pid := p];
    assert pid in table' && table'[pid] == p;
    forall k | k in T2 ensures exists b :: b in table' && table'[b].root == k.root {
      if k.root != p.root {
        var b :| b in table && table[b].root == k.root;
        assert b in table' && table'[b].root == k.root;
      }
    }
    forall q | q in role2 && role2[q].Held? ensures exists b :: b in table' && table'[b].trapframe == q {
      if q != p.trapframe {
        var b :| b in table && table[b].trapframe == q;
        assert b in table' && table'[b].trapframe == q;
      }
    }
  }

  lemma ItsTop(T: Tables, flat: Flat, role: Roles, p: Proc)
    requires ProcOk(T, flat, role, p)
    ensures Key(p.root, 2, 0) in T && p.trapframe in role && role[p.trapframe].Held? && Pages(p.sz) <= TRAPFRAME
  {
  }

  lemma OnlyUser(T: Tables, flat: Flat, role: Roles, p: Proc, flat2: Flat, flat3: Flat)
    requires ProcOk(T, flat, role, p) && flat2 == Cleared(flat, p.root, TRAMPOLINE, TRAMPOLINE + 1)
    requires flat3 == Cleared(flat2, p.root, TRAPFRAME, TRAPFRAME + 1)
    ensures forall l :: l in flat3 && l.root == p.root ==> l.vpn < Pages(p.sz)
  {
  }

  lemma AllCleared(T: Tables, flat: Flat, role: Roles, p: Proc, flat2: Flat, flat3: Flat, flat4: Flat)
    requires ProcOk(T, flat, role, p) && flat2 == Cleared(flat, p.root, TRAMPOLINE, TRAMPOLINE + 1)
    requires flat3 == Cleared(flat2, p.root, TRAPFRAME, TRAPFRAME + 1)
    requires flat4 == Cleared(flat3, p.root, 0, Pages(p.sz))
    ensures flat4 == OtherFlat(flat, p.root)
  {
  }

  lemma AllAfterExit(T: Tables, flat: Flat, role: Roles, mem1: Memory, role1: Roles,
                     mem2: Memory, T2: Tables, flat2: Flat, role2: Roles, table: map<nat, Proc>, pid: nat)
    requires AllOk(T, flat, role, table) && pid in table && role1 == role[table[pid].trapframe := Role.Free]
    requires Kept(mem1, flat, role1, mem2, flat2, role2, table[pid].root, 0, MAXVPN)
    requires T2 == OtherTables(T, table[pid].root)
    ensures AllOk(T2, flat2, role2, table - {pid})
  {
    hide NoLeak, Kept, ProcOk, EachOk, OtherTables;
    NoLongerHeld(T, flat, role, role1, table, pid);
    EachLeft(mem1, T, flat, role1, mem2, T2, flat2, role2, table, pid);
    NoLeakExit(T, role, role1, T2, role2, flat, flat2, mem1, mem2, table, pid);
  }

  lemma NoLongerHeld(T: Tables, flat: Flat, role: Roles, role1: Roles, table: map<nat, Proc>, pid: nat)
    requires EachOk(T, flat, role, table) && Distinct(table)
    requires pid in table && role1 == role[table[pid].trapframe := Role.Free]
    ensures EachOk(T, flat, role1, table - {pid})
  {
    var table' := table - {pid};
    forall a | a in table' ensures ProcOk(T, flat, role1, table'[a]) {
      assert ProcOk(T, flat, role, table[a]);
    }
  }

  lemma EachLeft(mem: Memory, T: Tables, flat: Flat, role: Roles, mem': Memory, T': Tables, flat': Flat, role': Roles,
                 table: map<nat, Proc>, pid: nat)
    requires EachOk(T, flat, role, table - {pid}) && Distinct(table) && pid in table
    requires Kept(mem, flat, role, mem', flat', role', table[pid].root, 0, MAXVPN)
    requires T' == OtherTables(T, table[pid].root)
    ensures EachOk(T', flat', role', table - {pid})
  {
    hide Kept, ProcOk;
    var table' := table - {pid};
    forall a | a in table' ensures ProcOk(T', flat', role', table'[a]) {
      OtherProc(mem, T, flat, role, mem', T', flat', role', table[pid].root, 0, MAXVPN, table'[a]);
    }
  }

  lemma NoLeakExit(T: Tables, role: Roles, role1: Roles, T2: Tables, role2: Roles, flat: Flat, flat2: Flat,
                   mem1: Memory, mem2: Memory, table: map<nat, Proc>, pid: nat)
    requires NoLeak(T, role, table) && pid in table && role1 == role[table[pid].trapframe := Role.Free]
    requires T2 == OtherTables(T, table[pid].root)
    requires Kept(mem1, flat, role1, mem2, flat2, role2, table[pid].root, 0, MAXVPN)
    ensures NoLeak(T2, role2, table - {pid})
  {
    var table' := table - {pid};
    forall k | k in T2 ensures exists b :: b in table' && table'[b].root == k.root {
      var b :| b in table && table[b].root == k.root;
      assert b in table' && table'[b].root == k.root;
    }
    forall q | q in role2 && role2[q].Held? ensures exists b :: b in table' && table'[b].trapframe == q {
      var b :| b in table && table[b].trapframe == q;
      assert b in table' && table'[b].trapframe == q;
    }
  }

  lemma DifferentRoots(T: Tables, flat: Flat, role: Roles, table: map<nat, Proc>, a: nat, b: nat)
    requires AllOk(T, flat, role, table) && a in table && b in table && a != b
    ensures table[a].root != table[b].root
  {
  }

  lemma BelowSize(T: Tables, flat: Flat, role: Roles, p: Proc)
    requires ProcOk(T, flat, role, p)
    ensures forall l :: l in flat && l.root == p.root && l.vpn < TRAPFRAME ==> l.vpn < Pages(p.sz)
  {
  }

  lemma TopGone(T0: Tables, flat: Flat, T: Tables, root: nat, tf: nat)
    requires NewSpace(T0, flat, T, root)
    ensures OtherFlat(WithTop(flat, root, tf), root) == flat
  {
  }

  lemma ForkDone(mem0: Memory, flat0: Flat, mem1: Memory, flat1: Flat, role1: Roles, mem2: Memory, flat2: Flat,
                 role2: Roles,
                 parent: nat, child: nat, n: nat)
    requires KeptPages(mem0, flat0, mem1, flat1, child) && Kept(mem1, flat1, role1, mem2, flat2, role2, child, 0, n)
    requires CopiedPages(mem1, flat1, parent, mem2, flat2, child, n) && parent != child && n <= TRAPFRAME
    requires forall l :: l in flat2 && l.root == child && l.vpn < TRAPFRAME ==> l.vpn < n
    requires forall v: nat, l :: v < n && Loc(child, v) in flat2 && l in flat1 && l.vpn < TRAPFRAME ==>
               Ppn(flat2[Loc(child, v)]) != Ppn(flat1[l])
    requires forall l :: l in flat0 ==> l.root != child
    ensures CopiedPages(mem0, flat0, parent, mem2, flat2, child, n)
    ensures FreshAll(flat0, flat2, child) && KeptPages(mem0, flat0, mem2, flat2, child)
  {
    forall v: nat | v < n ensures CopiedPage(mem0, flat0, parent, mem2, flat2, child, v) {
      assert CopiedPage(mem1, flat1, parent, mem2, flat2, child, v);
    }
  }

  lemma HasRoot(T0: Tables, flat0: Flat, T: Tables, root: nat)
    requires NewSpace(T0, flat0, T, root)
    ensures Key(root, 2, 0) in T && forall l :: l in flat0 ==> l.root != root
  {
  }

  lemma TopCleared(flat: Flat, root: nat, e: nat)
    requires forall l :: l in flat ==> l.root != root
    ensures Cleared(flat[Loc(root, TRAMPOLINE) := e], root, TRAMPOLINE, TRAMPOLINE + 1) == flat
  {
  }

  /** Throwing a space under construction away leaves everything as it was. */
  lemma Discarded(mem0: Memory, T0: Tables, flat0: Flat, role0: Roles, mem1: Memory, T1: Tables, role1: Roles,
                  mem2: Memory, role2: Roles, root: nat, x: nat)
    requires NewSpace(T0, flat0, T1, root) && Kept(mem0, flat0, role0, mem1, flat0, role1, root, 0, MAXVPN)
    requires Kept(mem1, flat0, role1, mem2, flat0, role2, root, 0, 0)
    ensures OtherTables(T1, root) == T0 && Kept(mem0, flat0, role0, mem2, flat0, role2, x, 0, 0)
  {
  }

  lemma FaultBelow(mem: Memory, T: Tables, flat: Flat, role: Roles, mem': Memory, flat': Flat, role': Roles, p: Proc,
                   v: nat, mapped: bool)
    requires ProcOk(T, flat, role, p) && Kept(mem, flat, role, mem', flat', role', p.root, v, v + 1)
    requires if mapped then v < Pages(p.sz) else flat' == flat
    ensures forall l :: l in flat' && l.root == p.root && l.vpn < TRAPFRAME ==> l.vpn < Pages(p.sz)
  {
  }

  lemma StillBelow(mem: Memory, T: Tables, flat: Flat, role: Roles, mem': Memory, flat': Flat, role': Roles, p: Proc,
                   lo: nat, hi: nat)
    requires ProcOk(T, flat, role, p) && Kept(mem, flat, role, mem', flat', role', p.root, lo, hi) && Pages(p.sz) <= hi
    ensures forall l :: l in flat' && l.root == p.root && l.vpn < TRAPFRAME ==> l.vpn < hi
  {
  }

  lemma ItsOwn(T: Tables, flat: Flat, role: Roles, table: map<nat, Proc>, a: nat)
    requires AllOk(T, flat, role, table) && a in table
    ensures ProcOk(T, flat, role, table[a])
  {
  }

  lemma NotAtLimit(T: Tables, flat: Flat, role: Roles, table: map<nat, Proc>, a: nat)
    requires AllOk(T, flat, role, table) && a in table
    ensures table[a].sz <= TRAPFRAME * PGSIZE
  {
  }

  /** Promising pages without supplying them keeps every process in order. */
  lemma LazilyGrown(free: seq<nat>, mem: Memory, T: Tables, flat: Flat, role: Roles, table: map<nat, Proc>, a: nat,
                    sz: nat)
    requires Good(free, mem, T, flat, role) && AllOk(T, flat, role, table) && a in table
    requires table[a].sz <= sz <= TRAPFRAME * PGSIZE
    ensures AllOk(T, flat, role, table[a := table[a].(sz := sz)])
  {
    var p := table[a].(sz := sz);
    assert ProcOk(T, flat, role, p);
    KeptSame(free, mem, T, flat, role, p.root, 0, 0);
    hide ProcOk, Kept, Good, AllOk, Grown;
    AllAfter(mem, T, flat, role, mem, T, flat, role, table, a, p, 0, 0);
  }

  lemma AllAfterResize(free: seq<nat>, mem: Memory, T: Tables, flat: Flat, role: Roles,
                       free': seq<nat>, mem': Memory, T': Tables, flat': Flat, role': Roles,
                       table: map<nat, Proc>, a: nat, sz: nat, lo: nat, hi: nat)
    requires Good(free', mem', T', flat', role') && AllOk(T, flat, role, table) && a in table
    requires Kept(mem, flat, role, mem', flat', role', table[a].root, lo, hi) && Grown(T, T', table[a].root)
    requires hi <= TRAPFRAME && sz <= TRAPFRAME * PGSIZE
    requires forall l :: l in flat' && l.root == table[a].root && l.vpn < TRAPFRAME ==> l.vpn < Pages(sz)
    ensures AllOk(T', flat', role', table[a := table[a].(sz := sz)])
  {
    Bounded(free', mem', T', flat', role');
    ItsOwn(T, flat, role, table, a);
    Resized(mem, T, flat, role, mem', T', flat', role', table[a], sz, lo, hi);
    hide ProcOk, Kept, Good, AllOk, Grown;
    AllAfter(mem, T, flat, role, mem', T', flat', role', table, a, table[a].(sz := sz), lo, hi);
  }
}
