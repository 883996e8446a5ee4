/**
  umalloc.c: the allocator of section 8.7 of The C Programming Language (Kernighan
  and Ritchie, second edition). Addresses count Header-sized units.
 */
module Malloc {
  import opened Basics

  /** union header: the free-list link and the size of the block in units, header included. */
  datatype Header = Header(ptr: nat, size: nat)

  const NULL: nat := 0
  const BASE: nat := 1          // address of the static header `base`; the heap lies above it
  const UNIT: nat := 16         // sizeof(Header)
  const MINCORE: nat := 4096    // fewest units morecore asks for

  // ---------- the heap as values ----------

  predicate Known(mem: map<nat, Header>, list: seq<nat>) {
    forall i :: 0 <= i < |list| ==> list[i] in mem
  }

  /** Address-ordered and fully coalesced, starting at the empty block `base`. */
  predicate Ordered(mem: map<nat, Header>, list: seq<nat>) {
    && Known(mem, list) && 0 < |list| && list[0] == BASE && mem[BASE].size == 0
    && (forall i :: 0 < i < |list| ==> mem[list[i]].size > 0)
    && (forall i, j :: 0 <= i < j < |list| ==> list[i] + mem[list[i]].size < list[j])
  }

  function Next(n: nat, i: nat): nat
    requires i < n
  {
    if i + 1 < n then i + 1 else 0
  }

  /** The link out of position i leads to the next block, the last one's back to the first. */
  predicate LinkAt(mem: map<nat, Header>, list: seq<nat>, i: nat) {
    i < |list| && list[i] in mem && mem[list[i]].ptr == list[Next(|list|, i)]
  }

  /** The links run around the list in order, except possibly the one out of position k. */
  predicate LinkedBut(mem: map<nat, Header>, list: seq<nat>, k: int)
  {
    forall i: nat :: i < |list| && i != k ==> LinkAt(mem, list, i)
  }

  /** Blocks handed out, by header address, with their sizes. */
  predicate Allocated(mem: map<nat, Header>, list: seq<nat>, live: map<nat, nat>) {
    forall a :: a in live ==> a in mem && BASE < a && mem[a].size == live[a] && 0 < live[a] && a !in list
  }

  predicate InBlock(mem: map<nat, Header>, a: nat, u: nat) {
    a in mem && a <= u < a + mem[a].size
  }

  function Blocks(list: seq<nat>, live: map<nat, nat>): set<nat> {
    (set a | a in list) + live.Keys
  }

  /** `own` gives each unit of the heap the one block it belongs to. */
  ghost predicate Partition(mem: map<nat, Header>, blocks: set<nat>, own: map<nat, nat>) {
    && (forall u :: u in own ==> BASE < u && u in mem && own[u] in blocks && InBlock(mem, own[u], u))
    && (forall a: nat, u: nat :: a in blocks && InBlock(mem, a, u) ==> u in own && own[u] == a)
  }

  ghost predicate HeapOk(mem: map<nat, Header>, list: seq<nat>, live: map<nat, nat>, own: map<nat, nat>, k: int) {
    && Ordered(mem, list) && LinkedBut(mem, list, k)
    && Allocated(mem, list, live) && Partition(mem, Blocks(list, live), own)
  }

  // ---------- free ----------

  /** list[k] is the last free block below bp. */
  predicate Below(list: seq<nat>, k: int, bp: nat) {
    0 <= k < |list| && list[k] < bp && (k + 1 < |list| ==> bp < list[k + 1])
  }

  /** A live block fits between its free neighbours. */
  lemma FitsBetween(mem: map<nat, Header>, list: seq<nat>, live: map<nat, nat>, own: map<nat, nat>, k: int, bp: nat)
    requires Ordered(mem, list) && Allocated(mem, list, live) && Partition(mem, Blocks(list, live), own)
    requires bp in live && Below(list, k, bp)
    ensures list[k] + mem[list[k]].size <= bp
    ensures k + 1 < |list| ==> bp + mem[bp].size <= list[k + 1]
  {
    assert InBlock(mem, bp, bp);
    if list[k] + mem[list[k]].size > bp {
      assert InBlock(mem, list[k], bp);
    }
    if k + 1 < |list| && bp + mem[bp].size > list[k + 1] {
      assert InBlock(mem, bp, list[k + 1]) && InBlock(mem, list[k + 1], list[k + 1]);
    }
  }

  /** The list without position k. */
  function Without(list: seq<nat>, k: nat): seq<nat>
    requires k < |list|
  {
    list[..k] + list[k + 1..]
  }

  function Renamed(own: map<nat, nat>, from: nat, to: nat): map<nat, nat> {
    map u | u in own :: if own[u] == from then to else own[u]
  }

  /** Two adjacent blocks become one. */
  lemma MergeUnits(mem: map<nat, Header>, blocks: set<nat>, own: map<nat, nat>, to: nat, from: nat, h: Header)
    requires Partition(mem, blocks, own) && to in blocks && from in blocks && to in mem && from in mem && to != from
    requires to + mem[to].size == from && h.size == mem[to].size + mem[from].size
    ensures Partition(mem[to := h], blocks - {from}, Renamed(own, from, to))
  {
    var mem', own' := mem[to := h], Renamed(own, from, to);
    forall a: nat, u: nat | a in blocks - {from} && InBlock(mem', a, u) ensures u in own' && own'[u] == a {
      if a == to && u >= from { assert InBlock(mem, from, u); } else { assert InBlock(mem, a, u); }
    }
    forall u | u in own' ensures own'[u] in blocks - {from} && InBlock(mem', own'[u], u) {
      assert InBlock(mem, own[u], u);
    }
  }

  /** Changing only links leaves the partition alone. */
  lemma RelinkUnits(mem: map<nat, Header>, blocks: set<nat>, own: map<nat, nat>, a: nat, p: nat)
    requires Partition(mem, blocks, own) && a in mem
    ensures Partition(mem[a := mem[a].(ptr := p)], blocks, own)
  {
    var mem' := mem[a := mem[a].(ptr := p)];
    assert forall b: nat, u: nat :: InBlock(mem', b, u) <==> InBlock(mem, b, u);
  }

  lemma WithoutBlocks(list: seq<nat>, k: nat, live: map<nat, nat>)
    requires k < |list| && (forall i, j :: 0 <= i < j < |list| ==> list[i] != list[j]) && list[k] !in live
    ensures Blocks(Without(list, k), live) == Blocks(list, live) - {list[k]}
    ensures forall i :: 0 <= i < |list| - 1 ==> Without(list, k)[i] == (if i < k then list[i] else list[i + 1])
  {
    var list' := Without(list, k);
    forall a | a in list && a != list[k] ensures a in list' {
      var i :| 0 <= i < |list| && list[i] == a;
      assert list'[if i < k then i else i - 1] == a;
    }
  }

  /** bp takes over its upper neighbour list[k + 1]. */
  lemma AbsorbUpper(mem: map<nat, Header>, list: seq<nat>, live: map<nat, nat>, own: map<nat, nat>, k: int, bp: nat)
    requires HeapOk(mem, list, live, own, -1) && bp in live && Below(list, k, bp)
    requires k + 1 < |list| && bp + mem[bp].size == list[k + 1]
    ensures var up := list[k + 1];
            var size := mem[bp].size + mem[up].size;
            var mem', list' := mem[bp := Header(mem[up].ptr, size)], Without(list, k + 1);
            && HeapOk(mem', list', live[bp := size], Renamed(own, up, bp), k)
            && Below(list', k, bp) && mem'[bp].ptr == list'[Next(|list'|, k)]
            && (k + 1 < |list'| ==> bp + mem'[bp].size < list'[k + 1])
  {
    hide Ordered, Allocated, LinkedBut, Partition, Blocks, Renamed, Without;
    UpperFacts(mem, list, live, k, bp);
    var up := list[k + 1];
    var size := mem[bp].size + mem[up].size;
    var h := Header(mem[up].ptr, size);
    var mem', list' := mem[bp := h], Without(list, k + 1);
    UpperGap(mem, list, k, bp);
    UpperList(mem, mem', list, live, k, bp, size);
    AllocatedAfter(mem, mem', list, list', live, bp, size);
    UpperLinks(mem, mem', list, k);
    WithoutNext(mem, list, k + 1);
    MergeUnits(mem, Blocks(list, live), own, bp, up, h);
    UpperBlocks(mem, list, live, k, bp, size);
  }

  lemma UpperFacts(mem: map<nat, Header>, list: seq<nat>, live: map<nat, nat>, k: int, bp: nat)
    requires Ordered(mem, list) && Allocated(mem, list, live) && bp in live && Below(list, k, bp) && k + 1 < |list|
    ensures bp in mem && list[k + 1] in mem && mem[bp].size > 0 && bp != list[k + 1]
    ensures bp in Blocks(list, live) && list[k + 1] in Blocks(list, live)
  {
  }

  lemma UpperList(mem: map<nat, Header>, mem': map<nat, Header>, list: seq<nat>, live: map<nat, nat>, k: int, bp: nat,
                  size: nat)
    requires Ordered(mem, list) && Allocated(mem, list, live) && bp in live && 0 <= k && k + 1 < |list|
    requires bp in mem' && mem' == mem[bp := mem'[bp]]
    ensures Ordered(mem', Without(list, k + 1)) && (forall a :: a in Without(list, k + 1) ==> a in list)
    ensures forall a :: a in list ==> a in mem && a in mem' && mem'[a] == mem[a]
  {
    hide Ordered;
    ListApart(mem, list, live, bp);
    WithoutOrdered(mem, mem', list, k + 1);
  }

  lemma ListApart(mem: map<nat, Header>, list: seq<nat>, live: map<nat, nat>, bp: nat)
    requires Ordered(mem, list) && Allocated(mem, list, live) && bp in live
    ensures forall a :: a in list ==> a in mem && a != bp && a !in live
  {
  }

  lemma UpperLinks(mem: map<nat, Header>, mem': map<nat, Header>, list: seq<nat>, k: int)
    requires LinkedBut(mem, list, -1) && 0 <= k && k + 1 < |list|
    requires forall a :: a in list ==> a in mem && a in mem' && mem'[a] == mem[a]
    ensures LinkedBut(mem', Without(list, k + 1), k) && LinkAt(mem, list, k + 1)
  {
    WithoutLinks(mem, mem', list, k + 1);
    assert LinkAt(mem, list, k + 1);
    hide Without;
  }

  lemma UpperBlocks(mem: map<nat, Header>, list: seq<nat>, live: map<nat, nat>, k: int, bp: nat, size: nat)
    requires Ordered(mem, list) && Allocated(mem, list, live) && bp in live && Below(list, k, bp) && k + 1 < |list|
    ensures Blocks(Without(list, k + 1), live[bp := size]) == Blocks(list, live) - {list[k + 1]}
  {
    UpperGap(mem, list, k, bp);
    ListApart(mem, list, live, bp);
    hide Ordered, Allocated;
    WithoutBlocks(list, k + 1, live);
    hide Without;
  }

  lemma UpperGap(mem: map<nat, Header>, list: seq<nat>, k: int, bp: nat)
    requires Ordered(mem, list) && Below(list, k, bp) && k + 1 < |list|
    ensures forall i, j :: 0 <= i < j < |list| ==> list[i] != list[j]
    ensures Below(Without(list, k + 1), k, bp) && |Without(list, k + 1)| == |list| - 1
    ensures k + 2 < |list| ==> list[k + 1] + mem[list[k + 1]].size < Without(list, k + 1)[k + 1]
  {
  }

  lemma AllocatedAfter(mem: map<nat, Header>, mem': map<nat, Header>, list: seq<nat>, list': seq<nat>,
                       live: map<nat, nat>, bp: nat, size: nat)
    requires Allocated(mem, list, live) && bp in live && 0 < size
    requires forall a :: a in list' ==> a in list
    requires bp in mem' && mem'[bp].size == size && mem' == mem[bp := mem'[bp]]
    ensures Allocated(mem', list', live[bp := size])
    ensures forall a :: a in list ==> a !in live && a != bp
  {
  }

  lemma WithoutAt(list: seq<nat>, k: nat, i: nat)
    requires k < |list| && i < |list| - 1
    ensures Without(list, k)[i] == list[if i < k then i else i + 1]
  {
  }

  lemma WithoutOrdered(mem: map<nat, Header>, mem': map<nat, Header>, list: seq<nat>, k: nat)
    requires Ordered(mem, list) && 0 < k < |list|
    requires forall a :: a in list ==> a in mem' && mem'[a] == mem[a]
    ensures Ordered(mem', Without(list, k))
    ensures forall a :: a in Without(list, k) ==> a in list
  {
  }

  /** Taking position k out leaves one stale link, the one that led to it. */
  lemma WithoutLinks(mem: map<nat, Header>, mem': map<nat, Header>, list: seq<nat>, k: nat)
    requires LinkedBut(mem, list, -1) && 0 < k < |list|
    requires forall a :: a in list ==> a in mem' && a in mem && mem'[a] == mem[a]
    ensures LinkedBut(mem', Without(list, k), k - 1)
  {
    var list' := Without(list, k);
    forall i: nat | i < |list'| && i != k - 1 ensures LinkAt(mem', list', i) {
      assert LinkAt(mem, list, if i < k then i else i + 1);
      WithoutAt(list, k, i);
      WithoutAt(list, k, Next(|list'|, i));
    }
  }

  /** The removed block's own link leads to where that link should now go. */
  lemma WithoutNext(mem: map<nat, Header>, list: seq<nat>, k: nat)
    requires LinkAt(mem, list, k) && 0 < k < |list|
    ensures mem[list[k]].ptr == Without(list, k)[Next(|list| - 1, k - 1)]
  {
    WithoutAt(list, k, Next(|list| - 1, k - 1));
  }

  lemma AbsorbNothing(mem: map<nat, Header>, list: seq<nat>, live: map<nat, nat>, own: map<nat, nat>, k: int, bp: nat)
    requires HeapOk(mem, list, live, own, -1) && bp in live && Below(list, k, bp)
    requires bp + mem[bp].size != list[Next(|list|, k)]
    ensures var mem' := mem[bp := mem[bp].(ptr := list[Next(|list|, k)])];
            && HeapOk(mem', list, live, own, k)
            && (k + 1 < |list| ==> bp + mem'[bp].size < list[k + 1])
  {
    var mem' := mem[bp := mem[bp].(ptr := list[Next(|list|, k)])];
    FitsBetween(mem, list, live, own, k, bp);
    RelinkUnits(mem, Blocks(list, live), own, bp, list[Next(|list|, k)]);
    hide Partition;
    forall i: nat | i < |list| && i != k ensures LinkAt(mem', list, i) {
      assert LinkAt(mem, list, i);
    }
  }

  function Inserted(list: seq<nat>, k: int, bp: nat): seq<nat>
    requires 0 <= k < |list|
  {
    list[..k + 1] + [bp] + list[k + 1..]
  }

  lemma InsertedLinks(mem: map<nat, Header>, list: seq<nat>, k: nat, bp: nat)
    requires LinkedBut(mem, list, k) && Known(mem, list) && k < |list| && bp !in list
    requires forall i, j :: 0 <= i < j < |list| ==> list[i] != list[j]
    requires bp in mem && mem[bp].ptr == list[Next(|list|, k)]
    ensures LinkedBut(mem[list[k] := mem[list[k]].(ptr := bp)], Inserted(list, k, bp), -1)
  {
    var mem', list' := mem[list[k] := mem[list[k]].(ptr := bp)], Inserted(list, k, bp);
    assert list'[k] == list[k] && list'[k + 1] == bp;
    assert forall i :: k + 2 <= i < |list'| ==> list'[i] == list[i - 1];
    forall i: nat | i < |list'| ensures LinkAt(mem', list', i) {
      if i < k { assert LinkAt(mem, list, i); }
      else if i > k + 1 { assert LinkAt(mem, list, i - 1); }
    }
  }

  lemma InsertedOrdered(mem: map<nat, Header>, list: seq<nat>, k: nat, bp: nat)
    requires Ordered(mem, list) && Below(list, k, bp) && bp in mem && 0 < mem[bp].size
    requires list[k] + mem[list[k]].size < bp
    requires k + 1 < |list| ==> bp + mem[bp].size < list[k + 1]
    ensures Ordered(mem[list[k] := mem[list[k]].(ptr := bp)], Inserted(list, k, bp))
  {
    var mem', list' := mem[list[k] := mem[list[k]].(ptr := bp)], Inserted(list, k, bp);
    forall i: nat | i < |list'| ensures list'[i] in mem' && (0 < i ==> mem'[list'[i]].size > 0) {
      InsertedAt(list, k, bp, i);
    }
    forall i, j | 0 <= i < j < |list'| ensures list'[i] + mem'[list'[i]].size < list'[j] {
      InsertedPair(mem, list, k, bp, i, j);
    }
    InsertedAt(list, k, bp, 0);
  }

  lemma InsertedAt(list: seq<nat>, k: nat, bp: nat, i: nat)
    requires k < |list| && i <= |list|
    ensures Inserted(list, k, bp)[i] == if i <= k then list[i] else if i == k + 1 then bp else list[i - 1]
  {
  }

  lemma InsertedPair(mem: map<nat, Header>, list: seq<nat>, k: nat, bp: nat, i: nat, j: nat)
    requires Ordered(mem, list) && Below(list, k, bp) && bp in mem && i < j <= |list|
    requires list[k] + mem[list[k]].size < bp
    requires k + 1 < |list| ==> bp + mem[bp].size < list[k + 1]
    ensures var list' := Inserted(list, k, bp);
            list'[i] in mem && list'[j] in mem && list'[i] + mem[list'[i]].size < list'[j]
  {
    InsertedAt(list, k, bp, i);
    InsertedAt(list, k, bp, j);
    hide Inserted;
    if j == k + 1 {
      assert i < k ==> list[i] + mem[list[i]].size < list[k];
    } else if i == k + 1 {
      assert j > k + 2 ==> list[k + 1] + mem[list[k + 1]].size < list[j - 1];
    }
  }

  lemma InsertedBlocks(list: seq<nat>, k: nat, bp: nat, live: map<nat, nat>)
    requires k < |list| && bp in live
    ensures Blocks(Inserted(list, k, bp), live - {bp}) == Blocks(list, live)
    ensures forall a :: a in Inserted(list, k, bp) <==> a in list || a == bp
  {
    var list' := Inserted(list, k, bp);
    assert list == list[..k + 1] + list[k + 1..];
    assert list'[k + 1] == bp;
  }

  /** bp goes on the list as a block of its own. */
  lemma LinkIn(mem: map<nat, Header>, list: seq<nat>, live: map<nat, nat>, own: map<nat, nat>, k: int, bp: nat)
    requires HeapOk(mem, list, live, own, k) && bp in live && Below(list, k, bp)
    requires mem[bp].ptr == list[Next(|list|, k)]
    requires list[k] + mem[list[k]].size < bp && (k + 1 < |list| ==> bp + mem[bp].size < list[k + 1])
    ensures HeapOk(mem[list[k] := mem[list[k]].(ptr := bp)], Inserted(list, k, bp), live - {bp}, own, -1)
  {
    InsertedLinks(mem, list, k, bp);
    InsertedOrdered(mem, list, k, bp);
    InsertedBlocks(list, k, bp, live);
    RelinkUnits(mem, Blocks(list, live), own, list[k], bp);
    hide Partition, LinkedBut, Ordered;
  }

  lemma GrownOrdered(mem: map<nat, Header>, list: seq<nat>, k: nat, h: Header)
    requires Ordered(mem, list) && 0 < k < |list| && mem[list[k]].size <= h.size
    requires k + 1 < |list| ==> list[k] + h.size < list[k + 1]
    ensures Ordered(mem[list[k] := h], list)
  {
    var mem' := mem[list[k] := h];
    forall i, j | 0 <= i < j < |list| ensures list[i] + mem'[list[i]].size < list[j] {
      assert list[i] + mem[list[i]].size < list[j];
      if i == k && j > k + 1 { assert list[k + 1] + mem[list[k + 1]].size < list[j]; }
    }
  }

  /** bp is swallowed by its lower neighbour list[k]. */
  lemma AbsorbIntoLower(mem: map<nat, Header>, list: seq<nat>, live: map<nat, nat>, own: map<nat, nat>, k: int, bp: nat)
    requires HeapOk(mem, list, live, own, k) && bp in live && Below(list, k, bp)
    requires mem[bp].ptr == list[Next(|list|, k)]
    requires list[k] + mem[list[k]].size == bp && (k + 1 < |list| ==> bp + mem[bp].size < list[k + 1])
    ensures var p := list[k];
            HeapOk(mem[p := Header(mem[bp].ptr, mem[p].size + mem[bp].size)], list, live - {bp}, Renamed(own, bp, p),
                   -1)
  {
    hide Partition, Ordered, LinkedBut, Allocated;
    var p := list[k];
    LowerFree(mem, list, live, k, bp);
    assert k > 0 && p in mem && bp in mem && mem[bp].size > 0 && p != bp && p !in live;
    var h := Header(mem[bp].ptr, mem[p].size + mem[bp].size);
    GrownOrdered(mem, list, k, h);
    MergeUnits(mem, Blocks(list, live), own, p, bp, h);
    assert bp !in list by { NotOnList(mem, list, live, bp); }
    assert Blocks(list, live - {bp}) == Blocks(list, live) - {bp};
    LinksAfterGrow(mem, list, k, h);
    AllocatedLess(mem, list, live, p, bp, h);
  }

  lemma LowerFree(mem: map<nat, Header>, list: seq<nat>, live: map<nat, nat>, k: nat, bp: nat)
    requires Ordered(mem, list) && Allocated(mem, list, live) && bp in live && Below(list, k, bp)
    requires list[k] + mem[list[k]].size == bp
    ensures k > 0 && list[k] in mem && bp in mem && mem[bp].size > 0 && list[k] != bp && list[k] !in live
  {
  }

  lemma NotOnList(mem: map<nat, Header>, list: seq<nat>, live: map<nat, nat>, bp: nat)
    requires Allocated(mem, list, live) && bp in live
    ensures bp !in list
  {
  }

  lemma AllocatedLess(mem: map<nat, Header>, list: seq<nat>, live: map<nat, nat>, p: nat, bp: nat, h: Header)
    requires Allocated(mem, list, live) && p !in live
    ensures Allocated(mem[p := h], list, live - {bp})
  {
  }

  lemma LinksAfterGrow(mem: map<nat, Header>, list: seq<nat>, k: nat, h: Header)
    requires LinkedBut(mem, list, k) && Ordered(mem, list) && k < |list| && h.ptr == list[Next(|list|, k)]
    ensures LinkedBut(mem[list[k] := h], list, -1)
  {
    var mem' := mem[list[k] := h];
    forall i: nat | i < |list| ensures LinkAt(mem', list, i) {
      if i != k { assert LinkAt(mem, list, i) && list[i] != list[k]; }
    }
  }

  // ---------- malloc ----------

  /** A free block of exactly the right size leaves the list. */
  lemma TakeWhole(mem: map<nat, Header>, list: seq<nat>, live: map<nat, nat>, own: map<nat, nat>, k: nat)
    requires HeapOk(mem, list, live, own, -1) && 0 < k < |list|
    ensures var p, q := list[k], list[k - 1];
            HeapOk(mem[q := mem[q].(ptr := mem[p].ptr)], Without(list, k), live[p := mem[p].size], own, -1)
  {
    var p := list[k];
    OrderedDistinct(mem, list, k);
    UnlinkedList(mem, list, k);
    hide Ordered, LinkedBut;
    AllocatedWhole(mem, list, live, k);
    hide Allocated;
    WithoutBlocks(list, k, live);
    RelinkUnits(mem, Blocks(list, live), own, list[k - 1], mem[p].ptr);
    hide Partition;
    assert Blocks(Without(list, k), live[p := mem[p].size]) == Blocks(list, live);
  }

  lemma AllocatedWhole(mem: map<nat, Header>, list: seq<nat>, live: map<nat, nat>, k: nat)
    requires Allocated(mem, list, live) && 0 < k < |list| && Known(mem, list)
    requires BASE < list[k] && 0 < mem[list[k]].size && list[k - 1] != list[k]
    requires list[k] !in Without(list, k) && forall a :: a in Without(list, k) ==> a in list
    ensures var p, q := list[k], list[k - 1];
            Allocated(mem[q := mem[q].(ptr := mem[p].ptr)], Without(list, k), live[p := mem[p].size])
    ensures list[k] !in live
  {
  }

  lemma OrderedDistinct(mem: map<nat, Header>, list: seq<nat>, k: nat)
    requires Ordered(mem, list) && 0 < k < |list|
    ensures Known(mem, list) && BASE < list[k] && 0 < mem[list[k]].size && list[k - 1] != list[k]
    ensures forall i, j :: 0 <= i < j < |list| ==> list[i] != list[j]
    ensures list[k] !in Without(list, k) && forall a :: a in Without(list, k) ==> a in list
  {
  }

  /** The headers after free block list[k] has been taken off the list. */
  lemma UnlinkedList(mem: map<nat, Header>, list: seq<nat>, k: nat)
    requires Ordered(mem, list) && LinkedBut(mem, list, -1) && 0 < k < |list|
    ensures var q := list[k - 1];
            var mem' := mem[q := mem[q].(ptr := mem[list[k]].ptr)];
            Ordered(mem', Without(list, k)) && LinkedBut(mem', Without(list, k), -1)
  {
    var q, list' := list[k - 1], Without(list, k);
    WithoutOrdered(mem, mem, list, k);
    RelinkOrdered(mem, list', q, mem[list[k]].ptr);
    WithoutLinks(mem, mem, list, k);
    assert LinkAt(mem, list, k);
    WithoutNext(mem, list, k);
    WithoutAt(list, k, k - 1);
    LinksAfterGrow(mem, list', k - 1, mem[q].(ptr := mem[list[k]].ptr));
    hide Ordered, LinkedBut;
  }

  lemma RelinkOrdered(mem: map<nat, Header>, list: seq<nat>, a: nat, p: nat)
    requires Ordered(mem, list) && a in mem
    ensures Ordered(mem[a := mem[a].(ptr := p)], list)
  {
  }

  /** own, with the units [q, q + n) given to block q. */
  function Carved(own: map<nat, nat>, q: nat, n: nat): map<nat, nat> {
    map u | u in own :: if q <= u < q + n then q else own[u]
  }

  /** Where the last n units of block p begin. */
  function Tail(mem: map<nat, Header>, p: nat, n: nat): nat
    requires p in mem && n < mem[p].size
  {
    p + mem[p].size - n
  }

  /** The headers after the last n units of a free block have been made a block of their own. */
  function SplitMem(mem: map<nat, Header>, p: nat, n: nat): map<nat, Header>
    requires p in mem && n < mem[p].size && Tail(mem, p, n) in mem
  {
    var q := Tail(mem, p, n);
    mem[p := mem[p].(size := mem[p].size - n)][q := mem[q].(size := n)]
  }

  lemma SplitUnits(mem: map<nat, Header>, blocks: set<nat>, own: map<nat, nat>, p: nat, n: nat)
    requires Partition(mem, blocks, own) && p in blocks && p in mem && 0 < n < mem[p].size
    requires forall a :: a in blocks && a != BASE ==> InBlock(mem, a, a)
    ensures var q := Tail(mem, p, n);
            && q in mem && q in own && q !in blocks
            && Partition(SplitMem(mem, p, n), blocks + {q}, Carved(own, q, n))
  {
    var q := Tail(mem, p, n);
    assert InBlock(mem, p, q);
    var mem' := SplitMem(mem, p, n);
    var own' := Carved(own, q, n);
    forall a: nat, u: nat | a in blocks + {q} && InBlock(mem', a, u) ensures u in own' && own'[u] == a {
      if a == q { assert InBlock(mem, p, u); } else { assert InBlock(mem, a, u); }
    }
    forall u | u in own' ensures own'[u] in blocks + {q} && InBlock(mem', own'[u], u) {
      assert InBlock(mem, own[u], u);
      if q <= u < q + n { assert InBlock(mem, p, u); }
    }
  }

  lemma ShrunkOrdered(mem: map<nat, Header>, list: seq<nat>, k: nat, h: Header)
    requires Ordered(mem, list) && 0 < k < |list| && 0 < h.size <= mem[list[k]].size
    ensures Ordered(mem[list[k] := h], list)
  {
    var mem' := mem[list[k] := h];
    forall i, j | 0 <= i < j < |list| ensures list[i] + mem'[list[i]].size < list[j] {
      assert list[i] + mem[list[i]].size < list[j];
    }
  }

  /** Writing headers elsewhere does not concern the list. */
  lemma ElsewhereKeeps(mem: map<nat, Header>, mem': map<nat, Header>, list: seq<nat>)
    requires Ordered(mem, list) && LinkedBut(mem, list, -1)
    requires forall a :: a in list ==> a in mem' && mem'[a] == mem[a]
    ensures Ordered(mem', list) && LinkedBut(mem', list, -1)
  {
    forall i: nat | i < |list| ensures LinkAt(mem', list, i) {
      assert LinkAt(mem, list, i);
    }
  }

  /** The tail of a larger block is split off. */
  lemma TakeTail(mem: map<nat, Header>, list: seq<nat>, live: map<nat, nat>, own: map<nat, nat>, k: nat, n: nat)
    requires HeapOk(mem, list, live, own, -1) && 0 < k < |list| && 0 < n < mem[list[k]].size
    ensures var q := Tail(mem, list[k], n);
            && q in mem && q in own && q !in live && q !in list
            && HeapOk(SplitMem(mem, list[k], n), list, live[q := n], Carved(own, q, n), -1)
  {
    var p := list[k];
    var q := Tail(mem, p, n);
    BlocksNonempty(mem, list, live);
    SplitUnits(mem, Blocks(list, live), own, p, n);
    assert Blocks(list, live[q := n]) == Blocks(list, live) + {q};
    assert q > BASE;
    hide Partition;
    SplitList(mem, list, k, n);
    AllocatedTail(mem, list, live, p, n);
    hide Ordered, LinkedBut, Allocated;
  }

  lemma BlocksNonempty(mem: map<nat, Header>, list: seq<nat>, live: map<nat, nat>)
    requires Ordered(mem, list) && Allocated(mem, list, live)
    ensures forall a :: a in Blocks(list, live) && a != BASE ==> InBlock(mem, a, a)
  {
  }

  lemma SplitList(mem: map<nat, Header>, list: seq<nat>, k: nat, n: nat)
    requires Ordered(mem, list) && LinkedBut(mem, list, -1) && 0 < k < |list| && 0 < n < mem[list[k]].size
    requires Tail(mem, list[k], n) in mem && Tail(mem, list[k], n) !in list
    ensures Ordered(SplitMem(mem, list[k], n), list) && LinkedBut(SplitMem(mem, list[k], n), list, -1)
  {
    var p := list[k];
    var h := mem[p].(size := mem[p].size - n);
    ShrunkOrdered(mem, list, k, h);
    assert LinkAt(mem, list, k);
    LinksAfterGrow(mem, list, k, h);
    ElsewhereKeeps(mem[p := h], SplitMem(mem, p, n), list);
    hide Ordered, LinkedBut;
  }

  lemma AllocatedTail(mem: map<nat, Header>, list: seq<nat>, live: map<nat, nat>, p: nat, n: nat)
    requires Allocated(mem, list, live) && p in list && p in mem && 0 < n < mem[p].size
    requires Tail(mem, p, n) in mem && Tail(mem, p, n) !in list && BASE < Tail(mem, p, n)
    ensures Allocated(SplitMem(mem, p, n), list, live[Tail(mem, p, n) := n])
  {
  }

  predicate InRegion(u: nat, lo: nat, n: nat) { lo <= u < lo + n }

  function Region(lo: nat, n: nat): set<nat> { set u: nat | lo <= u < lo + n && InRegion(u, lo, n) }

  /** Units of live blocks stay put; exactly the units of `gone` become free. */
  ghost predicate Released(live: map<nat, nat>, own: map<nat, nat>, live': map<nat, nat>, own': map<nat, nat>,
                           gone: nat) {
    && live' == live - {gone} && own'.Keys == own.Keys
    && forall u :: u in own ==> (own'[u] in live' <==> own[u] in live && own[u] != gone)
                                && (own'[u] in live' ==> own'[u] == own[u])
  }

  class Allocator {
    var mem: map<nat, Header>
    var freep: nat
    ghost var list: seq<nat>          // the free list in address order, from `base`
    ghost var live: map<nat, nat>     // blocks handed out
    ghost var own: map<nat, nat>      // the block of each heap unit

    ghost predicate Valid()
      reads this
    {
      if freep == NULL then list == [] && live == map[] && own == map[] && BASE in mem
      else HeapOk(mem, list, live, own, -1) && freep in list
    }

    constructor ()
      ensures Valid() && freep == NULL
    {
      mem, freep, list, live, own := map[BASE := Header(NULL, 0)], NULL, [], map[], map[];
    }

    /** free's search loop: the last free block below bp. */
    method FindPlace(bp: nat) returns (p: nat, ghost k: nat)
      requires Valid() && freep != NULL && bp in live
      ensures Below(list, k, bp) && p == list[k]
    {
      hide HeapOk;
      p := freep;
      k := Position(list, freep);
      ghost var t := Place(mem, list, live, own, bp);
      SearchStep(mem, list, live, own, t, k, bp);
      while !(bp > p && bp < mem[p].ptr)
        invariant k < |list| && p == list[k] && p in mem && mem[p].ptr == list[Next(|list|, k)]
        invariant Stops(p, mem[p].ptr, bp) <==> k == t
        decreases if k <= t then t - k else t + |list| - k
      {
        if p >= mem[p].ptr && (bp > p || bp < mem[p].ptr) {
          break;
        }
        p := mem[p].ptr;
        k := Next(|list|, k);
        SearchStep(mem, list, live, own, t, k, bp);
      }
    }

    /** free: join bp to the free blocks it touches. */
    method Free(bp: nat)
      requires Valid() && freep != NULL && bp in live
      modifies this
      ensures Valid() && freep != NULL && exists k :: Below(old(list), k, bp) && freep == old(list)[k]
      ensures Released(old(live), old(own), live, own, bp)
      ensures exists a :: a in list && a in mem && mem[a].size >= old(live)[bp]
    {
      ghost var own0 := own;
      var p;
      ghost var k;
      p, k := FindPlace(bp);
      assert LinkAt(mem, list, k);
      JoinUpper(p, k, bp);
      JoinLower(p, k, bp);
      freep := p;
    }

    /** The block bp absorbs the free block above it if they touch, or else only points to it. */
    method JoinUpper(p: nat, ghost k: nat, bp: nat)
      requires HeapOk(mem, list, live, own, -1) && bp in live && Below(list, k, bp) && p == list[k]
      requires mem[p].ptr == list[Next(|list|, k)]
      modifies this`mem, this`list, this`live, this`own
      ensures HeapOk(mem, list, live, own, k) && bp in live && Below(list, k, bp) && p == list[k]
      ensures mem[bp].ptr == list[Next(|list|, k)] && (k + 1 < |list| ==> bp + mem[bp].size < list[k + 1])
      ensures live.Keys == old(live.Keys) && live[bp] >= old(live)[bp]
      ensures Released(old(live), old(own), live - {bp}, own, bp)
    {
      hide *;
      Neighbours(mem, list, live, own, -1, k, bp);
      ghost var l, v, o := list, live, own;
      var m, up := mem, mem[p].ptr;
      if bp + m[bp].size == up {
        m := m[bp := Header(m[up].ptr, m[bp].size + m[up].size)];
        l, v, o := Without(l, k + 1), v[bp := m[bp].size], Renamed(o, up, bp);
        AbsorbUpper(mem, list, live, own, k, bp);
        assert HeapOk(m, l, v, o, k);
        ReleasedMerge(live, own, bp, up);
        WithoutAt(list, k + 1, k);
        assert v - {bp} == live - {bp};
      } else {
        m := m[bp := m[bp].(ptr := up)];
        AbsorbNothing(mem, list, live, own, k, bp);
        assert HeapOk(m, l, v, o, k);
        ReleasedSame(live, own, bp);
      }
      mem, list, live, own := m, l, v, o;
    }

    /** The free block p absorbs the block bp if they touch, or else only points to it. */
    method JoinLower(p: nat, ghost k: nat, bp: nat)
      requires HeapOk(mem, list, live, own, k) && bp in live && Below(list, k, bp) && p == list[k]
      requires mem[bp].ptr == list[Next(|list|, k)] && (k + 1 < |list| ==> bp + mem[bp].size < list[k + 1])
      modifies this`mem, this`list, this`live, this`own
      ensures HeapOk(mem, list, live, own, -1) && p in list
      ensures Released(old(live), old(own), live, own, bp)
      ensures exists a :: a in list && a in mem && mem[a].size >= old(live)[bp]
    {
      hide *;
      Neighbours(mem, list, live, own, k, k, bp);
      ghost var l, v, o := list, live - {bp}, own;
      var m := mem;
      if p + m[p].size == bp {
        m := m[p := Header(m[bp].ptr, m[p].size + m[bp].size)];
        o := Renamed(o, bp, p);
        AbsorbIntoLower(mem, list, live, own, k, bp);
        assert HeapOk(m, l, v, o, -1);
        ReleasedInto(live, own, bp, p);
        assert p in l && m[p].size >= live[bp];
      } else {
        m := m[p := m[p].(ptr := bp)];
        l := Inserted(l, k, bp);
        LinkIn(mem, list, live, own, k, bp);
        assert HeapOk(m, l, v, o, -1);
        InsertedBlocks(list, k, bp, live);
        ReleasedSame(live, own, bp);
        assert bp in l && m[bp].size >= live[bp];
      }
      mem, list, live, own := m, l, v, o;
    }

    /** sbrk gives `core` to the process: one live block of nu units, above everything else. */
    method TakeCore(hp: nat, nu: nat)
      requires Valid() && freep != NULL && BASE < hp && 0 < nu && forall u :: u in own ==> u < hp
      modifies this`mem, this`live, this`own
      ensures Valid() && hp !in old(live) && live == old(live)[hp := nu]
      ensures own.Keys == old(own.Keys) + Region(hp, nu) && forall u :: u in old(own) ==> own[u] == old(own)[u]
    {
      hide HeapOk, Extended, OwnExtended, Region;
      GrowHeap(mem, list, live, own, hp, nu);
      OwnGrows(own, hp, nu);
      mem := Extended(mem, hp, nu);
      live, own := live[hp := nu], OwnExtended(own, hp, nu);
    }

    /** morecore; `core` is what sbrk would answer. NULL when sbrk fails. */
    method Morecore(nu: nat, core: Option<nat>) returns (p: nat)
      requires Valid() && freep != NULL && 0 < nu
      requires core.Some? ==> BASE < core.value && forall u :: u in own ==> u < core.value
      modifies this
      ensures core.None? ==> p == NULL && unchanged(this)
      ensures core.Some? ==>
                && Valid() && p == freep != NULL && live == old(live)
                && own.Keys == old(own.Keys) + Region(core.value, if nu < MINCORE then MINCORE else nu)
                && (forall u :: u in old(own) ==> (own[u] in live <==> old(own)[u] in live)
                                                  && (own[u] in live ==> own[u] == old(own)[u]))
                && (exists a :: a in list && a in mem && mem[a].size >= nu)
    {
      hide HeapOk, Region;
      var n := nu;
      if n < MINCORE {
        n := MINCORE;
      }
      if core.None? {
        return NULL;
      }
      TakeCore(core.value, n);
      Free(core.value);
      p := freep;
    }

    /** Some free block has n units. */
    ghost predicate HasFit(n: nat)
      reads this
    {
      exists a :: a in list && a in mem && mem[a].size >= n
    }

    /** A free block of exactly the right size is taken off the list. */
    method TakeExact(prevp: nat, p: nat, ghost k: nat)
      requires Valid() && freep != NULL && 0 < k < |list| && p == list[k] && prevp == list[k - 1]
      modifies this
      ensures Valid() && freep == prevp != NULL && p in old(mem) && p !in old(live)
      ensures live == old(live)[p := old(mem)[p].size]
      ensures own == old(own)
    {
      hide HeapOk, Without;
      TakeWhole(mem, list, live, own, k);
      TakeFacts(mem, list, live, own, k);
      mem := mem[prevp := mem[prevp].(ptr := mem[p].ptr)];
      list, live := Without(list, k), live[p := mem[p].size];
      freep := prevp;
    }

    /** The tail of a larger free block is split off and given away. */
    method TakeSplit(prevp: nat, p: nat, ghost k: nat, n: nat) returns (r: nat)
      requires Valid() && freep != NULL && 0 < k < |list| && p == list[k] && prevp == list[k - 1]
      requires p in mem && 0 < n < mem[p].size
      modifies this
      ensures Valid() && freep == prevp != NULL && r !in old(live) && live == old(live)[r := n]
      ensures own.Keys == old(own.Keys) && r == p + old(mem)[p].size - n
      ensures forall u :: u in own && old(own)[u] in live ==> own[u] == old(own)[u]
    {
      hide HeapOk, Carved;
      TakeTail(mem, list, live, own, k, n);
      TakeFacts(mem, list, live, own, k);
      CarvedKeeps(mem, list, live, own, k, n);
      var m := mem[p := mem[p].(size := mem[p].size - n)];
      r := p + m[p].size;
      m := m[r := m[r].(size := n)];
      assert r == Tail(mem, p, n) && m == SplitMem(mem, p, n);
      mem, live, own := m, live[r := n], Carved(own, r, n);
      freep := prevp;
    }

    /** Part or all of a large enough free block is given away. */
    method Take(prevp: nat, p: nat, ghost k: nat, n: nat) returns (r: nat)
      requires Valid() && freep != NULL && 0 < k < |list| && p == list[k] && prevp == list[k - 1]
      requires p in mem && 0 < n <= mem[p].size
      modifies this
      ensures Valid() && freep == prevp != NULL && r !in old(live) && live == old(live)[r := n]
      ensures own.Keys == old(own.Keys) && r == p + old(mem)[p].size - n
      ensures forall u :: u in own && old(own)[u] in old(live) ==> own[u] == old(own)[u]
    {
      hide HeapOk;
      if mem[p].size == n {
        TakeExact(prevp, p, k);
        r := p;
      } else {
        r := TakeSplit(prevp, p, k, n);
      }
    }

    /** The list of the first call: the empty base block, which points to itself. */
    method InitList()
      requires Valid() && freep == NULL
      modifies this
      ensures Valid() && freep == BASE && list == [BASE] && live == old(live) && own == old(own) && !HasFit(1)
    {
      mem := mem[BASE := Header(BASE, 0)];
      freep, list := BASE, [BASE];
      assert LinkAt(mem, list, 0);
    }

    /** malloc; `core` is what sbrk would answer if asked. The result is the header address. */
    method Malloc(nbytes: nat, core: Option<nat>) returns (r: Option<nat>)
      requires Valid() && (core.Some? ==> BASE < core.value && forall u :: u in own ==> u < core.value)
      modifies this
      ensures Valid() && freep != NULL
      ensures r.None? <==> !old(HasFit(Units(nbytes))) && core.None?
      ensures r.None? ==> live == old(live) && own == old(own)
      ensures old(HasFit(Units(nbytes))) ==> NextFit(old(mem), old(list), old(freep), Units(nbytes), r.value, freep)
      ensures r.Some? ==> r.value !in old(live) && live == old(live)[r.value := Units(nbytes)]
      ensures own.Keys == old(own.Keys) +
                (if old(HasFit(Units(nbytes))) || core.None? then {}
                 else Region(core.value, if Units(nbytes) < MINCORE then MINCORE else Units(nbytes)))
      ensures forall u :: u in old(own) && old(own)[u] in old(live) ==> own[u] == old(own)[u]
    {
      hide HeapOk, Region, Scanned, Around, Before, At, NextFit;
      var nunits := (nbytes + UNIT - 1) / UNIT + 1;
      if freep == NULL {
        InitList();
      }
      ghost var fit := HasFit(nunits);
      var prevp := freep;
      ghost var f: nat, steps: nat, grown := Position(list, freep), 0, false;
      FirstStep(mem, list, live, own, f, nunits);
      var p := mem[prevp].ptr;
      while true
        invariant Valid() && freep != NULL && f < |list| && list[f] == freep && steps < |list|
        invariant At(list, f, steps, prevp, p) && Scanned(mem, list, f, steps, nunits)
        invariant fit == old(HasFit(nunits)) && live == old(live)
        invariant !grown ==> own == old(own) && fit == HasFit(nunits)
        invariant fit ==> mem == old(mem) && list == old(list) && freep == old(freep)
        invariant grown ==> !fit && core.Some? && HasFit(nunits)
        invariant grown ==> own.Keys == old(own.Keys) + Region(core.value, if nunits < MINCORE then MINCORE else nunits)
        invariant forall u :: u in old(own) && old(own)[u] in live ==> u in own && own[u] == old(own)[u]
        decreases if grown then 0 else 1, |list| - steps
      {
        AtFacts(mem, list, live, own, f, steps, prevp, p);
        if mem[p].size >= nunits {
          assert HasFit(nunits);
          FitFound(mem, list, f, steps, nunits, prevp, p);
          p := Take(prevp, p, Around(f, steps, |list|), nunits);
          return Some(p);
        }
        ScannedMore(mem, list, f, steps, prevp, p, nunits);
        if p == freep {
          NothingFits(mem, list, live, own, f, steps, nunits);
          p := Morecore(nunits, core);
          if p == NULL {
            return None;
          }
          f, steps, grown := Position(list, freep), 0, true;
          FirstStep(mem, list, live, own, f, nunits);
        } else {
          NextStep(mem, list, live, own, f, steps, prevp, p);
          steps := steps + 1;
        }
        prevp := p;
        p := mem[p].ptr;
      }
    }
  }

  /** nunits: room for nbytes, rounded up, and a header. */
  function Units(nbytes: nat): (n: nat)
    ensures n > 0 && (n - 1) * UNIT >= nbytes && (n - 2) * UNIT < nbytes
  {
    (nbytes + UNIT - 1) / UNIT + 1
  }

  /** The position reached after `s` steps past the successor of position f. */
  function Around(f: nat, s: nat, n: nat): nat
    requires f < n && s < n
    ensures Around(f, s, n) < n
  {
    if f + 1 + s < n then f + 1 + s else f + 1 + s - n
  }

  function Before(f: nat, s: nat, n: nat): nat
    requires f < n && s < n
    ensures Before(f, s, n) < n
  {
    if s == 0 then f else Around(f, s - 1, n)
  }

  /** The blocks passed so far are all too small. */
  predicate Scanned(mem: map<nat, Header>, list: seq<nat>, f: nat, steps: nat, n: nat) {
    && f < |list| && steps <= |list| && Known(mem, list)
    && forall s: nat :: s < steps ==> mem[list[Around(f, s, |list|)]].size < n
  }

  /** Where the search stands after `steps` steps. */
  predicate At(list: seq<nat>, f: nat, steps: nat, prevp: nat, p: nat) {
    && f < |list| && steps < |list|
    && p == list[Around(f, steps, |list|)] && prevp == list[Before(f, steps, |list|)]
  }

  lemma ScannedMore(mem: map<nat, Header>, list: seq<nat>, f: nat, steps: nat, prevp: nat, p: nat, n: nat)
    requires Scanned(mem, list, f, steps, n) && At(list, f, steps, prevp, p) && p in mem && mem[p].size < n
    ensures Scanned(mem, list, f, steps + 1, n)
  {
  }

  /**
    Next fit: of the blocks after the one `freep` points to, around the ring, the first that is large
    enough gives its tail, and its predecessor is where the next search starts.
   */
  ghost predicate NextFit(mem: map<nat, Header>, list: seq<nat>, freep: nat, n: nat, r: nat, freep': nat) {
    exists f: nat, steps: nat, p: nat ::
      && At(list, f, steps, freep', p) && list[f] == freep && Scanned(mem, list, f, steps, n)
      && p in mem && mem[p].size >= n && r == p + mem[p].size - n
  }

  lemma FitFound(mem: map<nat, Header>, list: seq<nat>, f: nat, steps: nat, n: nat, prevp: nat, p: nat)
    requires At(list, f, steps, prevp, p) && Scanned(mem, list, f, steps, n) && p in mem && mem[p].size >= n
    requires f < |list|
    ensures NextFit(mem, list, list[f], n, p + mem[p].size - n, prevp)
  {
  }

  ghost function Position(list: seq<nat>, a: nat): (k: nat)
    requires a in list
    ensures k < |list| && list[k] == a
  {
    var k :| 0 <= k < |list| && list[k] == a;
    k
  }

  /** Following the pointer of a block. */
  lemma Advance(mem: map<nat, Header>, list: seq<nat>, live: map<nat, nat>, own: map<nat, nat>, k: nat)
    requires HeapOk(mem, list, live, own, -1) && k < |list|
    ensures Known(mem, list) && list[k] in mem && mem[list[k]].ptr == list[Next(|list|, k)]
  {
    assert LinkAt(mem, list, k);
  }

  lemma FirstStep(mem: map<nat, Header>, list: seq<nat>, live: map<nat, nat>, own: map<nat, nat>, f: nat, n: nat)
    requires HeapOk(mem, list, live, own, -1) && f < |list|
    ensures list[f] in mem && At(list, f, 0, list[f], mem[list[f]].ptr) && Scanned(mem, list, f, 0, n)
  {
    Advance(mem, list, live, own, f);
  }

  lemma NextStep(mem: map<nat, Header>, list: seq<nat>, live: map<nat, nat>, own: map<nat, nat>, f: nat, steps: nat,
                 prevp: nat, p: nat)
    requires HeapOk(mem, list, live, own, -1) && At(list, f, steps, prevp, p) && steps + 1 < |list|
    ensures p in mem && At(list, f, steps + 1, p, mem[p].ptr)
  {
    hide HeapOk;
    Advance(mem, list, live, own, Around(f, steps, |list|));
  }

  lemma AtFacts(mem: map<nat, Header>, list: seq<nat>, live: map<nat, nat>, own: map<nat, nat>, f: nat, s: nat,
                prevp: nat, p: nat)
    requires HeapOk(mem, list, live, own, -1) && At(list, f, s, prevp, p)
    ensures p in list && p in mem && (p == list[f] <==> s == |list| - 1)
    ensures 0 < mem[p].size ==>
              var k := Around(f, s, |list|); 0 < k < |list| && p == list[k] && prevp == list[k - 1]
  {
  }

  /** A full turn without success means that nothing fits. */
  lemma NothingFits(mem: map<nat, Header>, list: seq<nat>, live: map<nat, nat>, own: map<nat, nat>, f: nat, s: nat,
                    n: nat)
    requires HeapOk(mem, list, live, own, -1) && Scanned(mem, list, f, s + 1, n) && s + 1 == |list|
    ensures forall a :: a in list ==> a in mem && mem[a].size < n
  {
    forall a | a in list ensures a in mem && mem[a].size < n {
      var i := Position(list, a);
      assert a == list[Around(f, if i > f then i - f - 1 else i + |list| - f - 1, |list|)];
    }
  }

  lemma TakeFacts(mem: map<nat, Header>, list: seq<nat>, live: map<nat, nat>, own: map<nat, nat>, k: nat)
    requires HeapOk(mem, list, live, own, -1) && 0 < k < |list|
    ensures list[k] in mem && list[k - 1] in mem && list[k] !in live && list[k - 1] != list[k]
    ensures list[k - 1] in Without(list, k) && list[k - 1] != NULL
  {
    WithoutAt(list, k, k - 1);
    assert list[k - 1] + mem[list[k - 1]].size < list[k];
  }

  /** The units carved off belonged to a free block. */
  lemma CarvedKeeps(mem: map<nat, Header>, list: seq<nat>, live: map<nat, nat>, own: map<nat, nat>, k: nat, n: nat)
    requires HeapOk(mem, list, live, own, -1) && 0 < k < |list| && 0 < n < mem[list[k]].size
    ensures var q := Tail(mem, list[k], n);
            && Carved(own, q, n).Keys == own.Keys
            && forall u :: u in own && own[u] in live[q := n] ==> Carved(own, q, n)[u] == own[u]
  {
    var q := Tail(mem, list[k], n);
    forall u | u in own && own[u] in live[q := n] ensures Carved(own, q, n)[u] == own[u] {
      if q <= u < q + n { assert InBlock(mem, list[k], u); }
    }
  }

  function Extended(mem: map<nat, Header>, hp: nat, nu: nat): map<nat, Header> {
    (mem + map u | u in Region(hp, nu) :: Header(NULL, 0))[hp := Header(NULL, nu)]
  }

  function OwnExtended(own: map<nat, nat>, hp: nat, nu: nat): map<nat, nat> {
    own + map u | u in Region(hp, nu) :: hp
  }

  lemma OwnGrows(own: map<nat, nat>, hp: nat, nu: nat)
    requires forall u :: u in own ==> u < hp
    ensures OwnExtended(own, hp, nu).Keys == own.Keys + Region(hp, nu)
    ensures forall u :: u in own ==> OwnExtended(own, hp, nu)[u] == own[u]
  {
  }

  lemma GrowHeap(mem: map<nat, Header>, list: seq<nat>, live: map<nat, nat>, own: map<nat, nat>, hp: nat, nu: nat)
    requires HeapOk(mem, list, live, own, -1) && BASE < hp && 0 < nu && forall u :: u in own ==> u < hp
    ensures hp !in live && HeapOk(Extended(mem, hp, nu), list, live[hp := nu], OwnExtended(own, hp, nu), -1)
  {
    hide Partition, Ordered, LinkedBut, Allocated;
    var mem', own' := Extended(mem, hp, nu), OwnExtended(own, hp, nu);
    OldBlocksBelow(mem, list, live, own, hp);
    ElsewhereKeeps(mem, mem', list);
    GrowUnits(mem, Blocks(list, live), own, hp, nu);
    assert hp !in Blocks(list, live);
    assert Blocks(list, live[hp := nu]) == Blocks(list, live) + {hp};
    AllocatedMore(mem, list, live, hp, nu);
  }

  lemma AllocatedMore(mem: map<nat, Header>, list: seq<nat>, live: map<nat, nat>, hp: nat, nu: nat)
    requires Allocated(mem, list, live) && BASE < hp && 0 < nu && hp !in list
    requires forall a :: a in Blocks(list, live) ==> a in mem && a < hp
    ensures Allocated(Extended(mem, hp, nu), list, live[hp := nu])
  {
    forall a | a in live ensures a in Blocks(list, live) {
    }
  }

  lemma OldBlocksBelow(mem: map<nat, Header>, list: seq<nat>, live: map<nat, nat>, own: map<nat, nat>, hp: nat)
    requires HeapOk(mem, list, live, own, -1) && BASE < hp && forall u :: u in own ==> u < hp
    ensures forall a :: a in Blocks(list, live) ==> a in mem && a < hp && a + mem[a].size <= hp
  {
    BlocksNonempty(mem, list, live);
    forall a | a in Blocks(list, live) ensures a in mem && a < hp && a + mem[a].size <= hp {
      if a != BASE {
        assert InBlock(mem, a, a) && InBlock(mem, a, a + mem[a].size - 1);
      }
    }
  }

  lemma GrowUnits(mem: map<nat, Header>, blocks: set<nat>, own: map<nat, nat>, hp: nat, nu: nat)
    requires Partition(mem, blocks, own) && BASE < hp && 0 < nu && forall u :: u in own ==> u < hp
    requires forall a :: a in blocks ==> a in mem && a < hp && a + mem[a].size <= hp
    ensures Partition(Extended(mem, hp, nu), blocks + {hp}, OwnExtended(own, hp, nu))
  {
    var mem', own' := Extended(mem, hp, nu), OwnExtended(own, hp, nu);
    forall a: nat, u: nat | a in blocks + {hp} && InBlock(mem', a, u) ensures u in own' && own'[u] == a {
      if a == hp { assert InRegion(u, hp, nu) && u in Region(hp, nu); } else { assert InBlock(mem, a, u); }
    }
    forall u | u in own' ensures own'[u] in blocks + {hp} && InBlock(mem', own'[u], u) {
      if u !in Region(hp, nu) { assert InBlock(mem, own[u], u); }
    }
  }

  lemma Neighbours(mem: map<nat, Header>, list: seq<nat>, live: map<nat, nat>, own: map<nat, nat>, stale: int, k: nat,
                   bp: nat)
    requires HeapOk(mem, list, live, own, stale) && bp in live && Below(list, k, bp)
    ensures k < |list| && bp in mem && mem[bp].size == live[bp] && list[k] in mem && list[k] != bp && list[k] !in live
    ensures list[k] + mem[list[k]].size <= bp
    ensures bp + mem[bp].size == list[Next(|list|, k)] ==>
              && k + 1 < |list| && list[Next(|list|, k)] == list[k + 1] && list[k + 1] in mem && list[k + 1] !in live
              && list[k + 1] != bp && list[k + 1] != list[k]
  {
    FitsBetween(mem, list, live, own, k, bp);
  }

  lemma ReleasedMerge(live: map<nat, nat>, own: map<nat, nat>, bp: nat, up: nat)
    requires bp in live && up !in live
    ensures Released(live, own, live - {bp}, Renamed(own, up, bp), bp)
  {
  }

  lemma ReleasedSame(live: map<nat, nat>, own: map<nat, nat>, bp: nat)
    requires bp in live
    ensures Released(live, own, live - {bp}, own, bp)
  {
  }

  lemma ReleasedInto(live: map<nat, nat>, own: map<nat, nat>, bp: nat, p: nat)
    requires bp in live && p !in live
    ensures Released(live, own, live - {bp}, Renamed(own, bp, p), bp)
  {
  }

  /** Some position is the last one below bp. */
  /** Where a live block belongs. */
  lemma Place(mem: map<nat, Header>, list: seq<nat>, live: map<nat, nat>, own: map<nat, nat>, bp: nat) returns (t: nat)
    requires HeapOk(mem, list, live, own, -1) && bp in live
    ensures Below(list, t, bp)
  {
    t := LastBelow(list, bp);
  }

  /** The two tests that end the search of free. */
  predicate Stops(p: nat, up: nat, bp: nat) { (bp > p && bp < up) || (p >= up && (bp > p || bp < up)) }

  /** The search ends at the place of the block and nowhere else. */
  lemma SearchStep(mem: map<nat, Header>, list: seq<nat>, live: map<nat, nat>, own: map<nat, nat>, t: nat, k: nat,
                   bp: nat)
    requires HeapOk(mem, list, live, own, -1) && bp in live && Below(list, t, bp) && k < |list|
    ensures list[k] in mem && mem[list[k]].ptr == list[Next(|list|, k)]
    ensures Stops(list[k], mem[list[k]].ptr, bp) <==> k == t
  {
    Advance(mem, list, live, own, k);
  }

  lemma LastBelow(list: seq<nat>, bp: nat) returns (t: nat)
    requires 0 < |list| && list[0] < bp && bp !in list
    ensures Below(list, t, bp)
  {
    t := 0;
    while t + 1 < |list| && list[t + 1] < bp
      invariant t < |list| && list[t] < bp
    {
      t := t + 1;
    }
  }
}
