/**
  log.c on top of the buffer cache. Every disk write is recorded in the cache's
  history, so that a contract about all of history is a contract about a crash
  between any two writes. A method returns false where bget would panic for want
  of a buffer; a panic stops the machine, so it is one more crash point.
 */
module Log {
  import opened Basics
  import opened DiskBlocks
  import opened RedoLog
  import opened BufferCache

  class LogDevice {
    const g: Geometry
    const cache: Cache
    const block: array<nat>         // log.lh.block
    var n: nat                      // log.lh.n
    var outstanding: nat
    var committing: bool
    var ncommit: nat

    ghost predicate Shape()
      reads this, block, cache, cache.bufs
    {
      && cache.Valid() && block.Length == LOGBLOCKS && n <= LOGBLOCKS
      && ShapeOk(g, cache.disk, cache.pinned, block[..n])
    }

    /** Whoever has a buffer locked is a reader of some block that the log does not use. */
    ghost predicate Quiet()
      reads this, block, cache, cache.bufs
    {
      && cache.Valid() && block.Length == LOGBLOCKS && n <= LOGBLOCKS
      && QuietOk(g, cache.LockedSet(), block[..n], cache.disk, cache.last, cache.pinned)
    }

    /** The zeroed `log` structure, before recovery has run. */
    constructor (g: Geometry, cache: Cache)
      requires cache.Valid() && Sound(g, cache.disk) && cache.pinned == {}
      ensures this.g == g && this.cache == cache && n == 0 && outstanding == 0 && !committing && ncommit == 0
      ensures fresh(block) && Shape()
    {
      this.g, this.cache := g, cache;
      block := new nat[LOGBLOCKS](i => 0);
      n, outstanding, committing, ncommit := 0, 0, false, 0;
    }

    /** write_head. */
    method WriteHead() returns (ok: bool)
      requires Quiet()
      modifies cache, cache.bufs
      ensures cache.bufs == old(cache.bufs) && cache.Valid() && cache.pinned == old(cache.pinned)
      ensures !ok ==>
                cache.disk == old(cache.disk) && cache.history == old(cache.history) && cache.last == old(cache.last)
      ensures !ok ==> cache.Exhausted()
      ensures ok ==>
                && cache.LockedSet() == old(cache.LockedSet()) && cache.Holding() == old(cache.Holding())
                && cache.disk == old(cache.disk)[g.start := PutHead(old(cache.disk)[g.start], block[..n])]
                && cache.last == old(cache.last)[g.start := cache.disk[g.start]]
                && cache.history == old(cache.history) + [cache.disk]
    {
      hide Cache.Valid, Ring, Coherent, LockedIn, HoldingIn, Undisturbed, HeldIn, QuietOk, PutHead, GoodList;
      QuietFacts(g, cache.LockedSet(), block[..n], cache.disk, cache.last, cache.pinned);
      cache.CleanOnDisk(g.start);
      cache.NotHolding(g.start);
      var r := cache.Bread(g.start);
      if r.None? { return false; }
      var hb := FillHead(cache.bufs[r.value].data);
      cache.Replace(r.value, g.start, hb);
      ok := true;
    }

    /** The copying loop of write_head. */
    method FillHead(old_: Block) returns (hb: Block)
      requires block.Length == LOGBLOCKS && n <= LOGBLOCKS && Uints(block[..n])
      ensures hb == PutHead(old_, block[..n])
    {
      hide SetEntry;
      hb := SetEntry(old_, 0, n);
      var k := 0;
      while k < n
        invariant 0 <= k <= n && hb == PutWords(SetEntry(old_, 0, n), 1, block[..k])
      {
        assert block[..n][k] == block[k] && block[..k + 1][..k] == block[..k];
        hb := SetEntry(hb, 1 + k, block[k]);
        k := k + 1;
      }
    }

    /** One turn of write_log's loop. */
    method CopyOne(t: nat) returns (ok: bool)
      requires Quiet() && t < n && block[t] in cache.pinned
      modifies cache, cache.bufs
      ensures cache.bufs == old(cache.bufs) && cache.Valid() && cache.pinned == old(cache.pinned)
      ensures !ok ==> cache.disk == old(cache.disk) && cache.history == old(cache.history) && cache.Exhausted()
      ensures ok ==>
                && cache.LockedSet() == old(cache.LockedSet()) && cache.Holding() == old(cache.Holding())
                && block[t] < |old(cache.last)|
                && cache.disk == old(cache.disk)[g.Slot(t) := old(cache.last)[block[t]]]
                && cache.last == old(cache.last)[g.Slot(t) := old(cache.last)[block[t]]]
                && cache.history == old(cache.history) + [cache.disk]
    {
      hide Cache.Valid, Ring, Coherent, LockedIn, HoldingIn, Undisturbed, HeldIn, QuietOk, GoodList;
      QuietFacts(g, cache.LockedSet(), block[..n], cache.disk, cache.last, cache.pinned);
      assert block[..n][t] == block[t];
      cache.NotHolding(g.Slot(t));
      cache.NotHolding(block[t]);
      var to, from;
      ok, to, from := cache.BreadTwo(g.Slot(t), block[t]);
      if !ok { return; }
      ghost var data := cache.bufs[from].data;
      cache.CopyThrough(from, block[t], to, g.Slot(t), false);
      assert old(cache.last)[block[t] := data] == old(cache.last);
    }

    /** One turn of install_trans's loop. */
    method InstallOne(t: nat, recovering: bool) returns (ok: bool)
      requires Quiet() && t < n && (!recovering ==> block[t] in cache.pinned)
      modifies cache, cache.bufs
      ensures cache.bufs == old(cache.bufs) && cache.Valid()
      ensures !ok ==> cache.disk == old(cache.disk) && cache.history == old(cache.history) && cache.Exhausted()
      ensures ok ==>
                && cache.LockedSet() == old(cache.LockedSet()) && cache.Holding() == old(cache.Holding())
                && cache.disk == old(cache.disk)[block[t] := old(cache.disk)[g.Slot(t)]]
                && block[t] < |old(cache.last)|
                && cache.last == old(cache.last)[block[t] := old(cache.disk)[g.Slot(t)]]
                && cache.pinned == (if recovering then old(cache.pinned) else old(cache.pinned) - {block[t]})
                && cache.history == old(cache.history) + [cache.disk]
    {
      hide Cache.Valid, Ring, Coherent, LockedIn, HoldingIn, Undisturbed, HeldIn, QuietOk, GoodList;
      QuietFacts(g, cache.LockedSet(), block[..n], cache.disk, cache.last, cache.pinned);
      assert block[..n][t] == block[t];
      cache.CleanOnDisk(g.Slot(t));
      cache.NotHolding(g.Slot(t));
      cache.NotHolding(block[t]);
      var lbuf, dbuf;
      ok, lbuf, dbuf := cache.BreadTwo(g.Slot(t), block[t]);
      if !ok { return; }
      ghost var data := cache.bufs[lbuf].data;
      cache.CopyThrough(lbuf, g.Slot(t), dbuf, block[t], !recovering);
      assert old(cache.last)[g.Slot(t) := data] == old(cache.last);
    }

    /** write_log: fill the slots. A crash meanwhile leaves the contents as they were. */
    method WriteLog(ghost before: map<nat, Block>) returns (ok: bool)
      requires Quiet() && Pins(block[..n], cache.pinned)
      requires Holds(g, cache.disk, before) && Listed(g, cache.disk) == []
      modifies cache, cache.bufs
      ensures cache.bufs == old(cache.bufs) && cache.Valid() && cache.pinned == old(cache.pinned)
      ensures Steady(g, old(cache.history), cache.history, before)
      ensures if ok then cache.LockedSet() == old(cache.LockedSet()) && cache.Holding() == old(cache.Holding())
              else cache.Exhausted()
      ensures ok ==>
                && Quiet() && Holds(g, cache.disk, before) && Listed(g, cache.disk) == []
                && SameHome(g, old(cache.disk), cache.disk) && SameHome(g, old(cache.last), cache.last)
                && Filled(g, cache.disk, cache.last, block[..n], n)
    {
      hide Cache.Valid, Ring, Coherent, LockedIn, HoldingIn, QuietOk, Copying, Listed, Filled;
      ghost var hist0, disk0, last0, locked := cache.history, cache.disk, cache.last, cache.LockedSet();
      ghost var holding := cache.Holding();
      CopyStart(g, locked, block[..n], disk0, last0, cache.pinned, before, hist0);
      var tail := 0;
      while tail < n
        invariant 0 <= tail <= n
        invariant cache.bufs == old(cache.bufs) && Quiet() && cache.pinned == old(cache.pinned)
        invariant cache.LockedSet() == locked && cache.Holding() == holding
        invariant Copying(g, block[..n], cache.disk, cache.last, before, hist0, cache.history, disk0, last0, tail)
      {
        ghost var img, last, hist := cache.disk, cache.last, cache.history;
        CopyStep(g, locked, block[..n], img, last, cache.pinned, before, hist0, hist, disk0, last0, tail);
        assert block[..n][tail] == block[tail] && Pins(block[..n], cache.pinned);
        ok := CopyOne(tail);
        if !ok {
          CopySteady(g, block[..n], img, last, before, hist0, hist, disk0, last0, tail);
          return;
        }
        tail := tail + 1;
      }
      CopySteady(g, block[..n], cache.disk, cache.last, before, hist0, cache.history, disk0, last0, n);
      ok := true;
    }

    /** install_trans: copy every slot home. The contents were fixed when the header was written. */
    method InstallTrans(recovering: bool, ghost home: map<nat, Block>) returns (ok: bool)
      requires Quiet() && (!recovering ==> Pins(block[..n], cache.pinned))
      requires Holds(g, cache.disk, home) && Listed(g, cache.disk) == block[..n]
      modifies cache, cache.bufs
      ensures cache.bufs == old(cache.bufs) && cache.Valid()
      ensures Steady(g, old(cache.history), cache.history, home)
      ensures if ok then cache.LockedSet() == old(cache.LockedSet()) && cache.Holding() == old(cache.Holding())
              else cache.Exhausted()
      ensures ok ==>
                && Quiet() && Holds(g, cache.disk, home) && Listed(g, cache.disk) == block[..n]
                && AllHome(g, cache.disk, block[..n], n)
                && cache.pinned ==
                   (if recovering then old(cache.pinned) else old(cache.pinned) - set b | b in block[..n])
    {
      hide Cache.Valid, Ring, Coherent, LockedIn, HoldingIn, QuietOk, Installing, Listed, AllHome, Firsts;
      ghost var list, hist0, pinned0, locked := block[..n], cache.history, cache.pinned, cache.LockedSet();
      ghost var holding := cache.Holding();
      InstallStart(g, list, cache.disk, pinned0, home, hist0, recovering);
      var tail := 0;
      while tail < n
        invariant 0 <= tail <= n && list == block[..n]
        invariant cache.bufs == old(cache.bufs) && Quiet() && cache.LockedSet() == locked
        invariant cache.Holding() == holding
        invariant Installing(g, list, cache.disk, cache.pinned, home, hist0, cache.history, pinned0, recovering, tail)
      {
        ghost var img, last, hist, pinned := cache.disk, cache.last, cache.history, cache.pinned;
        InstallStep(g, locked, list, img, last, pinned, home, hist0, hist, pinned0, recovering, tail);
        assert list[tail] == block[tail];
        ok := InstallOne(tail, recovering);
        if !ok {
          InstallSteady(g, list, img, pinned, home, hist0, hist, pinned0, recovering, tail);
          return;
        }
        tail := tail + 1;
      }
      InstallSteady(g, list, cache.disk, cache.pinned, home, hist0, cache.history, pinned0, recovering, n);
      ok := true;
    }

    /** The blocks of the current transaction, and they alone, are pinned, and no operation runs during a commit. */
    ghost predicate Consistent()
      reads this, block, cache, cache.bufs
    {
      Shape() && (cache.pinned == set b | b in block[..n]) && (committing ==> outstanding == 0)
    }

    /** commit: whenever the machine stops, the disk means either `before` or `after`,
        and it never goes back from `after`. */
    method Commit(ghost before: map<nat, Block>, ghost after: map<nat, Block>) returns (ok: bool)
      requires Quiet() && Consistent()
      requires Holds(g, cache.disk, before) && Listed(g, cache.disk) == []
      requires forall b: nat | g.Home(b) :: b in after && after[b] == cache.last[b]
      modifies this`n, cache, cache.bufs
      ensures cache.bufs == old(cache.bufs) && cache.Valid()
      ensures Switches(g, old(cache.history), cache.history, before, after)
      ensures if ok then cache.LockedSet() == old(cache.LockedSet()) && cache.Holding() == old(cache.Holding())
              else cache.Exhausted()
      ensures ok ==> Quiet() && Consistent() && n == 0 && Holds(g, cache.disk, after) && Listed(g, cache.disk) == []
      ensures old(n) == 0 ==> ok && cache.history == old(cache.history) && cache.last == old(cache.last)
    {
      ghost var past := cache.history;
      ghost var mid := past;
      if n == 0 {
        NothingLogged(after);
        Joined(g, past, mid, mid, before, after);
        return true;
      }
      ok := WriteLog(before);
      mid := cache.history;
      Joined(g, past, mid, mid, before, after);
      if !ok { return; }
      ghost var img, list := cache.disk, block[..n];
      ReadyToCommit(after, old(cache.last));
      ok := InstallAndErase(img, list, after);
      Joined(g, past, mid, cache.history, before, after);
    }

    /** commit from its first write_head on. */
    method InstallAndErase(ghost img: Image, ghost list: seq<nat>, ghost after: map<nat, Block>) returns (ok: bool)
      requires Quiet() && Consistent() && img == cache.disk && list == block[..n]
      requires forall b: nat | g.Home(b) :: b in after
      requires forall i :: 0 <= i < |list| ==> img[g.Slot(i)] == after[list[i]]
      requires forall b: nat | g.Home(b) && b !in list :: img[b] == after[b]
      modifies this`n, cache, cache.bufs
      ensures cache.bufs == old(cache.bufs) && cache.Valid()
      ensures Steady(g, old(cache.history), cache.history, after)
      ensures if ok then cache.LockedSet() == old(cache.LockedSet()) && cache.Holding() == old(cache.Holding())
              else cache.Exhausted()
      ensures ok ==> Quiet() && Consistent() && n == 0 && Holds(g, cache.disk, after) && Listed(g, cache.disk) == []
    {
      hide Cache.Valid, Ring, Coherent, LockedIn, HoldingIn, QuietOk, Holds, Listed, AllHome, Steady;
      ghost var h0 := cache.history;
      assert Pins(list, cache.pinned);
      ok := CommitPoint(img, list, after);
      if !ok { return; }
      ghost var h1 := cache.history;
      ok := InstallTrans(false, after);
      SteadyTrans(g, h0, h1, cache.history, after);
      if !ok { return; }
      ghost var h2 := cache.history;
      assert cache.pinned == {};
      ok := EraseLog(list, after);
      SteadyTrans(g, h0, h2, cache.history, after);
      if ok { QuietSound(g, cache.LockedSet(), block[..n], cache.disk, cache.last, cache.pinned); }
    }

    /** The header write that commits the transaction. */
    method CommitPoint(ghost img: Image, ghost list: seq<nat>, ghost after: map<nat, Block>) returns (ok: bool)
      requires Quiet() && img == cache.disk && list == block[..n]
      requires forall b: nat | g.Home(b) :: b in after
      requires forall i :: 0 <= i < |list| ==> img[g.Slot(i)] == after[list[i]]
      requires forall b: nat | g.Home(b) && b !in list :: img[b] == after[b]
      modifies cache, cache.bufs
      ensures cache.bufs == old(cache.bufs) && cache.Valid() && cache.pinned == old(cache.pinned)
      ensures Steady(g, old(cache.history), cache.history, after)
      ensures if ok then cache.LockedSet() == old(cache.LockedSet()) && cache.Holding() == old(cache.Holding())
              else cache.Exhausted()
      ensures ok ==> Quiet() && Holds(g, cache.disk, after) && Listed(g, cache.disk) == list
    {
      hide Cache.Valid, Ring, Coherent, LockedIn, HoldingIn, QuietOk, Holds, Sound, Listed, PutHead, Steady;
      QuietFacts(g, cache.LockedSet(), list, img, cache.last, cache.pinned);
      CommitFacts(g, cache.LockedSet(), list, img, cache.last, cache.pinned, after, cache.history);
      ok := WriteHead();
    }

    /** The end of a commit or a recovery: an empty list, written to the header. */
    method EraseLog(ghost list: seq<nat>, ghost home: map<nat, Block>) returns (ok: bool)
      requires Quiet() && Holds(g, cache.disk, home) && Listed(g, cache.disk) == list
      requires AllHome(g, cache.disk, list, |list|)
      modifies this`n, cache, cache.bufs
      ensures cache.bufs == old(cache.bufs) && cache.Valid() && cache.pinned == old(cache.pinned)
      ensures Steady(g, old(cache.history), cache.history, home)
      ensures if ok then cache.LockedSet() == old(cache.LockedSet()) && cache.Holding() == old(cache.Holding())
              else cache.Exhausted()
      ensures ok ==> Quiet() && n == 0 && Holds(g, cache.disk, home) && Listed(g, cache.disk) == []
    {
      hide Cache.Valid, Ring, Coherent, LockedIn, HoldingIn, QuietOk, Holds, Sound, Listed, PutHead, AllHome, Steady;
      ghost var img, last, locked, pinned, hist := cache.disk, cache.last, cache.LockedSet(), cache.pinned,
        cache.history;
      EraseFacts(g, locked, list, block[..n], img, last, pinned, home, hist);
      n := 0;
      assert block[..n] == [];
      ok := WriteHead();
    }

    /** read_head. */
    method ReadHead() returns (ok: bool)
      requires Shape() && cache.LockedSet() == {}
      modifies this`n, block, cache, cache.bufs
      ensures cache.bufs == old(cache.bufs) && cache.Valid() && cache.pinned == old(cache.pinned)
      ensures cache.disk == old(cache.disk) && cache.history == old(cache.history) && cache.last == old(cache.last)
      ensures if ok then Quiet() && cache.LockedSet() == {}
              && block[..n] == Listed(g, cache.disk) else cache.Exhausted()
    {
      hide Cache.Valid, Ring, Coherent, LockedIn, HoldingIn, Undisturbed, HeldIn, GetHead;
      cache.CleanOnDisk(g.start);
      var r := cache.Bread(g.start);
      if r.None? { return false; }
      var hb := cache.bufs[r.value].data;
      CopyHead(hb);
      cache.Brelse(r.value, g.start);
      assert old(cache.last)[g.start := hb] == old(cache.last);
      ok := true;
    }

    /** The copying loop of read_head. */
    method CopyHead(hb: Block)
      requires HeadReadable(hb) && block.Length == LOGBLOCKS
      modifies this`n, block
      ensures n <= LOGBLOCKS && block[..n] == GetHead(hb)
    {
      hide Entry;
      n := Entry(hb, 0);
      var k := 0;
      while k < n
        invariant 0 <= k <= n == Entry(hb, 0) && block[..k] == GetWords(hb, 1, k)
      {
        block[k] := Entry(hb, 1 + k);
        k := k + 1;
      }
    }

    /** recover_from_log: whenever it stops, running it again would give the same contents. */
    method RecoverFromLog(ghost home: map<nat, Block>) returns (ok: bool)
      requires Shape() && cache.LockedSet() == {} && cache.pinned == {} && Holds(g, cache.disk, home)
      requires outstanding == 0 && !committing
      modifies this`n, block, cache, cache.bufs
      ensures cache.bufs == old(cache.bufs) && cache.Valid()
      ensures Steady(g, old(cache.history), cache.history, home)
      ensures !ok ==> cache.Exhausted()
      ensures ok ==> Quiet() && Consistent() && n == 0 && Listed(g, cache.disk) == []
                     && forall b: nat | g.Home(b) :: b in home && cache.disk[b] == home[b]
    {
      ok := ReadHead();
      if !ok { return; }
      ghost var list := block[..n];
      ok := InstallTrans(true, home);
      if !ok { return; }
      ok := EraseLog(list, home);
      if ok {
        forall b: nat | g.Home(b) ensures b in home && cache.disk[b] == home[b] {
          assert Redo(g, cache.disk, b) == home[b];
        }
      }
    }

    /** log_write on a buffer the caller holds; `panics` is the C code's panic. */
    method LogWrite(i: nat, b: nat) returns (panics: bool)
      requires Consistent() && cache.Held(i, b) && g.Home(b)
      modifies this`n, block, cache`pinned, cache.bufs
      ensures panics <==> old(n) >= LOGBLOCKS || outstanding < 1
      ensures Consistent() && cache.Held(i, b) && cache.Holding() == old(cache.Holding())
      ensures panics ==> block[..n] == old(block[..n])
      ensures !panics ==> block[..n] == old(block[..n]) + (if b in old(block[..n]) then [] else [b])
    {
      hide Ring, Coherent, LockedIn, Sound;
      if n >= LOGBLOCKS || outstanding < 1 {
        return true;
      }
      ghost var list := block[..n];
      var k := 0;
      while k < n && block[k] != b
        invariant 0 <= k <= n && b !in block[..k]
      {
        k := k + 1;
      }
      block[k] := b;
      if k == n {
        cache.Bpin(i, b);
        n := n + 1;
        assert block[..n] == list + [b];
      } else {
        assert block[..n] == list && list[k] == b;
      }
      panics := false;
    }

    /** One turn of begin_op's loop; false means the caller must sleep on &log. */
    method TryBegin() returns (admitted: bool)
      requires Consistent()
      modifies this`outstanding
      ensures Consistent()
      ensures admitted <==> !committing && n + (old(outstanding) + 1) * MAXOPBLOCKS <= LOGBLOCKS
      ensures outstanding == old(outstanding) + (if admitted then 1 else 0)
    {
      if committing {
        return false;
      } else if n + (outstanding + 1) * MAXOPBLOCKS > LOGBLOCKS {
        return false;
      } else {
        outstanding := outstanding + 1;
        return true;
      }
    }

    /** end_op: the last operation out commits for all. */
    method EndOp(ghost before: map<nat, Block>, ghost after: map<nat, Block>) returns (panics: bool)
      requires Consistent() && outstanding >= 1
      requires outstanding == 1 ==>
                 && Quiet() && Holds(g, cache.disk, before) && Listed(g, cache.disk) == []
                 && forall b: nat | g.Home(b) :: b in after && after[b] == cache.last[b]
      modifies this, cache, cache.bufs
      ensures cache.bufs == old(cache.bufs) && cache.Valid() && outstanding == old(outstanding) - 1
      ensures Switches(g, old(cache.history), cache.history, before, after)
      ensures panics ==> old(outstanding) == 1 && cache.Exhausted()
      ensures committing <==> panics
      ensures old(outstanding) > 1 ==>
                && Consistent() && cache.history == old(cache.history) && cache.last == old(cache.last)
                && cache.Holding() == old(cache.Holding())
                && ncommit == old(ncommit) && block[..n] == old(block[..n])
      ensures old(outstanding) == 1 && !panics ==>
                && Quiet() && Consistent() && n == 0 && ncommit == old(ncommit) + 1
                && cache.LockedSet() == old(cache.LockedSet()) && cache.Holding() == old(cache.Holding())
                && Holds(g, cache.disk, after) && Listed(g, cache.disk) == []
      ensures old(n) == 0 ==> !panics && cache.history == old(cache.history) && cache.last == old(cache.last)
    {
      outstanding := outstanding - 1;
      Joined(g, cache.history, cache.history, cache.history, before, after);
      if committing {
        return true;
      }
      panics := false;
      if outstanding == 0 {
        committing := true;
        var ok := Commit(before, after);
        if !ok { return true; }
        committing := false;
        ncommit := ncommit + 1;
      }
    }

    lemma NothingLogged(after: map<nat, Block>)
      requires Quiet() && Consistent() && n == 0 && Listed(g, cache.disk) == []
      requires forall b: nat | g.Home(b) :: b in after && after[b] == cache.last[b]
      ensures Holds(g, cache.disk, after)
    {
      forall b: nat | g.Home(b) ensures Redo(g, cache.disk, b) == after[b] {
        if b !in cache.LockedSet() { cache.CleanOnDisk(b); }
      }
    }

    /** After write_log, header and slots together are ready to mean `after`. */
    lemma ReadyToCommit(after: map<nat, Block>, last0: Image)
      requires Quiet() && Consistent() && Filled(g, cache.disk, cache.last, block[..n], n)
      requires SameHome(g, last0, cache.last)
      requires forall b: nat | g.Home(b) :: b in after && after[b] == last0[b]
      ensures forall i :: 0 <= i < n ==> cache.disk[g.Slot(i)] == after[block[..n][i]]
      ensures forall b: nat | g.Home(b) && b !in block[..n] :: cache.disk[b] == after[b]
    {
      forall b: nat | g.Home(b) && b !in block[..n] ensures cache.disk[b] == after[b] {
        if b !in cache.LockedSet() { cache.CleanOnDisk(b); }
      }
    }
  }

  /** The list could have been logged, the disk can be recovered, and only home blocks are pinned. */
  predicate ShapeOk(g: Geometry, disk: Image, pinned: set<nat>, list: seq<nat>) {
    Sound(g, disk) && GoodList(g, list) && forall b :: b in pinned ==> g.Home(b)
  }

  predicate QuietOk(g: Geometry, locked: set<nat>, list: seq<nat>, disk: Image, last: Image, pinned: set<nat>) {
    ShapeOk(g, disk, pinned, list) && |last| == |disk| && Bystanders(g, locked, list, disk, last)
  }

  lemma QuietFacts(g: Geometry, locked: set<nat>, list: seq<nat>, disk: Image, last: Image, pinned: set<nat>)
    requires QuietOk(g, locked, list, disk, last, pinned)
    ensures Fits(g, disk) && |last| == |disk| && g.start < |disk| && g.start !in locked && g.start !in pinned
    ensures GoodList(g, list) && Uints(list)
    ensures forall t: nat :: t < LOGBLOCKS ==> g.Slot(t) < |disk| && g.Slot(t) !in locked && g.Slot(t) !in pinned
    ensures forall i :: 0 <= i < |list| ==>
              list[i] < |disk| && list[i] !in locked && !(g.start <= list[i] <= g.start + LOGBLOCKS)
  {
    hide HeadReadable, GetHead;
  }

  /** A write of the log, to one of its own blocks or a listed one, leaves the readers in peace. */
  lemma StillQuiet(g: Geometry, locked: set<nat>, list: seq<nat>, list': seq<nat>, disk: Image, last: Image,
                   pinned: set<nat>, pinned': set<nat>, b: nat, data: Block)
    requires QuietOk(g, locked, list, disk, last, pinned) && pinned' <= pinned && (list' == list || list' == [])
    requires b < |disk| && b !in locked && Sound(g, disk[b := data])
    ensures QuietOk(g, locked, list', disk[b := data], last[b := data], pinned')
  {
    hide HeadReadable, GetHead;
  }

  /** The locked blocks are home blocks outside the list, and their holders have not written the disk. */
  predicate Bystanders(g: Geometry, locked: set<nat>, list: seq<nat>, disk: Image, last: Image) {
    forall b :: b in locked ==> g.Home(b) && b !in list && b < |disk| && b < |last| && disk[b] == last[b]
  }

  /** `hist` continues `past`; its images mean `before` up to some point and `after` from there on. */
  ghost predicate Switches(g: Geometry, past: seq<Image>, hist: seq<Image>, before: map<nat, Block>, after: map<nat,
                           Block>) {
    && past <= hist
    && exists c :: |past| <= c <= |hist| && SwitchesAt(g, |past|, c, hist, before, after)
  }

  ghost predicate SwitchesAt(g: Geometry, from: nat, c: nat, hist: seq<Image>, before: map<nat, Block>, after: map<nat,
                             Block>) {
    && (forall k :: from <= k < c && k < |hist| ==> Holds(g, hist[k], before))
    && (forall k :: c <= k < |hist| ==> Holds(g, hist[k], after))
  }

  lemma Joined(g: Geometry, past: seq<Image>, mid: seq<Image>, hist: seq<Image>, before: map<nat, Block>,
               after: map<nat, Block>)
    requires Steady(g, past, mid, before) && Steady(g, mid, hist, after)
    ensures Switches(g, past, hist, before, after)
  {
    assert SwitchesAt(g, |past|, |mid|, hist, before, after);
  }

  /** What the header write of EraseLog will do. */
  lemma EraseFacts(g: Geometry, locked: set<nat>, list: seq<nat>, block: seq<nat>, img: Image, last: Image,
                   pinned: set<nat>, home: map<nat, Block>, hist: seq<Image>)
    requires Holds(g, img, home) && Listed(g, img) == list && AllHome(g, img, list, |list|)
    requires QuietOk(g, locked, block, img, last, pinned)
    ensures g.start < |img| && g.start < |last| && Steady(g, hist, hist, home)
    ensures QuietOk(g, locked, [], img, last, pinned)
    ensures var blk := PutHead(img[g.start], []);
            var img' := img[g.start := blk];
            && Holds(g, img', home) && Sound(g, img') && Listed(g, img') == [] && Steady(g, hist, hist + [img'], home)
            && QuietOk(g, locked, [], img', last[g.start := blk], pinned)
  {
    hide Holds, Listed, PutHead, AllHome, QuietOk, Sound, GoodList, Steady;
    Erased(g, img, list, home);
    QuietFacts(g, locked, block, img, last, pinned);
    var img' := img[g.start := PutHead(img[g.start], [])];
    HoldsSound(g, img', home);
    SteadyNone(g, hist, home);
    SteadyMore(g, hist, hist, img', home);
    StillQuiet(g, locked, block, [], img, last, pinned, pinned, g.start, PutHead(img[g.start], []));
    FewerListed(g, locked, block, img, last, pinned);
  }

  lemma SteadyTrans(g: Geometry, a: seq<Image>, b: seq<Image>, c: seq<Image>, home: map<nat, Block>)
    requires Steady(g, a, b, home) && Steady(g, b, c, home)
    ensures Steady(g, a, c, home)
  {
    hide Holds;
  }

  lemma SteadyNone(g: Geometry, hist: seq<Image>, home: map<nat, Block>)
    ensures Steady(g, hist, hist, home)
  {
  }

  lemma Erased(g: Geometry, img: Image, list: seq<nat>, home: map<nat, Block>)
    requires Holds(g, img, home) && Listed(g, img) == list && AllHome(g, img, list, |list|)
    ensures g.start < |img|
    ensures var img' := img[g.start := PutHead(img[g.start], [])];
            Holds(g, img', home) && Listed(g, img') == []
  {
    EraseKeeps(g, img, home);
    hide Redo, HeadReadable, GetHead, PutHead;
  }

  lemma QuietSound(g: Geometry, locked: set<nat>, list: seq<nat>, disk: Image, last: Image, pinned: set<nat>)
    requires QuietOk(g, locked, list, disk, last, pinned)
    ensures Sound(g, disk) && ShapeOk(g, disk, pinned, list)
  {
  }

  lemma FewerListed(g: Geometry, locked: set<nat>, list: seq<nat>, disk: Image, last: Image, pinned: set<nat>)
    requires QuietOk(g, locked, list, disk, last, pinned)
    ensures QuietOk(g, locked, [], disk, last, pinned)
  {
    hide HeadReadable, GetHead;
  }

  /** What the header write of CommitPoint will do. */
  lemma CommitFacts(g: Geometry, locked: set<nat>, list: seq<nat>, img: Image, last: Image, pinned: set<nat>,
                    after: map<nat, Block>, hist: seq<Image>)
    requires QuietOk(g, locked, list, img, last, pinned) && |img| == |last| && Fits(g, img)
    requires |list| <= LOGBLOCKS && forall i :: 0 <= i < |list| ==> list[i] in after && g.Slot(i) < |img|
    requires forall b: nat | g.Home(b) :: b in after
    requires forall i :: 0 <= i < |list| ==> img[g.Slot(i)] == after[list[i]]
    requires forall b: nat | g.Home(b) && b !in list :: img[b] == after[b]
    ensures Uints(list) && Steady(g, hist, hist, after)
    ensures var blk := PutHead(img[g.start], list);
            var img' := img[g.start := blk];
            && Holds(g, img', after) && Sound(g, img') && Listed(g, img') == list
            && Steady(g, hist, hist + [img'], after) && QuietOk(g, locked, list, img', last[g.start := blk], pinned)
  {
    hide Holds, Listed, PutHead, QuietOk, Steady;
    QuietFacts(g, locked, list, img, last, pinned);
    QuietSound(g, locked, list, img, last, pinned);
    HeadWriteCommits(g, img, list, after);
    var img' := img[g.start := PutHead(img[g.start], list)];
    HoldsSound(g, img', after);
    SteadyNone(g, hist, after);
    SteadyMore(g, hist, hist, img', after);
    StillQuiet(g, locked, list, list, img, last, pinned, pinned, g.start, PutHead(img[g.start], list));
  }

  /** write_log after t slots: the contents are still `before`, and the first t slots are filled. */
  ghost predicate Copying(g: Geometry, list: seq<nat>, disk: Image, last: Image, before: map<nat, Block>,
                          past: seq<Image>, hist: seq<Image>, disk0: Image, last0: Image, t: nat)
  {
    && Holds(g, disk, before) && Listed(g, disk) == [] && Steady(g, past, hist, before)
    && SameHome(g, disk0, disk) && SameHome(g, last0, last) && Filled(g, disk, last, list, t)
  }

  lemma CopyStart(g: Geometry, locked: set<nat>, list: seq<nat>, disk: Image, last: Image, pinned: set<nat>,
                  before: map<nat, Block>, hist: seq<Image>)
    requires QuietOk(g, locked, list, disk, last, pinned) && Holds(g, disk, before) && Listed(g, disk) == []
    ensures Copying(g, list, disk, last, before, hist, hist, disk, last, 0)
  {
    QuietFacts(g, locked, list, disk, last, pinned);
    hide QuietOk, Holds, Listed, GoodList;
  }

  lemma CopyStep(g: Geometry, locked: set<nat>, list: seq<nat>, disk: Image, last: Image, pinned: set<nat>,
                 before: map<nat, Block>, past: seq<Image>, hist: seq<Image>, disk0: Image, last0: Image, t: nat)
    requires QuietOk(g, locked, list, disk, last, pinned) && t < |list| <= LOGBLOCKS
    requires Copying(g, list, disk, last, before, past, hist, disk0, last0, t)
    ensures g.Slot(t) < |disk| == |last| && list[t] < |last|
    ensures var data := last[list[t]];
            var disk', last' := disk[g.Slot(t) := data], last[g.Slot(t) := data];
            && QuietOk(g, locked, list, disk', last', pinned)
            && Copying(g, list, disk', last', before, past, hist + [disk'], disk0, last0, t + 1)
  {
    QuietFacts(g, locked, list, disk, last, pinned);
    hide QuietOk, Holds, GoodList, SameHome, Filled, Steady, HeadReadable, GetHead, Fits;
    var data := last[list[t]];
    var disk' := disk[g.Slot(t) := data];
    SlotWriteKeeps(g, disk, t, data, before);
    HoldsSound(g, disk', before);
    SteadyMore(g, past, hist, disk', before);
    FilledMore(g, disk, last, list, t, data);
    SameHomeMore(g, disk0, disk, t, data);
    SameHomeMore(g, last0, last, t, data);
    StillQuiet(g, locked, list, list, disk, last, pinned, pinned, g.Slot(t), data);
  }

  lemma HoldsSound(g: Geometry, img: Image, home: map<nat, Block>)
    requires Holds(g, img, home)
    ensures Sound(g, img)
  {
  }

  lemma SameHomeMore(g: Geometry, a: Image, b: Image, t: nat, data: Block)
    requires SameHome(g, a, b) && t < LOGBLOCKS && g.Slot(t) < |b|
    ensures SameHome(g, a, b[g.Slot(t) := data])
  {
  }

  lemma CopySteady(g: Geometry, list: seq<nat>, disk: Image, last: Image, before: map<nat, Block>, past: seq<Image>,
                   hist: seq<Image>, disk0: Image, last0: Image, t: nat)
    requires Copying(g, list, disk, last, before, past, hist, disk0, last0, t)
    ensures Steady(g, past, hist, before) && Holds(g, disk, before) && Sound(g, disk) && Listed(g, disk) == []
    ensures SameHome(g, disk0, disk) && SameHome(g, last0, last) && Filled(g, disk, last, list, t)
  {
    hide Steady, SameHome, Filled, Listed;
  }

  /** install_trans after t blocks: the contents are still `home`, and the first t blocks are home. */
  ghost predicate Installing(g: Geometry, list: seq<nat>, disk: Image, pinned: set<nat>, home: map<nat, Block>,
                             past: seq<Image>, hist: seq<Image>, pinned0: set<nat>, recovering: bool, t: nat)
  {
    && Holds(g, disk, home) && Listed(g, disk) == list && Steady(g, past, hist, home)
    && AllHome(g, disk, list, t) && t <= |list|
    && pinned == (if recovering then pinned0 else pinned0 - Firsts(list, t))
    && (recovering || Pins(list, pinned0))
  }

  lemma InstallStart(g: Geometry, list: seq<nat>, disk: Image, pinned: set<nat>, home: map<nat, Block>,
                     hist: seq<Image>, recovering: bool)
    requires Holds(g, disk, home) && Listed(g, disk) == list && (recovering || Pins(list, pinned))
    ensures Installing(g, list, disk, pinned, home, hist, hist, pinned, recovering, 0)
  {
    hide HeadReadable, GetHead, Pins, Redo;
    assert pinned - Firsts(list, 0) == pinned;
  }

  lemma InstallStep(g: Geometry, locked: set<nat>, list: seq<nat>, disk: Image, last: Image, pinned: set<nat>,
                    home: map<nat, Block>, past: seq<Image>, hist: seq<Image>, pinned0: set<nat>, recovering: bool,
                      t: nat)
    requires QuietOk(g, locked, list, disk, last, pinned) && t < |list| <= LOGBLOCKS
    requires Installing(g, list, disk, pinned, home, past, hist, pinned0, recovering, t)
    ensures g.Slot(t) < |disk| == |last| && list[t] < |disk| && (recovering || list[t] in pinned)
    ensures var data := disk[g.Slot(t)];
            var disk', last' := disk[list[t] := data], last[list[t] := data];
            var pinned' := if recovering then pinned else pinned - {list[t]};
            && QuietOk(g, locked, list, disk', last', pinned')
            && Installing(g, list, disk', pinned', home, past, hist + [disk'], pinned0, recovering, t + 1)
  {
    QuietFacts(g, locked, list, disk, last, pinned);
    FirstsMore(list, t);
    assert recovering || list[t] in pinned0;
    hide QuietOk, Holds, GoodList, AllHome, Steady, HeadReadable, GetHead, Fits, Firsts, Pins;
    var data := disk[g.Slot(t)];
    var disk' := disk[list[t] := data];
    var pinned' := if recovering then pinned else pinned - {list[t]};
    InstallKeeps(g, disk, t, home);
    HoldsSound(g, disk', home);
    SteadyMore(g, past, hist, disk', home);
    AllHomeMore(g, disk, list, t);
    assert !recovering ==> pinned' == pinned0 - Firsts(list, t + 1);
    StillQuiet(g, locked, list, list, disk, last, pinned, pinned', list[t], data);
  }

  lemma InstallSteady(g: Geometry, list: seq<nat>, disk: Image, pinned: set<nat>, home: map<nat, Block>,
                      past: seq<Image>, hist: seq<Image>, pinned0: set<nat>, recovering: bool, t: nat)
    requires Installing(g, list, disk, pinned, home, past, hist, pinned0, recovering, t)
    ensures Steady(g, past, hist, home) && Holds(g, disk, home) && Sound(g, disk) && Listed(g, disk) == list
    ensures AllHome(g, disk, list, t)
    ensures t == |list| ==> pinned == (if recovering then pinned0 else pinned0 - set b | b in list)
  {
    FirstsAll(list);
    hide Steady, AllHome, Listed, Pins;
  }

  function Firsts(list: seq<nat>, n: nat): set<nat>
    requires n <= |list|
  {
    set i | 0 <= i < n :: list[i]
  }

  lemma FirstsMore(list: seq<nat>, n: nat)
    requires n < |list| && Distinct(list)
    ensures Firsts(list, n + 1) == Firsts(list, n) + {list[n]} && list[n] !in Firsts(list, n)
  {
  }

  lemma FirstsAll(list: seq<nat>)
    ensures Firsts(list, |list|) == set b | b in list
  {
  }

  /** The first n listed blocks are home. */
  predicate AllHome(g: Geometry, disk: Image, list: seq<nat>, n: nat) {
    && Fits(g, disk) && GoodList(g, list) && n <= |list|
    && forall i :: 0 <= i < n ==> disk[list[i]] == disk[g.Slot(i)]
  }

  lemma AllHomeMore(g: Geometry, disk: Image, list: seq<nat>, n: nat)
    requires AllHome(g, disk, list, n) && n < |list|
    ensures AllHome(g, disk[list[n] := disk[g.Slot(n)]], list, n + 1)
  {
  }

  /** Every listed block is pinned. */
  predicate Pins(list: seq<nat>, pinned: set<nat>) {
    forall i :: 0 <= i < |list| ==> list[i] in pinned
  }

  /** `hist` continues `past`, and every later disk image recovers to `home`. */
  ghost predicate Steady(g: Geometry, past: seq<Image>, hist: seq<Image>, home: map<nat, Block>) {
    past <= hist && forall k :: |past| <= k < |hist| ==> Holds(g, hist[k], home)
  }

  lemma SteadyMore(g: Geometry, past: seq<Image>, hist: seq<Image>, img: Image, home: map<nat, Block>)
    requires Steady(g, past, hist, home) && Holds(g, img, home)
    ensures Steady(g, past, hist + [img], home)
  {
  }

  ghost predicate SameHome(g: Geometry, a: Image, b: Image) {
    |a| == |b| == g.size && forall h: nat | g.Home(h) :: a[h] == b[h]
  }

  predicate Filled(g: Geometry, disk: Image, last: Image, list: seq<nat>, n: nat)
  {
    && Fits(g, disk) && Fits(g, last) && GoodList(g, list) && n <= |list|
    && forall i :: 0 <= i < n ==> disk[g.Slot(i)] == last[list[i]]
  }

  lemma FilledMore(g: Geometry, disk: Image, last: Image, list: seq<nat>, n: nat, data: Block)
    requires Filled(g, disk, last, list, n) && n < |list| && data == last[list[n]]
    ensures Filled(g, disk[g.Slot(n) := data], last[g.Slot(n) := data], list, n + 1)
  {
  }
}
