/** Fixed-size memory pools on their control blocks (kernel/mempfix.c): the free list runs through an
    array of indices, in which blocks that are in use carry a mark. */
module MemoryPoolCB {
  import opened Types
  import opened Seqs
  import opened TaskQueues
  import opened Core
  import T = TaskCalls
  import W = WaitQueues
  import opened MemoryPool
  import opened TaskScheduler
  import opened KernelState

  const INDEX_NULL: nat := 0xffff_ffff
  const INDEX_ALLOC: nat := 0xffff_fffe

  function Next(s: seq<nat>, k: nat): nat { if k < |s| then s[k] else INDEX_NULL }

  /** The free list starting at freelist is s. */
  ghost predicate FreeList(a: seq<nat>, freelist: nat, s: seq<nat>) {
    && freelist == Next(s, 0)
    && (forall k :: 0 <= k < |s| ==> s[k] < |a| && s[k] < INDEX_ALLOC && a[s[k]] == Next(s, k + 1))
  }

  /** Below unused exactly the blocks that are not in the free list are marked. */
  ghost predicate Marked(a: seq<nat>, unused: nat, s: seq<nat>) {
    unused <= |a| && forall b: nat :: b < unused ==> (a[b] == INDEX_ALLOC <==> b !in s)
  }

  lemma Pop(a: seq<nat>, freelist: nat, unused: nat, s: seq<nat>)
    requires FreeList(a, freelist, s) && Marked(a, unused, s) && NoDup(s) && s != [] && unused <= |a|
    ensures freelist == s[0] < |a|
    ensures FreeList(a[s[0] := INDEX_ALLOC], a[s[0]], s[1..]) && Marked(a[s[0] := INDEX_ALLOC], unused, s[1..])
  {
    assert s == [s[0]] + s[1..];
    var a' := a[s[0] := INDEX_ALLOC];
    forall k | 0 <= k < |s[1..]|
      ensures a'[s[1..][k]] == Next(s[1..], k + 1)
    {
      assert s[1..][k] == s[k + 1] && s[k + 1] != s[0];
    }
  }

  lemma Push(a: seq<nat>, freelist: nat, unused: nat, s: seq<nat>, b: nat)
    requires FreeList(a, freelist, s) && Marked(a, unused, s) && b < unused <= |a| && b !in s && b < INDEX_ALLOC
    ensures FreeList(a[b := freelist], b, [b] + s) && Marked(a[b := freelist], unused, [b] + s)
  {
    var a', s' := a[b := freelist], [b] + s;
    forall k | 0 <= k < |s'| ensures a'[s'[k]] == Next(s', k + 1) {
      if k > 0 { assert s'[k] == s[k - 1] && s[k - 1] in s; }
    }
    assert freelist != INDEX_ALLOC;
    forall x: nat | x < unused ensures a'[x] == INDEX_ALLOC <==> x !in s' {
      if x != b { assert x in s' <==> x in s; }
    }
  }

  lemma Grow(a: seq<nat>, freelist: nat, unused: nat)
    requires FreeList(a, freelist, []) && Marked(a, unused, []) && unused < |a|
    ensures FreeList(a[unused := INDEX_ALLOC], freelist, []) && Marked(a[unused := INDEX_ALLOC], unused + 1, [])
  {
  }

  /** What the head of the free list tells. */
  lemma HeadTells(a: seq<nat>, freelist: nat, s: seq<nat>)
    requires FreeList(a, freelist, s)
    ensures freelist == INDEX_NULL <==> s == []
  {
  }

  /** A block that was never used exists while blocks are counted free and the free list is empty. */
  lemma Bounds(m: Mpf)
    requires PoolOk(m)
    ensures m.unused <= m.blkcnt && NoDup(m.free) && m.blksz > 0
    ensures m.free == [] && FreeCount(m) > 0 ==> m.unused < m.blkcnt
  {
  }

  lemma ValidIndex(m: Mpf, blk: nat)
    requires PoolOk(m) && ValidBlock(m, blk)
    ensures m.base <= blk && (blk - m.base) / m.blksz < m.unused <= m.blkcnt && (blk - m.base) / m.blksz !in m.free
  {
  }

  class MPFCB {
    const i: nat
    const blkcnt: nat
    const blksz: nat
    const mpf: nat
    const p_mpfmb: array<nat>
    var fblkcnt: nat
    var unused: nat
    var freelist: nat
    ghost var free: seq<nat>
    ghost var owner: map<nat, Tid>

    ghost function View(): Mpf
      reads this
    {
      Mpf(blkcnt, blksz, mpf, unused, free, owner)
    }

    ghost predicate Valid()
      reads this, p_mpfmb
    {
      && PoolOk(View()) && p_mpfmb.Length == blkcnt <= INDEX_ALLOC
      && fblkcnt == FreeCount(View())
      && FreeList(p_mpfmb[..], freelist, free) && Marked(p_mpfmb[..], unused, free)
    }

    constructor (i: nat, blkcnt: nat, blksz: nat, mpf: nat)
      requires blksz > 0 && blkcnt <= INDEX_ALLOC
      ensures Valid() && fresh(p_mpfmb) && this.i == i && View() == Mpf(blkcnt, blksz, mpf, 0, [], map[])
    {
      this.i, this.blkcnt, this.blksz, this.mpf := i, blkcnt, blksz, mpf;
      p_mpfmb := new nat[blkcnt](_ => 0);
      fblkcnt, unused, freelist := blkcnt, 0, INDEX_NULL;
      free, owner := [], map[];
    }

    /** get_mpf_block, for task t. */
    method GetMpfBlock(ghost t: Tid) returns (blk: nat)
      requires Valid() && fblkcnt > 0
      modifies this`fblkcnt, this`unused, this`freelist, this`free, this`owner, p_mpfmb
      ensures Valid() && View() == GetBlock(old(View()), t) && blk == Address(old(View()), NextBlock(old(View())))
    {
      hide PoolOk, FreeList, Marked, InUse;
      GetBlockExclusive(View(), t);
      Bounds(View());
      ghost var a := p_mpfmb[..];
      HeadTells(a, freelist, free);
      var blkidx: nat;
      if freelist != INDEX_NULL {
        Pop(a, freelist, unused, free);
        blkidx := freelist;
        freelist := p_mpfmb[blkidx];
        free := free[1..];
      } else {
        Grow(a, freelist, unused);
        blkidx := unused;
        unused := unused + 1;
      }
      blk := mpf + blksz * blkidx;
      fblkcnt := fblkcnt - 1;
      p_mpfmb[blkidx] := INDEX_ALLOC;
      owner := owner[blkidx := t];
      assert p_mpfmb[..] == a[blkidx := INDEX_ALLOC];
    }

    /** The parameter checks of rel_mpf. */
    method CheckBlock(blk: nat) returns (ok: bool, blkidx: nat)
      requires Valid()
      ensures ok <==> ValidBlock(View(), blk)
      ensures ok ==> blkidx == (blk - mpf) / blksz < unused
    {
      hide FreeList;
      Bounds(View());
      if !(mpf <= blk) {
        return false, 0;
      }
      var blkoffset: nat := blk - mpf;
      if blkoffset % blksz != 0 {
        return false, 0;
      }
      Quotient(blkoffset, blksz);
      if !(blkoffset / blksz < unused) {
        return false, 0;
      }
      blkidx := blkoffset / blksz;
      ok := p_mpfmb[blkidx] == INDEX_ALLOC;
    }

    lemma Quotient(x: nat, d: nat)
      requires d > 0
      ensures 0 <= x / d
    {
    }

    /** The block goes to the free list. */
    method Release(blk: nat, blkidx: nat)
      requires Valid() && ValidBlock(View(), blk) && blkidx == (blk - mpf) / blksz
      modifies this`fblkcnt, this`freelist, this`free, this`owner, p_mpfmb
      ensures Valid() && View() == old(View()).(free := [blkidx] + old(free), owner := old(owner) - {blkidx})
    {
      hide PoolOk, FreeList, Marked, ValidBlock;
      ReleaseFrees(View(), blk);
      ValidIndex(View(), blk);
      ghost var a := p_mpfmb[..];
      Push(a, freelist, unused, free, blkidx);
      fblkcnt := fblkcnt + 1;
      p_mpfmb[blkidx] := freelist;
      freelist := blkidx;
      free, owner := [blkidx] + free, owner - {blkidx};
      assert p_mpfmb[..] == a[blkidx := old(freelist)];
    }

    /** The reinitialisation by ini_mpf. */
    method Reset()
      requires Valid()
      modifies this
      ensures Valid() && View() == old(View()).(unused := 0, free := [], owner := map[])
    {
      fblkcnt, unused, freelist := blkcnt, 0, INDEX_NULL;
      free, owner := [], map[];
    }

    /** get_mpf, pget_mpf and tget_mpf. */
    method GetMpf(k: Kernel, p: Patience) returns (ercd: ER, blk: nat)
      requires Valid() && k.Valid() && Inv(k.g, k.View()) && MpfQ(i) in k.wqs && T.TmoType(p)
      modifies this, p_mpfmb, k.s, k.s.links, k.h, k.h.tmevt_heap
      ensures Valid() && k.Valid() && T.RunsTask(old(k.View()))
      ensures (k.View(), View(), ercd, blk) == MemoryPool.GetMpf(k.g, old(k.View()), old(View()), i, p)
    {
      hide Kernel.Valid, Good, Block, PoolOk, FreeList, Marked, GetBlock, NextBlock;
      if !(k.nest == 0 && k.s.p_runtsk.Some? && (p.Tmo? ==> k.s.dspflg)) {
        return E_CTX, 0;
      }
      if !T.TmoOk(p) {
        return E_PAR, 0;
      }
      if fblkcnt > 0 {
        blk := GetMpfBlock(k.s.p_runtsk.value);
        return E_OK, blk;
      } else if p.Polling? || p.tmo == TMO_POL {
        return E_TMOUT, 0;
      }
      k.Sleep(Obj(MpfQ(i)), NoData, T.TimerOf(p));
      ercd, blk := BLOCKED, 0;
    }

    /** rel_mpf, its checks and its effect as one step. */
    method RelMpf(k: Kernel, blk: nat) returns (ercd: ER)
      requires Valid() && k.Valid() && Inv(k.g, k.View()) && MpfQ(i) in k.wqs
      modifies this, p_mpfmb, k.s, k.s.links, k.h, k.h.tmevt_heap
      ensures blksz > 0 && Valid() && k.Valid() && W.QueueOk(old(k.View()), MpfQ(i))
      ensures (k.View(), View(), ercd) == MemoryPool.RelMpf(k.g, old(k.View()), old(View()), i, blk)
    {
      hide Kernel.Valid, Linked, Sorted, TimeInv, TaskTimers, Top, Wake, ValidBlock, FreeList, Marked;
      W.WaitersAreWaiting(k.View(), MpfQ(i));
      if !(k.nest == 0 && k.s.p_runtsk.Some?) {
        return E_CTX;
      }
      var ok, blkidx := CheckBlock(blk);
      if !ok {
        return E_PAR;
      }
      var empty := k.QueueEmpty(MpfQ(i));
      if !empty {
        ghost var c := k.View();
        var t, req := k.WakeFirst(MpfQ(i), E_OK, Some(BlkData(blk)));
        k.Settle(req);
        HandOver(View(), blk, t);
        owner := owner[blkidx := t];
      } else {
        Release(blk, blkidx);
      }
      ercd := E_OK;
    }

    /** ini_mpf. */
    method IniMpf(k: Kernel) returns (ercd: ER)
      requires Valid() && k.Valid() && Inv(k.g, k.View()) && MpfQ(i) in k.wqs
      modifies this, k.s, k.s.links, k.h, k.h.tmevt_heap
      ensures Valid() && k.Valid() && W.QueueOk(old(k.View()), MpfQ(i))
      ensures (k.View(), View(), ercd) == MemoryPool.IniMpf(k.g, old(k.View()), old(View()), i)
    {
      hide Kernel.Valid, Good, Valid;
      GoodQueue(k.g, k.View(), MpfQ(i));
      if !(k.nest == 0 && k.s.p_runtsk.Some?) {
        return E_CTX;
      }
      var dspreq := k.InitWaitQueue(MpfQ(i));
      Reset();
      k.Settle(dspreq);
      ercd := E_OK;
    }
  }
}
