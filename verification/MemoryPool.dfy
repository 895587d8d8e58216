/** Fixed-size memory pools (kernel/mempfix.c). */
module MemoryPool {
  import opened Types
  import opened Seqs
  import opened TaskQueues
  import opened Core
  import opened CoreProofs
  import opened TaskCalls
  import opened TaskCallProofs
  import opened WaitQueues

  /** Blocks from unused on were never handed out; free lists the indices of the returned blocks,
      last returned first.  owner tells, as history, which task got each block that is in use. */
  datatype Mpf = Mpf(blkcnt: nat, blksz: nat, base: nat, unused: nat, free: seq<nat>, owner: map<nat, Tid>)

  predicate InUse(m: Mpf, b: nat) { b < m.unused && b !in m.free }

  function FreeCount(m: Mpf): int { m.blkcnt - m.unused + |m.free| }

  function Address(m: Mpf, b: nat): nat { m.base + m.blksz * b }

  // ----- transitions -----

  /** The index that get_mpf_block takes. */
  function NextBlock(m: Mpf): nat { if m.free != [] then m.free[0] else m.unused }

  function GetBlock(m: Mpf, t: Tid): Mpf {
    var b := NextBlock(m);
    if m.free != [] then m.(free := m.free[1..], owner := m.owner[b := t])
    else m.(unused := m.unused + 1, owner := m.owner[b := t])
  }

  /** get_mpf, pget_mpf, tget_mpf; the last component is the address of the block. */
  function GetMpf(g: Config, c: Core, m: Mpf, i: nat, p: Patience): (Core, Mpf, ER, nat)
    requires RunsTask(c)
  {
    if !(if p.Polling? then InTask(c) else MayBlock(c)) then (c, m, E_CTX, 0)
    else if !TmoOk(p) then (c, m, E_PAR, 0)
    else if FreeCount(m) > 0 then (c, GetBlock(m, c.run.value), E_OK, Address(m, NextBlock(m)))
    else if p.Polling? || p.tmo == TMO_POL then (c, m, E_TMOUT, 0)
    else (Block(g, c, Obj(MpfQ(i)), NoData, TimerOf(p)), m, BLOCKED, 0)
  }

  /** The checks of rel_mpf, from the first byte of the pool to the mark of the block. */
  predicate ValidBlock(m: Mpf, blk: nat)
    requires m.blksz > 0
  {
    && m.base <= blk
    && (blk - m.base) % m.blksz == 0
    && (blk - m.base) / m.blksz < m.unused
    && (blk - m.base) / m.blksz !in m.free
  }

  /** rel_mpf: a waiting task gets the block at once. */
  function RelMpf(g: Config, c: Core, m: Mpf, i: nat, blk: nat): (Core, Mpf, ER)
    requires m.blksz > 0 && QueueOk(c, MpfQ(i))
  {
    if !InTask(c) then (c, m, E_CTX)
    else if !ValidBlock(m, blk) then (c, m, E_PAR)
    else
      var b := (blk - m.base) / m.blksz;
      if WaitQ(c, MpfQ(i)) != [] then
        var t := WaitQ(c, MpfQ(i))[0];
        var c1 := Wake(g, c, t, E_OK, BlkData(blk));
        (Finish(c1, Req(c, c1)), m.(owner := m.owner[b := t]), E_OK)
      else (c, m.(free := [b] + m.free, owner := m.owner - {b}), E_OK)
  }

  function IniMpf(g: Config, c: Core, m: Mpf, i: nat): (Core, Mpf, ER)
    requires QueueOk(c, MpfQ(i))
  {
    if !InTask(c) then (c, m, E_CTX)
    else
      var (c1, req) := WakeAll(g, c, WaitQ(c, MpfQ(i)), E_DLT);
      (Finish(c1, req), m.(unused := 0, free := [], owner := map[]), E_OK)
  }

  // ----- invariant -----

  ghost predicate PoolOk(m: Mpf) {
    && m.blksz > 0
    && m.unused <= m.blkcnt
    && NoDup(m.free) && (forall k :: 0 <= k < |m.free| ==> m.free[k] < m.unused)
    && (forall b: nat :: b in m.owner <==> InUse(m, b))
  }

  /** The free list is a set of distinct blocks below unused, every block below it that is not free
      is in use by exactly one task, and nobody waits while there is a free block. */
  ghost predicate MpfInv(c: Core, m: Mpf, i: nat) {
    PoolOk(m) && (WaitQ(c, MpfQ(i)) != [] ==> FreeCount(m) == 0)
  }

  lemma MpfRely(c: Core, c': Core, own: set<WQ>, m: Mpf, i: nat)
    requires MpfInv(c, m, i) && Linked(c.ts) && Linked(c'.ts)
    requires Rely(c.ts.tcb, c'.ts.tcb, own) && MpfQ(i) !in own
    ensures MpfInv(c', m, i)
  {
    if WaitQ(c, MpfQ(i)) == [] { RelyEmpty(c, c', own, MpfQ(i)); }
  }

  /** A block that is handed out is one of the pool that nobody has; the others keep their owners. */
  lemma GetBlockExclusive(m: Mpf, t: Tid)
    requires PoolOk(m) && FreeCount(m) > 0
    ensures var b, m' := NextBlock(m), GetBlock(m, t);
            && b < m.blkcnt && b !in m.owner && !InUse(m, b)
            && PoolOk(m') && FreeCount(m') == FreeCount(m) - 1
            && (forall x: nat :: InUse(m', x) <==> InUse(m, x) || x == b)
            && m'.owner == m.owner[b := t]
  {
    var b, m' := NextBlock(m), GetBlock(m, t);
    if m.free != [] {
      assert m.free == [b] + m.free[1..];
      assert b in m.free;
    } else {
      assert m'.free == [];
    }
    forall x: nat ensures InUse(m', x) <==> InUse(m, x) || x == b {}
  }

  /** As many blocks as are counted free can be had. */
  lemma FreeBlocksFit(m: Mpf)
    requires PoolOk(m)
    ensures 0 <= FreeCount(m) <= m.blkcnt
  {
    DistinctBelow(m.free, m.unused);
  }

  /** rel_mpf accepts exactly the addresses of blocks that are in use. */
  lemma ValidBlockExact(m: Mpf, blk: nat)
    requires PoolOk(m)
    ensures ValidBlock(m, blk) <==> exists b: nat :: InUse(m, b) && blk == Address(m, b)
  {
    if ValidBlock(m, blk) {
      var b := (blk - m.base) / m.blksz;
      assert blk - m.base == m.blksz * b + (blk - m.base) % m.blksz;
      assert InUse(m, b) && blk == Address(m, b);
    }
    if b: nat :| InUse(m, b) && blk == Address(m, b) {
      DivExact(m.blksz, b);
      assert blk - m.base == m.blksz * b;
    }
  }

  lemma DivExact(d: nat, b: nat)
    requires d > 0
    ensures (d * b) / d == b && (d * b) % d == 0
  {
    var q, r := (d * b) / d, (d * b) % d;
    assert d * b == d * q + r && 0 <= r < d;
    assert d * (b - q) == r;
    SmallMultiple(d, b - q);
  }

  lemma SmallMultiple(d: nat, k: int)
    requires 0 <= d * k < d
    ensures k == 0
  {
  }

  /** A returned block that nobody waits for is free, and cannot be returned again. */
  lemma ReleaseFrees(m: Mpf, blk: nat)
    requires PoolOk(m) && ValidBlock(m, blk)
    ensures var b := (blk - m.base) / m.blksz; var m' := m.(free := [b] + m.free, owner := m.owner - {b});
            && PoolOk(m') && FreeCount(m') == FreeCount(m) + 1 && !ValidBlock(m', blk)
            && (forall x: nat :: InUse(m', x) <==> InUse(m, x) && x != b)
  {
    var b := (blk - m.base) / m.blksz;
    var m' := m.(free := [b] + m.free, owner := m.owner - {b});
    assert NoDup(m'.free);
    forall x: nat ensures InUse(m', x) <==> InUse(m, x) && x != b {}
  }

  /** A block that passes to a waiting task stays in use, by that task. */
  lemma HandOver(m: Mpf, blk: nat, t: Tid)
    requires PoolOk(m) && ValidBlock(m, blk)
    ensures var b := (blk - m.base) / m.blksz; var m' := m.(owner := m.owner[b := t]);
            PoolOk(m') && b in m.owner && forall x: nat :: InUse(m', x) <==> InUse(m, x)
  {
    var b := (blk - m.base) / m.blksz;
    assert InUse(m, b);
  }

  lemma GetMpfOk(g: Config, c: Core, m: Mpf, i: nat, p: Patience)
    requires Inv(g, c) && MpfInv(c, m, i) && TmoType(p)
    ensures var (c', m', er, blk) := GetMpf(g, c, m, i, p);
            CallOk(g, c, c', {MpfQ(i)}) && MpfInv(c', m', i)
  {
    var (c', m', er, blk) := GetMpf(g, c, m, i, p);
    FreeBlocksFit(m);
    if er == BLOCKED {
      BlockOk(g, c, MpfQ(i), NoData, TimerOf(p));
    } else {
      if er == E_OK { GetBlockExclusive(m, c.run.value); }
      Unchanged(g, c);
    }
  }

  lemma RelMpfOk(g: Config, c: Core, m: Mpf, i: nat, blk: nat)
    requires Inv(g, c) && MpfInv(c, m, i)
    ensures QueueOk(c, MpfQ(i))
    ensures var (c', m', er) := RelMpf(g, c, m, i, blk);
            CallOk(g, c, c', {}) && MpfInv(c', m', i)
  {
    WaitersAreWaiting(c, MpfQ(i));
    if InTask(c) && ValidBlock(m, blk) {
      if WaitQ(c, MpfQ(i)) != [] {
        WakeHeadOk(g, c, MpfQ(i), BlkData(blk));
        HandOver(m, blk, WaitQ(c, MpfQ(i))[0]);
      } else {
        ReleaseFrees(m, blk);
        Unchanged(g, c);
      }
    } else {
      Unchanged(g, c);
    }
  }

  lemma IniMpfOk(g: Config, c: Core, m: Mpf, i: nat)
    requires Inv(g, c) && MpfInv(c, m, i)
    ensures QueueOk(c, MpfQ(i))
    ensures var (c', m', er) := IniMpf(g, c, m, i);
            CallOk(g, c, c', {}) && MpfInv(c', m', i)
  {
    InitCallOk(g, c, MpfQ(i));
    if !InTask(c) { Unchanged(g, c); }
  }
}
