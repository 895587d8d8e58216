/** Who has a block of a memory pool, over whole runs of the kernel, told from the calls themselves. */
module MemoryPoolRuns {
  import opened Types
  import opened TaskQueues
  import opened Core
  import opened CoreProofs
  import opened TaskCalls
  import opened WaitQueues
  import opened MemoryPool
  import opened System
  import opened SystemProofs
  import opened WaitCodes

  predicate CallsPool(s: Sys, op: Op, i: nat) {
    op.OnMpf? && op.i == i && i < |s.mpf| && RunsTask(s.c) && QueueOk(s.c, MpfQ(i)) && s.mpf[i].blksz > 0
  }

  /** The task that gets block b in the step: the caller of get_mpf, to which the address of the block is
      returned, or the first waiting task, when this address is given back. */
  function GivenTo(g: Config, s: Sys, op: Op, i: nat, b: nat): Option<Tid> {
    if !CallsPool(s, op, i) then None
    else
      var blk, q := Address(s.mpf[i], b), WaitQ(s.c, MpfQ(i));
      match op.mop
      case Get(p) =>
        var (c', m', er, got) := GetMpf(g, s.c, s.mpf[i], i, p);
        if er == E_OK && got == blk then s.c.run else None
      case RelM(_) => if Returned(g, s, op, i, b) && q != [] then Some(q[0]) else None
      case IniM => None
  }

  /** rel_mpf accepts the address of block b. */
  predicate Returned(g: Config, s: Sys, op: Op, i: nat, b: nat) {
    && CallsPool(s, op, i) && op.mop == RelM(Address(s.mpf[i], b))
    && RelMpf(g, s.c, s.mpf[i], i, op.mop.blk).2 == E_OK
  }

  predicate Emptied(s: Sys, op: Op, i: nat) { op == OnMpf(i, IniM) && InTask(s.c) }

  function OwnerIn(s: Sys, i: nat, b: nat): Option<Tid> {
    if i < |s.mpf| && b in s.mpf[i].owner then Some(s.mpf[i].owner[b]) else None
  }

  // ----- one step -----

  /** The owner that the call makes. */
  function NewOwner(g: Config, s: Sys, op: Op, i: nat, b: nat): Option<Tid> {
    if GivenTo(g, s, op, i, b).Some? then GivenTo(g, s, op, i, b)
    else if Returned(g, s, op, i, b) || Emptied(s, op, i) then None
    else OwnerIn(s, i, b)
  }

  lemma SameBlock(m: Mpf, a: nat, b: nat)
    requires m.blksz > 0
    ensures Address(m, a) == Address(m, b) <==> a == b
    ensures (Address(m, b) - m.base) / m.blksz == b
  {
    DivExact(m.blksz, a);
    DivExact(m.blksz, b);
  }

  lemma BlockAt(m: Mpf, blk: nat, b: nat)
    requires PoolOk(m) && ValidBlock(m, blk)
    ensures blk >= m.base && (blk == Address(m, b) <==> (blk - m.base) / m.blksz == b)
  {
    ValidBlockExact(m, blk);
    var x: nat :| InUse(m, x) && blk == Address(m, x);
    SameBlock(m, x, b);
  }

  lemma PoolOf(g: Config, s: Sys, i: nat)
    requires SysInv(g, s) && i < |s.mpf|
    ensures PoolOk(s.mpf[i])
  {
  }

  lemma CallOwner(g: Config, s: Sys, mop: MpfOp, i: nat, b: nat)
    requires SysInv(g, s) && CallsPool(s, OnMpf(i, mop), i)
    ensures var o := MpfStep(g, s.c, s.mpf[i], i, mop).1.owner;
            (if b in o then Some(o[b]) else None) == NewOwner(g, s, OnMpf(i, mop), i, b)
  {
    hide SysInv, Wake, Block, WakeAll, Address, ValidBlock, FreeCount;
    PoolOf(g, s, i);
    SameBlock(s.mpf[i], NextBlock(s.mpf[i]), b);
    if mop.RelM? && ValidBlock(s.mpf[i], mop.blk) { BlockAt(s.mpf[i], mop.blk, b); }
  }

  /** Owners change by these calls only, and as these calls say. */
  lemma StepOwner(g: Config, s: Sys, op: Op, i: nat, b: nat)
    requires SysInv(g, s) && May(g, s, op) && i < |s.mpf|
    ensures |Step(g, s, op).mpf| == |s.mpf|
    ensures OwnerIn(Step(g, s, op), i, b) == NewOwner(g, s, op, i, b)
  {
    hide SysInv, MpfStep, GetMpf, RelMpf;
    StepOthersSame(g, s, op);
    if CallsPool(s, op, i) { CallOwner(g, s, op.mop, i, b); }
  }

  /** A block is given to a task only when nobody has it, or in the call that gives it back; and only a block
      that somebody has is given back. */
  lemma GivenIsFree(g: Config, s: Sys, op: Op, i: nat, b: nat)
    requires SysInv(g, s) && May(g, s, op) && i < |s.mpf|
    ensures GivenTo(g, s, op, i, b).Some? ==>
              b < s.mpf[i].blkcnt && (OwnerIn(s, i, b) == None || Returned(g, s, op, i, b))
    ensures Returned(g, s, op, i, b) ==> OwnerIn(s, i, b).Some?
  {
    hide Inv, Wake, Block, WakeAll;
    PoolOf(g, s, i);
    var m := s.mpf[i];
    if CallsPool(s, op, i) {
      SameBlock(m, NextBlock(m), b);
      if op.mop.Get? && FreeCount(m) > 0 && RunsTask(s.c) && s.c.run.Some? { GetBlockExclusive(m, s.c.run.value); }
      if Returned(g, s, op, i, b) { ValidBlockExact(m, op.mop.blk); }
    }
  }

  // ----- runs -----

  /** No step from k up to n gives block b back or initialises the pool again. */
  ghost predicate Kept(g: Config, tr: seq<Sys>, ops: seq<Op>, i: nat, b: nat, k: nat, n: nat)
    requires n <= |ops| < |tr|
  {
    forall j :: k <= j < n ==> !Returned(g, tr[j], ops[j], i, b) && !Emptied(tr[j], ops[j], i)
  }

  /** Whatever the others do, a task keeps its block until it is given back or the pool initialised again, and
      nobody else gets it meanwhile. */
  lemma {:induction false} RunKeepsOwner(g: Config, tr: seq<Sys>, ops: seq<Op>, i: nat, b: nat, k: nat, n: nat)
    requires IsRun(g, tr, ops) && SysInv(g, tr[0]) && i < |tr[0].mpf| && k <= n <= |ops|
    requires OwnerIn(tr[k], i, b).Some? && Kept(g, tr, ops, i, b, k, n)
    ensures OwnerIn(tr[n], i, b) == OwnerIn(tr[k], i, b)
    ensures forall j :: k <= j < n ==> GivenTo(g, tr[j], ops[j], i, b) == None
    decreases n
  {
    hide SysInv, May, Step, GivenTo, Returned, Emptied, OwnerIn;
    if k < n {
      RunKeepsOwner(g, tr, ops, i, b, k, n - 1);
      RunsKeepInv(g, tr, ops, n - 1);
      PoolsStay(g, tr, ops, n - 1);
      assert tr[n - 1 + 1] == Step(g, tr[n - 1], ops[n - 1]);
      StepOwner(g, tr[n - 1], ops[n - 1], i, b);
      GivenIsFree(g, tr[n - 1], ops[n - 1], i, b);
    }
  }

  lemma {:induction false} PoolsStay(g: Config, tr: seq<Sys>, ops: seq<Op>, n: nat)
    requires IsRun(g, tr, ops) && n <= |ops|
    ensures |tr[n].mpf| == |tr[0].mpf|
  {
    hide May, Step;
    if n > 0 {
      PoolsStay(g, tr, ops, n - 1);
      assert tr[n - 1 + 1] == Step(g, tr[n - 1], ops[n - 1]);
      StepOthersSame(g, tr[n - 1], ops[n - 1]);
    }
  }

  /** No block is given to two tasks: between two steps that give it, or in the second, it is given back, or
      the pool is initialised again. */
  lemma GivenOnce(g: Config, tr: seq<Sys>, ops: seq<Op>, i: nat, b: nat, k: nat, n: nat)
    requires IsRun(g, tr, ops) && SysInv(g, tr[0]) && i < |tr[0].mpf| && k < n < |ops|
    requires GivenTo(g, tr[k], ops[k], i, b).Some? && GivenTo(g, tr[n], ops[n], i, b).Some?
    ensures !Kept(g, tr, ops, i, b, k + 1, n + 1)
  {
    hide SysInv, May, Step, GivenTo, Returned, Emptied, OwnerIn;
    RunsKeepInv(g, tr, ops, k);
    PoolsStay(g, tr, ops, k);
    assert tr[k + 1] == Step(g, tr[k], ops[k]);
    StepOwner(g, tr[k], ops[k], i, b);
    if Kept(g, tr, ops, i, b, k + 1, n + 1) {
      RunKeepsOwner(g, tr, ops, i, b, k + 1, n + 1);
    }
  }

  /** And no block is given back twice: between the two, or in the first, it is given to a task. */
  lemma ReturnedOnce(g: Config, tr: seq<Sys>, ops: seq<Op>, i: nat, b: nat, k: nat, n: nat)
    requires IsRun(g, tr, ops) && SysInv(g, tr[0]) && i < |tr[0].mpf| && k < n < |ops|
    requires Returned(g, tr[k], ops[k], i, b) && Returned(g, tr[n], ops[n], i, b)
    ensures exists j :: k <= j < n && GivenTo(g, tr[j], ops[j], i, b).Some?
  {
    hide SysInv, May, Step, GivenTo, Returned, Emptied, OwnerIn;
    RunsKeepInv(g, tr, ops, n);
    PoolsStay(g, tr, ops, n);
    GivenIsFree(g, tr[n], ops[n], i, b);
    SomebodyGot(g, tr, ops, i, b, k, n);
  }

  lemma {:induction false} SomebodyGot(g: Config, tr: seq<Sys>, ops: seq<Op>, i: nat, b: nat, k: nat, n: nat)
    requires IsRun(g, tr, ops) && SysInv(g, tr[0]) && i < |tr[0].mpf| && k < n <= |ops|
    requires Returned(g, tr[k], ops[k], i, b) && OwnerIn(tr[n], i, b).Some?
    ensures exists j :: k <= j < n && GivenTo(g, tr[j], ops[j], i, b).Some?
    decreases n
  {
    hide SysInv, May, Step, GivenTo, Returned, Emptied, OwnerIn;
    RunsKeepInv(g, tr, ops, n - 1);
    PoolsStay(g, tr, ops, n - 1);
    assert tr[n - 1 + 1] == Step(g, tr[n - 1], ops[n - 1]);
    StepOwner(g, tr[n - 1], ops[n - 1], i, b);
    if GivenTo(g, tr[n - 1], ops[n - 1], i, b).None? { SomebodyGot(g, tr, ops, i, b, k, n - 1); }
  }

  /** A waiting task that is given a block finds E_OK and the address of the block when it resumes. */
  lemma GivenIsFound(g: Config, tr: seq<Sys>, ops: seq<Op>, i: nat, b: nat, k: nat, n: nat)
    requires IsRun(g, tr, ops) && SysInv(g, tr[0]) && k < n < |tr| && i < |tr[k].mpf|
    requires Returned(g, tr[k], ops[k], i, b) && GivenTo(g, tr[k], ops[k], i, b).Some?
    ensures var t := GivenTo(g, tr[k], ops[k], i, b).value;
            && WaitingIn(tr[k], t)
            && ((forall j :: k < j <= n ==> !WaitingIn(tr[j], t)) ==>
                  Finds(tr[n], t, E_OK, BlkData(Address(tr[k].mpf[i], b))))
  {
    hide SysInv, May, Step, Finds;
    RunsKeepInv(g, tr, ops, k);
    PassedToWaiter(g, tr[k], i);
    var t := GivenTo(g, tr[k], ops[k], i, b).value;
    if forall j :: k < j <= n ==> !WaitingIn(tr[j], t) { CodeReachesTask(g, tr, ops, t, k, n); }
  }

  lemma PassedToWaiter(g: Config, s: Sys, i: nat)
    requires SysInv(g, s)
    ensures WaitQ(s.c, MpfQ(i)) != [] ==> WaitingIn(s, WaitQ(s.c, MpfQ(i))[0])
  {
    WaitersAreWaiting(s.c, MpfQ(i));
    if WaitQ(s.c, MpfQ(i)) != [] { assert WaitQ(s.c, MpfQ(i))[0] in WaitQ(s.c, MpfQ(i)); }
  }
}
