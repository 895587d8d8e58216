/** What stays with the synchronisation objects over whole runs: their attributes, and that an event flag
    without TA_WMUL has at most one waiting task. */
module ObjectRuns {
  import opened Types
  import opened Seqs
  import opened TaskQueues
  import opened Core
  import opened CoreProofs
  import opened TaskCalls
  import opened TaskCallProofs
  import opened TaskEffects
  import opened ObjectEffects
  import opened WaitQueues
  import opened Semaphore
  import opened EventFlag
  import D = DataQueue
  import P = PriDataQueue
  import opened MemoryPool
  import opened System
  import opened SystemProofs
  import opened StepFrames

  // ----- attributes -----

  /** Initial values, maxima, capacities and areas are as they were. */
  ghost predicate SameAttributes(s: Sys, s': Sys) {
    && |s'.sem| == |s.sem| && |s'.flg| == |s.flg| && |s'.dtq| == |s.dtq| && |s'.pdq| == |s.pdq| && |s'.mpf| == |s.mpf|
    && (forall i :: 0 <= i < |s.sem| ==> s'.sem[i].init == s.sem[i].init && s'.sem[i].max == s.sem[i].max)
    && (forall i :: 0 <= i < |s.flg| ==> s'.flg[i] == s.flg[i].(ptn := s'.flg[i].ptn))
    && (forall i :: 0 <= i < |s.dtq| ==> s'.dtq[i].cap == s.dtq[i].cap)
    && (forall i :: 0 <= i < |s.pdq| ==> s'.pdq[i].cap == s.pdq[i].cap && s'.pdq[i].maxdpri == s.pdq[i].maxdpri)
    && (forall i :: 0 <= i < |s.mpf| ==>
          s'.mpf[i].blkcnt == s.mpf[i].blkcnt && s'.mpf[i].blksz == s.mpf[i].blksz && s'.mpf[i].base == s.mpf[i].base)
  }

  lemma {:induction false} ScanAttributes(g: Config, c: Core, f: Flg, q: seq<Tid>)
    requires TasksIn(c, q)
    ensures EventFlag.Scan(g, c, f, q).1 == f.(ptn := EventFlag.Scan(g, c, f, q).1.ptn)
    decreases |q|
  {
    hide Cond;
    if q != [] {
      ScanAttributes(g, c, f, q[1..]);
      if CondOf(f.ptn, DataOf(c, q[0])) && !f.clr {
        ScanAttributes(g, Wake(g, c, q[0], E_OK, Handed(DataOf(c, q[0]), f.ptn)), f, q[1..]);
      }
    }
  }

  lemma FlgAttributes(g: Config, c: Core, f: Flg, i: nat, op: FlgOp)
    requires RunsTask(c) && QueueOk(c, FlgQ(i))
    ensures var f' := FlgStep(g, c, f, i, op).1; f' == f.(ptn := f'.ptn)
  {
    hide Cond, Wake, WakeAll, Block, Raised, EventFlag.Scan, Or;
    if op.Set? {
      RaisedAttributes(f, op.setptn);
      ScanAttributes(g, c, Raised(f, op.setptn), WaitQ(c, FlgQ(i)));
    }
  }

  lemma RaisedAttributes(f: Flg, x: bv32)
    ensures Raised(f, x) == f.(ptn := Raised(f, x).ptn)
  {
    hide Or;
  }

  lemma AttributesStay(g: Config, s: Sys, op: Op)
    requires May(g, s, op)
    ensures SameAttributes(s, Step(g, s, op))
  {
    hide Wake, WakeAll, Block, FlgStep, ValidBlock, P.Best, TaskStep, Finish;
    StepOthersSame(g, s, op);
    if op.OnFlg? { FlgAttributes(g, s.c, s.flg[op.i], op.i, op.fop); }
  }

  lemma {:induction false} RunAttributes(g: Config, tr: seq<Sys>, ops: seq<Op>, n: nat)
    requires IsRun(g, tr, ops) && n <= |ops|
    ensures SameAttributes(tr[0], tr[n])
  {
    hide May, Step;
    if n > 0 {
      RunAttributes(g, tr, ops, n - 1);
      assert tr[n - 1 + 1] == Step(g, tr[n - 1], ops[n - 1]);
      AttributesStay(g, tr[n - 1], ops[n - 1]);
    }
  }

  // ----- one waiting task -----

  ghost predicate OneWaits(s: Sys, i: nat) { i < |s.flg| && (s.flg[i].wmul || |WaitQ(s.c, FlgQ(i))| <= 1) }

  lemma KeptIsNotLonger(g: Config, op: Op, wq: WQ, q: seq<Tid>, q': seq<Tid>)
    requires QueueKept(g, op, wq, q, q')
    ensures |q'| <= |q|
  {
    if Ended(op).Some? { RemoveShortens(q, Ended(op).value); }
    assert multiset(q') == multiset(q) ==> |multiset(q')| == |multiset(q)|;
  }

  lemma {:induction false} RemoveShortens(q: seq<Tid>, t: Tid)
    ensures |Remove(q, t)| <= |q|
  {
    if q != [] { RemoveShortens(q[1..], t); }
  }

  lemma SubsetOfOne(q: seq<Tid>, q': seq<Tid>)
    requires |q| <= 1 && NoDup(q') && forall t: Tid :: t in q' ==> t in q
    ensures |q'| <= 1
  {
    assert |q'| > 1 ==> q'[0] != q'[1];
    EmptyOrNot(q');
    forall k | 0 <= k < |q'| ensures q'[k] in q { assert q'[k] in q'; }
  }

  lemma OneAfterSet(g: Config, c: Core, f: Flg, i: nat, x: bv32)
    requires Inv(g, c) && FlgInv(c, f, i) && |WaitQ(c, FlgQ(i))| <= 1
    ensures QueueOk(c, FlgQ(i)) && |WaitQ(SetFlg(g, c, f, i, x).0, FlgQ(i))| <= 1
  {
    hide SetFlg, FlgInv, Good, DispInv, Raised, Released, CallOk, NoDup;
    HasQueue(g, c, FlgQ(i));
    if Live(c) {
      SetFlgReleases(g, c, f, i, x);
      SetFlgOk(g, c, f, i, x);
      CallDistinct(g, c, SetFlg(g, c, f, i, x).0, FlgQ(i));
      SubsetOfOne(WaitQ(c, FlgQ(i)), WaitQ(SetFlg(g, c, f, i, x).0, FlgQ(i)));
    } else {
      SetRefused(g, c, f, i, x);
    }
  }

  lemma SetRefused(g: Config, c: Core, f: Flg, i: nat, x: bv32)
    requires QueueOk(c, FlgQ(i)) && !Live(c)
    ensures SetFlg(g, c, f, i, x).0 == c
  {
  }

  lemma CallDistinct(g: Config, c: Core, c': Core, wq: WQ)
    requires CallOk(g, c, c', {})
    ensures NoDup(WaitQ(c', wq))
  {
    WaitersAreWaiting(c', wq);
  }

  lemma OneAfterWait(g: Config, c: Core, f: Flg, i: nat, ptn: bv32, orw: bool, p: Patience)
    requires Inv(g, c) && TmoType(p) && !f.wmul && |WaitQ(c, FlgQ(i))| <= 1
    ensures RunsTask(c) && |WaitQ(WaiFlg(g, c, f, i, ptn, orw, p).0, FlgQ(i))| <= 1
  {
    hide Inv, WaiFlg, Cond;
    WaiFlgDoes(g, c, f, i, ptn, orw, p);
  }

  lemma OneAfterCall(g: Config, c: Core, f: Flg, i: nat, op: FlgOp)
    requires Inv(g, c) && FlgInv(c, f, i) && QueueOk(c, FlgQ(i)) && !f.wmul && |WaitQ(c, FlgQ(i))| <= 1
    requires op.WaiF? ==> TmoType(op.p)
    ensures RunsTask(c) && |WaitQ(FlgStep(g, c, f, i, op).0, FlgQ(i))| <= 1
  {
    hide Inv, FlgInv, SetFlg, WaiFlg, WakeAll;
    HasQueue(g, c, FlgQ(i));
    match op
    case Set(x) => OneAfterSet(g, c, f, i, x);
    case WaiF(ptn, orw, p) => OneAfterWait(g, c, f, i, ptn, orw, p);
    case IniF => if InTask(c) { IniFlgDoes(g, c, f, i); }
    case Clr(x) =>
  }

  lemma StepKeepsOne(g: Config, s: Sys, op: Op, i: nat)
    requires SysInv(g, s) && May(g, s, op) && OneWaits(s, i)
    ensures OneWaits(Step(g, s, op), i)
  {
    hide Inv, FlgInv, FlgStep, QueueKept;
    AttributesStay(g, s, op);
    if !s.flg[i].wmul {
      if op.OnFlg? && op.i == i {
        OneAfterCall(g, s.c, s.flg[i], i, op.fop);
      } else {
        ForeignQueue(g, s, op, FlgQ(i));
        KeptIsNotLonger(g, op, FlgQ(i), WaitQ(s.c, FlgQ(i)), WaitQ(Step(g, s, op).c, FlgQ(i)));
      }
    }
  }

  /** Without TA_WMUL there is never more than one task waiting for an event flag. */
  lemma {:induction false} RunsKeepOne(g: Config, tr: seq<Sys>, ops: seq<Op>, i: nat, n: nat)
    requires IsRun(g, tr, ops) && SysInv(g, tr[0]) && OneWaits(tr[0], i) && n <= |ops|
    ensures OneWaits(tr[n], i)
  {
    hide SysInv, May, Step, OneWaits;
    if n > 0 {
      RunsKeepOne(g, tr, ops, i, n - 1);
      RunsKeepInv(g, tr, ops, n - 1);
      assert tr[n - 1 + 1] == Step(g, tr[n - 1], ops[n - 1]);
      StepKeepsOne(g, tr[n - 1], ops[n - 1], i);
    }
  }
}
