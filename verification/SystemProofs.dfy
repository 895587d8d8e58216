/** What holds in every state of every run of the kernel. */
module SystemProofs {
  import opened Types
  import opened Seqs
  import opened TaskQueues
  import opened SystemClock
  import opened Core
  import opened CoreProofs
  import opened TaskCalls
  import opened TaskCallProofs
  import opened TimeCalls
  import opened TimeCallProofs
  import opened DrainProofs
  import opened WaitQueues
  import opened Semaphore
  import opened EventFlag
  import D = DataQueue
  import P = PriDataQueue
  import opened MemoryPool
  import opened System

  /** Any service call keeps the invariants of the kernel proper. */
  lemma CallStepOk(g: Config, s: Sys, op: Op)
    requires SysInv(g, s) && May(g, s, op) && !op.OnKernel?
    ensures CallOk(g, s.c, Step(g, s, op).c, Own(op))
  {
    match op
    case OnTask(top) => TaskStepOk(g, s.c, top);
    case OnSem(i, sop) => SemStepOk(g, s.c, s.sem[i], i, sop);
    case OnFlg(i, fop) => FlgStepOk(g, s.c, s.flg[i], i, fop);
    case OnDtq(i, dop) => DtqStepOk(g, s.c, s.dtq[i], i, dop);
    case OnPdq(i, pop) => PdqStepOk(g, s.c, s.pdq[i], i, pop);
    case OnMpf(i, mop) => MpfStepOk(g, s.c, s.mpf[i], i, mop);
  }

  /** The object that the call works on keeps its invariant. */
  ghost predicate TargetOk(s: Sys, op: Op) {
    match op
    case OnSem(i, _) => i < |s.sem| && SemInv(s.c, s.sem[i], i)
    case OnFlg(i, _) => i < |s.flg| && FlgInv(s.c, s.flg[i], i)
    case OnDtq(i, _) => i < |s.dtq| && D.DtqInv(s.c, s.dtq[i], i)
    case OnPdq(i, _) => i < |s.pdq| && P.PdqInv(s.c, s.pdq[i], i)
    case OnMpf(i, _) => i < |s.mpf| && MpfInv(s.c, s.mpf[i], i)
    case _ => true
  }

  lemma TargetStepOk(g: Config, s: Sys, op: Op)
    requires SysInv(g, s) && May(g, s, op)
    ensures TargetOk(Step(g, s, op), op)
  {
    match op
    case OnTask(top) =>
    case OnKernel(kop) =>
    case OnSem(i, sop) => SemStepOk(g, s.c, s.sem[i], i, sop);
    case OnFlg(i, fop) => FlgStepOk(g, s.c, s.flg[i], i, fop);
    case OnDtq(i, dop) => DtqStepOk(g, s.c, s.dtq[i], i, dop);
    case OnPdq(i, pop) => PdqStepOk(g, s.c, s.pdq[i], i, pop);
    case OnMpf(i, mop) => MpfStepOk(g, s.c, s.mpf[i], i, mop);
  }

  /** A step changes no object but the one the call names. */
  ghost predicate OthersSame(s: Sys, s': Sys, op: Op) {
    && |s'.sem| == |s.sem| && |s'.flg| == |s.flg| && |s'.dtq| == |s.dtq| && |s'.pdq| == |s.pdq| && |s'.mpf| == |s.mpf|
    && (forall i :: 0 <= i < |s.sem| && !(op.OnSem? && op.i == i) ==> s'.sem[i] == s.sem[i])
    && (forall i :: 0 <= i < |s.flg| && !(op.OnFlg? && op.i == i) ==> s'.flg[i] == s.flg[i])
    && (forall i :: 0 <= i < |s.dtq| && !(op.OnDtq? && op.i == i) ==> s'.dtq[i] == s.dtq[i])
    && (forall i :: 0 <= i < |s.pdq| && !(op.OnPdq? && op.i == i) ==> s'.pdq[i] == s.pdq[i])
    && (forall i :: 0 <= i < |s.mpf| && !(op.OnMpf? && op.i == i) ==> s'.mpf[i] == s.mpf[i])
  }

  lemma StepOthersSame(g: Config, s: Sys, op: Op)
    requires May(g, s, op)
    ensures OthersSame(s, Step(g, s, op), op)
  {
  }

  lemma Assemble(s: Sys, s': Sys, op: Op)
    requires ObjectsInv(s) && OthersSame(s, s', op) && TargetOk(s', op)
    requires Linked(s.c.ts) && Linked(s'.c.ts) && Rely(s.c.ts.tcb, s'.c.ts.tcb, Own(op))
    ensures ObjectsInv(s')
  {
    OthersRely(s, s'.c, Own(op));
  }

  lemma CoreStepOk(g: Config, s: Sys, op: Op)
    requires SysInv(g, s) && May(g, s, op)
    ensures var c' := Step(g, s, op).c; Inv(g, c') && Rely(s.c.ts.tcb, c'.ts.tcb, Own(op))
  {
    if op.OnKernel? { KernelStepOk(g, s.c, op.kop); } else { CallStepOk(g, s, op); }
  }

  /** Every step keeps the whole invariant. */
  lemma StepKeepsInv(g: Config, s: Sys, op: Op)
    requires SysInv(g, s) && May(g, s, op)
    ensures SysInv(g, Step(g, s, op))
  {
    CoreStepOk(g, s, op);
    TargetStepOk(g, s, op);
    StepOthersSame(g, s, op);
    Assemble(s, Step(g, s, op), op);
  }

  /** No call gets stuck: whatever exists can be called at any time; interrupts come at any time, handlers can
      return unless their tick is still at work, and a tick can begin in any handler unless one is at work. */
  lemma CallsAlwaysPossible(g: Config, s: Sys, op: Op)
    requires SysInv(g, s) && PatienceOk(op)
    requires match op
             case OnTask(top) => TaskArgs(g, s.c, top)
             case OnKernel(kop) =>
               || kop == Enter || (kop == Exit && s.c.nest > 0 && s.c.drain != Some(s.c.nest))
               || (kop == Begin && s.c.nest > 0 && s.c.drain.None?)
             case OnSem(i, _) => i < |s.sem|
             case OnFlg(i, _) => i < |s.flg|
             case OnDtq(i, _) => i < |s.dtq|
             case OnPdq(i, _) => i < |s.pdq|
             case OnMpf(i, _) => i < |s.mpf|
    ensures May(g, s, op)
  {
    match op
    case OnTask(top) =>
    case OnKernel(kop) =>
    case OnSem(i, _) => WaitersAreWaiting(s.c, SemQ(i));
    case OnFlg(i, _) => WaitersAreWaiting(s.c, FlgQ(i));
    case OnDtq(i, _) =>
      WaitersAreWaiting(s.c, RDtqQ(i));
      InitTwoQueuesOk(g, s.c, SDtqQ(i), RDtqQ(i));
    case OnPdq(i, _) =>
      WaitersAreWaiting(s.c, RPdqQ(i));
      InitTwoQueuesOk(g, s.c, SPdqQ(i), RPdqQ(i));
    case OnMpf(i, _) => WaitersAreWaiting(s.c, MpfQ(i));
  }

  /** While signal_time is at work, it can make a callback or end. */
  lemma TickAlwaysProgresses(g: Config, s: Sys)
    requires SysInv(g, s) && s.c.drain == Some(s.c.nest)
    ensures May(g, s, OnKernel(End)) || exists b :: May(g, s, OnKernel(FireTop(b)))
  {
    WorkLeft(g, s.c);
    if Work(g, s.c) > 0 {
      var b :| MayFire(s.c, b);
      CallbackArg(g, s.c, b);
      assert May(g, s, OnKernel(FireTop(b)));
    }
  }

  // ----- runs -----

  ghost predicate IsRun(g: Config, tr: seq<Sys>, ops: seq<Op>) {
    && |tr| == |ops| + 1
    && forall k :: 0 <= k < |ops| ==> May(g, tr[k], ops[k]) && tr[k + 1] == Step(g, tr[k], ops[k])
  }

  /** Safety over whole runs. */
  lemma {:induction false} RunsKeepInv(g: Config, tr: seq<Sys>, ops: seq<Op>, n: nat)
    requires IsRun(g, tr, ops) && SysInv(g, tr[0]) && n < |tr|
    ensures SysInv(g, tr[n])
  {
    if n > 0 {
      RunsKeepInv(g, tr, ops, n - 1);
      StepKeepsInv(g, tr[n - 1], ops[n - 1]);
    }
  }

  function Fires(ops: seq<Op>): nat {
    if ops == [] then 0
    else Fires(ops[..|ops| - 1]) + if ops[|ops| - 1].OnKernel? && ops[|ops| - 1].kop.FireTop? then 1 else 0
  }

  /** However the handlers interfere, the number of callbacks of one tick is bounded by the work that
      is there when it begins. */
  lemma {:induction false} DrainTerminates(g: Config, tr: seq<Sys>, ops: seq<Op>)
    requires IsRun(g, tr, ops) && SysInv(g, tr[0])
    requires forall k :: 0 <= k < |ops| ==> ops[k] != OnKernel(Begin) && ops[k] != OnKernel(End)
    ensures Fires(ops) + Work(g, tr[|ops|].c) <= Work(g, tr[0].c)
    decreases |ops|
  {
    hide SysInv, Work, IsRun, May, Step;
    var n := |ops|;
    if n > 0 {
      RunPrefix(g, tr, ops);
      DrainTerminates(g, tr[..n], ops[..n - 1]);
      RunsKeepInv(g, tr, ops, n - 1);
      StepWork(g, tr[n - 1], ops[n - 1]);
    }
  }

  lemma RunPrefix(g: Config, tr: seq<Sys>, ops: seq<Op>)
    requires IsRun(g, tr, ops) && ops != []
    ensures var n := |ops|;
            && |tr| == n + 1 && IsRun(g, tr[..n], ops[..n - 1])
            && May(g, tr[n - 1], ops[n - 1]) && tr[n] == Step(g, tr[n - 1], ops[n - 1])
  {
    hide May, Step;
    var n := |ops|;
    assert tr[n - 1 + 1] == Step(g, tr[n - 1], ops[n - 1]);
    forall k | 0 <= k < n - 1
      ensures May(g, tr[..n][k], ops[..n - 1][k]) && tr[..n][k + 1] == Step(g, tr[..n][k], ops[..n - 1][k])
    {
      assert May(g, tr[k], ops[k]) && tr[k + 1] == Step(g, tr[k], ops[k]);
    }
  }

  lemma StepWork(g: Config, s: Sys, op: Op)
    requires SysInv(g, s) && May(g, s, op) && op != OnKernel(Begin) && op != OnKernel(End)
    ensures Work(g, Step(g, s, op).c) + (if op.OnKernel? && op.kop.FireTop? then 1 else 0) <= Work(g, s.c)
  {
    hide ObjectsInv, Good, DispInv, AllBlks, SumOverdue;
    if !op.OnKernel? {
      CallStepOk(g, s, op);
      CallsAddNoWork(g, s.c, Step(g, s, op).c, Own(op));
    } else {
      match op.kop
      case FireTop(b) => FireReduces(g, s.c, b);
      case Enter =>
      case Exit =>
    }
  }
}
