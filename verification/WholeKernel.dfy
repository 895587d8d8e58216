/** The kernel with the control blocks of all its objects, and the proof that every call on them is a
    step of the state machine of System. */
module WholeKernel {
  import opened Types
  import opened TaskQueues
  import opened Core
  import T = TaskCalls
  import opened WaitQueues
  import S = Semaphore
  import F = EventFlag
  import D = DataQueue
  import P = PriDataQueue
  import M = MemoryPool
  import opened System
  import opened SystemProofs
  import opened KernelState
  import opened SemaphoreCB
  import opened EventFlagCB
  import opened DataQueueCB
  import opened PriDataQueueCB
  import opened MemoryPoolCB
  import opened TimeCalls
  import opened Seqs
  import opened Startup
  import SignalTime
  import SysManage

  class Whole {
    const k: Kernel
    const sem: seq<SEMCB>
    const flg: seq<FLGCB>
    const dtq: seq<DTQCB>
    const pdq: seq<PDQCB>
    const mpf: seq<MPFCB>

    /** Every object has its number and its queues; so no two control blocks are the same. */
    ghost predicate Numbered() {
      && (forall i :: 0 <= i < |sem| ==> sem[i].i == i && SemQ(i) in k.wqs)
      && (forall i :: 0 <= i < |flg| ==> flg[i].i == i && FlgQ(i) in k.wqs)
      && (forall i :: 0 <= i < |dtq| ==> dtq[i].i == i && {SDtqQ(i), RDtqQ(i)} <= k.wqs)
      && (forall i :: 0 <= i < |pdq| ==> pdq[i].i == i && {SPdqQ(i), RPdqQ(i)} <= k.wqs)
      && (forall i :: 0 <= i < |mpf| ==> mpf[i].i == i && MpfQ(i) in k.wqs)
    }

    /** The buffers are not shared. */
    ghost predicate Separate() {
      && (forall i, j :: 0 <= i < j < |dtq| ==> dtq[i].b != dtq[j].b && dtq[i].b.p_dtqmb != dtq[j].b.p_dtqmb)
      && (forall i, j :: 0 <= i < j < |pdq| ==> pdq[i].b != pdq[j].b && pdq[i].b.p_pdqmb != pdq[j].b.p_pdqmb)
      && (forall i, j :: 0 <= i < j < |mpf| ==> mpf[i].p_mpfmb != mpf[j].p_mpfmb)
    }

    ghost function Sems(): (r: seq<S.Sem>)
      reads sem
      ensures |r| == |sem|
    {
      seq(|sem|, i requires 0 <= i < |sem| reads sem => sem[i].View())
    }

    ghost function Flgs(): (r: seq<F.Flg>)
      reads flg
      ensures |r| == |flg|
    {
      seq(|flg|, i requires 0 <= i < |flg| reads flg => flg[i].View())
    }

    ghost predicate DtqsOk()
      reads set d | d in dtq :: d.b, set d | d in dtq :: d.b.p_dtqmb
    {
      forall i :: 0 <= i < |dtq| ==> dtq[i].Valid()
    }

    ghost function Dtqs(): (r: seq<D.Dtq>)
      requires DtqsOk()
      reads set d | d in dtq :: d.b, set d | d in dtq :: d.b.p_dtqmb
      ensures |r| == |dtq|
    {
      seq(|dtq|,
          i requires 0 <= i < |dtq| && dtq[i].Valid() reads set d | d in dtq :: d.b, set d | d in dtq :: d.b.p_dtqmb
          => dtq[i].View())
    }

    ghost predicate PdqsOk()
      reads set d | d in pdq :: d.b, set d | d in pdq :: d.b.p_pdqmb
    {
      forall i :: 0 <= i < |pdq| ==> pdq[i].Valid()
    }

    ghost function Pdqs(): (r: seq<P.Pdq>)
      reads set d | d in pdq :: d.b
      ensures |r| == |pdq|
    {
      seq(|pdq|, i requires 0 <= i < |pdq| reads set d | d in pdq :: d.b => pdq[i].View())
    }

    ghost predicate MpfsOk()
      reads mpf, set m | m in mpf :: m.p_mpfmb
    {
      forall i :: 0 <= i < |mpf| ==> mpf[i].Valid()
    }

    ghost function Mpfs(): (r: seq<M.Mpf>)
      reads mpf
      ensures |r| == |mpf|
    {
      seq(|mpf|, i requires 0 <= i < |mpf| reads mpf => mpf[i].View())
    }

    ghost predicate Valid()
      reads k, k.s, k.s.links, k.h, k.h.tmevt_heap
      reads set d | d in dtq :: d.b, set d | d in dtq :: d.b.p_dtqmb
      reads set d | d in pdq :: d.b, set d | d in pdq :: d.b.p_pdqmb
      reads mpf, set m | m in mpf :: m.p_mpfmb
    {
      k.Valid() && Numbered() && Separate() && DtqsOk() && PdqsOk() && MpfsOk()
    }

    ghost function View(): Sys
      requires Valid()
      reads k, k.s, k.s.links, k.h, k.h.tmevt_heap, sem, flg
      reads set d | d in dtq :: d.b, set d | d in dtq :: d.b.p_dtqmb
      reads set d | d in pdq :: d.b, set d | d in pdq :: d.b.p_pdqmb
      reads mpf, set m | m in mpf :: m.p_mpfmb
    {
      Sys(k.View(), Sems(), Flgs(), Dtqs(), Pdqs(), Mpfs())
    }

    constructor (k: Kernel, sem: seq<SEMCB>, flg: seq<FLGCB>, dtq: seq<DTQCB>, pdq: seq<PDQCB>, mpf: seq<MPFCB>)
      ensures this.k == k && this.sem == sem && this.flg == flg && this.dtq == dtq && this.pdq == pdq && this.mpf == mpf
    {
      this.k, this.sem, this.flg, this.dtq, this.pdq, this.mpf := k, sem, flg, dtq, pdq, mpf;
    }

    /** A call on a semaphore. */
    static method OneSem(k: Kernel, x: SEMCB, op: SemOp)
      requires k.Valid() && Inv(k.g, k.View()) && SemQ(x.i) in k.wqs && (op.Wai? ==> T.TmoType(op.p))
      modifies x, k.s, k.s.links, k.h, k.h.tmevt_heap
      ensures k.Valid() && T.RunsTask(old(k.View())) && QueueOk(old(k.View()), SemQ(x.i))
      ensures (k.View(), x.View()) == SemStep(k.g, old(k.View()), old(x.View()), x.i, op)
    {
      hide Inv, Kernel.Valid, S.SigSem, S.WaiSem, S.IniSem;
      HasQueue(k.g, k.View(), SemQ(x.i));
      match op {
        case Sig => var _ := x.SigSem(k);
        case Wai(p) => var _ := x.WaiSem(k, p);
        case IniS => var _ := x.IniSem(k);
      }
    }

    method DoSem(i: nat, op: SemOp)
      requires Valid() && SysInv(k.g, View()) && i < |sem| && (op.Wai? ==> T.TmoType(op.p))
      modifies sem[i], k.s, k.s.links, k.h, k.h.tmevt_heap
      ensures Valid() && May(k.g, old(View()), OnSem(i, op)) && View() == Step(k.g, old(View()), OnSem(i, op))
    {
      hide Inv, ObjectsInv, Kernel.Valid, Separate, DtqsOk, PdqsOk, MpfsOk, SemStep, QueueOk;
      ghost var s := View();
      OneSem(k, sem[i], op);
      assert Sems() == s.sem[i := sem[i].View()];
    }

    /** A call on an event flag. */
    static method OneFlg(k: Kernel, x: FLGCB, op: FlgOp)
      requires k.Valid() && Inv(k.g, k.View()) && FlgQ(x.i) in k.wqs && F.FlgInv(k.View(), x.View(), x.i)
      requires op.WaiF? ==> T.TmoType(op.p)
      modifies x, k.s, k.s.links, k.h, k.h.tmevt_heap
      ensures k.Valid() && T.RunsTask(old(k.View())) && QueueOk(old(k.View()), FlgQ(x.i))
      ensures (k.View(), x.View()) == FlgStep(k.g, old(k.View()), old(x.View()), x.i, op)
    {
      hide Inv, Kernel.Valid, F.SetFlg, F.WaiFlg, F.IniFlg, F.FlgInv;
      HasQueue(k.g, k.View(), FlgQ(x.i));
      match op {
        case Set(y) => var _ := x.SetFlg(k, y);
        case Clr(y) => var _ := x.ClrFlg(k, y);
        case WaiF(y, orw, p) => var _, _ := x.WaiFlg(k, y, orw, p);
        case IniF => var _ := x.IniFlg(k);
      }
    }

    static lemma FlagOk(g: Config, s: Sys, i: nat)
      requires SysInv(g, s) && i < |s.flg|
      ensures F.FlgInv(s.c, s.flg[i], i)
    {
    }

    method DoFlg(i: nat, op: FlgOp)
      requires Valid() && SysInv(k.g, View()) && i < |flg| && (op.WaiF? ==> T.TmoType(op.p))
      modifies flg[i], k.s, k.s.links, k.h, k.h.tmevt_heap
      ensures Valid() && May(k.g, old(View()), OnFlg(i, op)) && View() == Step(k.g, old(View()), OnFlg(i, op))
    {
      hide Inv, Kernel.Valid, Separate, DtqsOk, PdqsOk, MpfsOk, FlgStep, QueueOk, F.FlgInv;
      ghost var s := View();
      FlagOk(k.g, s, i);
      OneFlg(k, flg[i], op);
      assert Flgs() == s.flg[i := flg[i].View()];
    }

    /** A call on a data queue. */
    static method OneDtq(k: Kernel, x: DTQCB, op: DtqOp)
      requires x.Valid() && k.Valid() && Inv(k.g, k.View()) && {SDtqQ(x.i), RDtqQ(x.i)} <= k.wqs
      requires (op.Snd? || op.Rcv?) ==> T.TmoType(op.p)
      modifies x.b, x.b.p_dtqmb, k.s, k.s.links, k.h, k.h.tmevt_heap
      ensures x.Valid() && k.Valid() && DtqArgs(k.g, old(k.View()), old(x.View()), x.i)
      ensures (k.View(), x.View()) == DtqStep(k.g, old(k.View()), old(x.View()), x.i, op)
    {
      hide Inv, Kernel.Valid, DataBuffer.Contents, D.SndDtq, D.FsndDtq, D.RcvDtq, D.IniDtq;
      HasQueue(k.g, k.View(), RDtqQ(x.i));
      InitTwoQueuesOk(k.g, k.View(), SDtqQ(x.i), RDtqQ(x.i));
      match op {
        case Snd(y, p) => var _ := x.SndDtq(k, y, p);
        case Fsnd(y) => var _ := x.FsndDtq(k, y);
        case Rcv(p) => var _, _ := x.RcvDtq(k, p);
        case IniD => var _ := x.IniDtq(k);
      }
    }

    method DoDtq(i: nat, op: DtqOp)
      requires Valid() && SysInv(k.g, View()) && i < |dtq| && ((op.Snd? || op.Rcv?) ==> T.TmoType(op.p))
      modifies dtq[i].b, dtq[i].b.p_dtqmb, k.s, k.s.links, k.h, k.h.tmevt_heap
      ensures Valid() && May(k.g, old(View()), OnDtq(i, op)) && View() == Step(k.g, old(View()), OnDtq(i, op))
    {
      hide Inv, ObjectsInv, Kernel.Valid, DTQCB.Valid, PdqsOk, MpfsOk, DtqStep, DtqArgs;
      ghost var s := View();
      OneDtq(k, dtq[i], op);
      assert Dtqs() == s.dtq[i := dtq[i].View()];
    }

    /** A call on a priority data queue. */
    static method OnePdq(k: Kernel, x: PDQCB, op: PdqOp)
      requires x.Valid() && k.Valid() && Inv(k.g, k.View()) && {SPdqQ(x.i), RPdqQ(x.i)} <= k.wqs
      requires (op.SndP? || op.RcvP?) ==> T.TmoType(op.p)
      modifies x.b, x.b.p_pdqmb, k.s, k.s.links, k.h, k.h.tmevt_heap
      ensures x.Valid() && k.Valid() && PdqArgs(k.g, old(k.View()), old(x.View()), x.i)
      ensures (k.View(), x.View()) == PdqStep(k.g, old(k.View()), old(x.View()), x.i, op)
    {
      hide Inv, Kernel.Valid, P.SndPdq, P.RcvPdq, P.IniPdq;
      HasQueue(k.g, k.View(), RPdqQ(x.i));
      InitTwoQueuesOk(k.g, k.View(), SPdqQ(x.i), RPdqQ(x.i));
      match op {
        case SndP(m, p) => var _ := x.SndPdq(k, m, p);
        case RcvP(p) => var _, _ := x.RcvPdq(k, p);
        case IniP => var _ := x.IniPdq(k);
      }
    }

    method DoPdq(i: nat, op: PdqOp)
      requires Valid() && SysInv(k.g, View()) && i < |pdq| && ((op.SndP? || op.RcvP?) ==> T.TmoType(op.p))
      modifies pdq[i].b, pdq[i].b.p_pdqmb, k.s, k.s.links, k.h, k.h.tmevt_heap
      ensures Valid() && May(k.g, old(View()), OnPdq(i, op)) && View() == Step(k.g, old(View()), OnPdq(i, op))
    {
      hide Inv, ObjectsInv, Kernel.Valid, PDQCB.Valid, DtqsOk, MpfsOk, PdqStep, PdqArgs;
      ghost var s := View();
      OnePdq(k, pdq[i], op);
      assert Pdqs() == s.pdq[i := pdq[i].View()];
    }

    /** A call on a memory pool. */
    static method OneMpf(k: Kernel, x: MPFCB, op: MpfOp)
      requires x.Valid() && k.Valid() && Inv(k.g, k.View()) && MpfQ(x.i) in k.wqs && (op.Get? ==> T.TmoType(op.p))
      modifies x, x.p_mpfmb, k.s, k.s.links, k.h, k.h.tmevt_heap
      ensures x.Valid() && k.Valid() && T.RunsTask(old(k.View())) && QueueOk(old(k.View()), MpfQ(x.i)) && x.blksz > 0
      ensures (k.View(), x.View()) == MpfStep(k.g, old(k.View()), old(x.View()), x.i, op)
    {
      hide Inv, Kernel.Valid, MPFCB.Valid, M.GetMpf, M.RelMpf, M.IniMpf;
      HasQueue(k.g, k.View(), MpfQ(x.i));
      SizePositive(x);
      match op {
        case Get(p) => var _, _ := x.GetMpf(k, p);
        case RelM(b) => var _ := x.RelMpf(k, b);
        case IniM => var _ := x.IniMpf(k);
      }
    }

    static lemma SizePositive(x: MPFCB)
      requires x.Valid()
      ensures x.blksz > 0
    {
    }

    method DoMpf(i: nat, op: MpfOp)
      requires Valid() && SysInv(k.g, View()) && i < |mpf| && (op.Get? ==> T.TmoType(op.p))
      modifies mpf[i], mpf[i].p_mpfmb, k.s, k.s.links, k.h, k.h.tmevt_heap
      ensures Valid() && May(k.g, old(View()), OnMpf(i, op)) && View() == Step(k.g, old(View()), OnMpf(i, op))
    {
      hide Inv, ObjectsInv, Kernel.Valid, MPFCB.Valid, DtqsOk, PdqsOk, MpfStep, QueueOk;
      ghost var s := View();
      OneMpf(k, mpf[i], op);
      assert Mpfs() == s.mpf[i := mpf[i].View()];
    }

    /** A call that concerns no object. */
    method DoTask(op: TaskOp)
      requires Valid() && SysInv(k.g, View()) && SignalTime.ArgsOk(k.g, op)
      modifies k, k.s, k.s.links, k.h, k.h.tmevt_heap
      ensures Valid() && May(k.g, old(View()), OnTask(op)) && View() == Step(k.g, old(View()), OnTask(op))
    {
      hide Inv, ObjectsInv, Kernel.Valid, Numbered, Separate, DtqsOk, PdqsOk, MpfsOk, TaskStep, TaskArgs;
      SignalTime.Perform(k, op);
    }

    /** The entry and the exit of an interrupt handler. */
    method DoEnter()
      requires Valid()
      modifies k`nest
      ensures Valid() && May(k.g, old(View()), OnKernel(Enter)) && View() == Step(k.g, old(View()), OnKernel(Enter))
    {
      hide Kernel.Valid, Numbered, Separate, DtqsOk, PdqsOk, MpfsOk;
      SysManage.IntEnter(k);
    }

    method DoExit()
      requires Valid() && T.MayExit(k.View())
      modifies k`nest, k.s`reqflg, k.s`p_runtsk
      ensures Valid() && May(k.g, old(View()), OnKernel(Exit)) && View() == Step(k.g, old(View()), OnKernel(Exit))
      ensures k.nest == old(k.nest) - 1
    {
      hide Kernel.Valid, Numbered, Separate, DtqsOk, PdqsOk, MpfsOk, T.IntExit;
      SysManage.IntExit(k);
    }

    /** The locked stretches of signal_time. */
    method DoBegin()
      requires Valid() && SysInv(k.g, View()) && MayTick(k.View())
      modifies k`drain, k`fired, k.h
      ensures Valid() && May(k.g, old(View()), OnKernel(Begin)) && View() == Step(k.g, old(View()), OnKernel(Begin))
    {
      hide Kernel.Valid, Numbered, Separate, DtqsOk, PdqsOk, MpfsOk, Good, ObjectsInv;
      SignalTime.BeginTick(k);
    }

    method DoFire() returns (ghost b: Blk)
      requires Valid() && SysInv(k.g, View()) && k.drain == Some(k.nest)
      requires k.h.last_index > 0 && exists x :: IsDue(k.View(), x)
      modifies k`fired, k`cyc, k`cyccb, k`almsta, k.s, k.s.links, k.h, k.h.tmevt_heap
      ensures Valid() && May(k.g, old(View()), OnKernel(FireTop(b)))
      ensures View() == Step(k.g, old(View()), OnKernel(FireTop(b)))
    {
      hide Kernel.Valid, Numbered, Separate, DtqsOk, PdqsOk, MpfsOk, Inv, ObjectsInv, Fire, CallbackArgOk, MayFire;
      b := SignalTime.CallBack(k);
    }

    method DoEnd()
      requires Valid() && SysInv(k.g, View()) && MayEnd(k.View())
      modifies k`drain, k.h
      ensures Valid() && May(k.g, old(View()), OnKernel(End)) && View() == Step(k.g, old(View()), OnKernel(End))
    {
      hide Kernel.Valid, Numbered, Separate, DtqsOk, PdqsOk, MpfsOk, Inv, ObjectsInv;
      SignalTime.FinishTick(k);
    }

    /** The call names tasks, handlers and objects that exist. */
    predicate Names(op: Op) {
      && PatienceOk(op)
      && match op
         case OnTask(top) => SignalTime.ArgsOk(k.g, top)
         case OnKernel(_) => false
         case OnSem(i, _) => i < |sem|
         case OnFlg(i, _) => i < |flg|
         case OnDtq(i, _) => i < |dtq|
         case OnPdq(i, _) => i < |pdq|
         case OnMpf(i, _) => i < |mpf|
    }

    /** Any service call, on any object. */
    method Do(op: Op)
      requires Valid() && SysInv(k.g, View()) && Names(op)
      modifies k, k.s, k.s.links, k.h, k.h.tmevt_heap, sem, flg
      modifies set d | d in dtq :: d.b, set d | d in dtq :: d.b.p_dtqmb
      modifies set d | d in pdq :: d.b, set d | d in pdq :: d.b.p_pdqmb
      modifies mpf, set m | m in mpf :: m.p_mpfmb
      ensures Valid() && May(k.g, old(View()), op) && View() == Step(k.g, old(View()), op)
    {
      hide Valid, View, SysInv, May, Step, SignalTime.ArgsOk;
      match op {
        case OnTask(top) => DoTask(top);
        case OnSem(i, sop) => DoSem(i, sop);
        case OnFlg(i, fop) => DoFlg(i, fop);
        case OnDtq(i, dop) => DoDtq(i, dop);
        case OnPdq(i, pop) => DoPdq(i, pop);
        case OnMpf(i, mop) => DoMpf(i, mop);
      }
    }
  }
}
