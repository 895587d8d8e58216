/**
  The kernel with all its objects as one state machine: every service call, from tasks and from
  interrupt handlers in any interleaving, every interrupt, tick and callback is a step.
 */
module System {
  import opened Types
  import opened TaskQueues
  import opened SystemClock
  import opened Core
  import opened CoreProofs
  import opened TaskCalls
  import opened TaskCallProofs
  import opened TimeCalls
  import opened TimeCallProofs
  import opened WaitQueues
  import opened Semaphore
  import opened EventFlag
  import D = DataQueue
  import P = PriDataQueue
  import opened MemoryPool

  datatype Sys = Sys(c: Core, sem: seq<Sem>, flg: seq<Flg>, dtq: seq<D.Dtq>, pdq: seq<P.Pdq>, mpf: seq<Mpf>)

  datatype TaskOp =
    | Act(t: Tid) | CanAct_(t: Tid) | Ext | Ter(t: Tid) | Chg(t: Tid, pri: int)
    | Slp_(p: Patience) | Wup(t: Tid) | CanWup_(t: Tid) | Rel(t: Tid) | Sus(t: Tid) | Rsm(t: Tid) | Dly_(d: nat)
    | Rot(pri: int) | Dis | Ena | Ipm(enaall: bool)
    | StartCyc(i: nat) | StopCyc(i: nat) | StartAlm(i: nat, time: nat) | StopAlm(i: nat)

  datatype KernelOp = Enter | Exit | Begin | FireTop(b: Blk) | End

  datatype SemOp = Sig | Wai(p: Patience) | IniS
  datatype FlgOp = Set(setptn: bv32) | Clr(clrptn: bv32) | WaiF(waiptn: bv32, orw: bool, p: Patience) | IniF
  datatype DtqOp = Snd(x: int, p: Patience) | Fsnd(x: int) | Rcv(p: Patience) | IniD
  datatype PdqOp = SndP(m: P.Msg, p: Patience) | RcvP(p: Patience) | IniP
  datatype MpfOp = Get(p: Patience) | RelM(blk: nat) | IniM

  datatype Op =
    | OnTask(top: TaskOp) | OnKernel(kop: KernelOp)
    | OnSem(i: nat, sop: SemOp) | OnFlg(i: nat, fop: FlgOp) | OnDtq(i: nat, dop: DtqOp)
    | OnPdq(i: nat, pop: PdqOp) | OnMpf(i: nat, mop: MpfOp)

  // ----- steps -----

  /** The arguments are of their types, and name objects that exist. */
  predicate TaskArgs(g: Config, c: Core, op: TaskOp) {
    && |c.ts.tcb| == |g.ipri| && RunsTask(c)
    && match op
       case Slp_(p) => p.Tmo? && TmoType(p)
       case Ext => true case Dly_(_) => true case Rot(_) => true case Dis => true case Ena => true case Ipm(_) => true
       case StartCyc(i) => IsCyc(g, c, i)
       case StopCyc(i) => IsCyc(g, c, i)
       case StartAlm(i, _) => i < |c.alm|
       case StopAlm(i) => i < |c.alm|
       case _ => IsTask(c, op.t)
  }

  function TaskStep(g: Config, c: Core, op: TaskOp): Core
    requires TaskArgs(g, c, op)
  {
    match op
    case Act(t) => ActTsk(g, c, t).0
    case CanAct_(t) => CanAct(g, c, t).0
    case Ext => ExtTsk(g, c).0
    case Ter(t) => TerTsk(g, c, t).0
    case Chg(t, pri) => ChgPri(g, c, t, pri).0
    case Slp_(p) => SlpTsk(g, c, p).0
    case Wup(t) => WupTsk(g, c, t).0
    case CanWup_(t) => CanWup(g, c, t).0
    case Rel(t) => RelWai(g, c, t).0
    case Sus(t) => SusTsk(g, c, t).0
    case Rsm(t) => RsmTsk(g, c, t).0
    case Dly_(d) => DlyTsk(g, c, d).0
    case Rot(pri) => RotRdq(g, c, pri).0
    case Dis => DisDsp(c).0
    case Ena => EnaDsp(c).0
    case Ipm(e) => ChgIpm(c, e).0
    case StartCyc(i) => StaCyc(g, c, i).0
    case StopCyc(i) => StpCyc(g, c, i).0
    case StartAlm(i, t) => StaAlm(c, i, t).0
    case StopAlm(i) => StpAlm(c, i).0
  }

  ghost predicate KernelMay(g: Config, c: Core, op: KernelOp) {
    match op
    case Enter => true
    case Exit => MayExit(c)
    case Begin => ValidConfig(g) && MayTick(c)
    case FireTop(b) => MayFire(c, b) && CallbackArgOk(g, c, c.tm[b].cb)
    case End => MayEnd(c)
  }

  ghost function KernelStep(g: Config, c: Core, op: KernelOp): Core
    requires KernelMay(g, c, op)
  {
    match op
    case Enter => IntEnter(c)
    case Exit => IntExit(c)
    case Begin => TickBegin(g, c)
    case FireTop(b) => Fire(g, c, b)
    case End => TickEnd(c)
  }

  function SemStep(g: Config, c: Core, s: Sem, i: nat, op: SemOp): (Core, Sem)
    requires RunsTask(c) && QueueOk(c, SemQ(i))
  {
    match op
    case Sig => var (c', s', _) := SigSem(g, c, s, i); (c', s')
    case Wai(p) => var (c', s', _) := WaiSem(g, c, s, i, p); (c', s')
    case IniS => var (c', s', _) := IniSem(g, c, s, i); (c', s')
  }

  function FlgStep(g: Config, c: Core, f: Flg, i: nat, op: FlgOp): (Core, Flg)
    requires RunsTask(c) && QueueOk(c, FlgQ(i))
  {
    match op
    case Set(x) => var (c', f', _) := SetFlg(g, c, f, i, x); (c', f')
    case Clr(x) => var (c', f', _) := ClrFlg(c, f, x); (c', f')
    case WaiF(x, orw, p) => var (c', f', _, _) := WaiFlg(g, c, f, i, x, orw, p); (c', f')
    case IniF => var (c', f', _) := IniFlg(g, c, f, i); (c', f')
  }

  predicate DtqArgs(g: Config, c: Core, d: D.Dtq, i: nat) {
    && RunsTask(c) && QueueOk(c, SDtqQ(i)) && QueueOk(c, RDtqQ(i)) && |d.buf| <= d.cap
    && QueueOk(WakeAll(g, c, WaitQ(c, SDtqQ(i)), E_DLT).0, RDtqQ(i))
  }

  function DtqStep(g: Config, c: Core, d: D.Dtq, i: nat, op: DtqOp): (Core, D.Dtq)
    requires DtqArgs(g, c, d, i)
  {
    match op
    case Snd(x, p) => var (c', d', _) := D.SndDtq(g, c, d, i, x, p); (c', d')
    case Fsnd(x) => var (c', d', _) := D.FsndDtq(g, c, d, i, x); (c', d')
    case Rcv(p) => var (c', d', _, _) := D.RcvDtq(g, c, d, i, p); (c', d')
    case IniD => var (c', d', _) := D.IniDtq(g, c, d, i); (c', d')
  }

  predicate PdqArgs(g: Config, c: Core, d: P.Pdq, i: nat) {
    && RunsTask(c) && QueueOk(c, SPdqQ(i)) && QueueOk(c, RPdqQ(i))
    && QueueOk(WakeAll(g, c, WaitQ(c, SPdqQ(i)), E_DLT).0, RPdqQ(i))
  }

  function PdqStep(g: Config, c: Core, d: P.Pdq, i: nat, op: PdqOp): (Core, P.Pdq)
    requires PdqArgs(g, c, d, i)
  {
    match op
    case SndP(m, p) => var (c', d', _) := P.SndPdq(g, c, d, i, m, p); (c', d')
    case RcvP(p) => var (c', d', _, _) := P.RcvPdq(g, c, d, i, p); (c', d')
    case IniP => var (c', d', _) := P.IniPdq(g, c, d, i); (c', d')
  }

  function MpfStep(g: Config, c: Core, m: Mpf, i: nat, op: MpfOp): (Core, Mpf)
    requires RunsTask(c) && QueueOk(c, MpfQ(i)) && m.blksz > 0
  {
    match op
    case Get(p) => var (c', m', _, _) := GetMpf(g, c, m, i, p); (c', m')
    case RelM(b) => var (c', m', _) := RelMpf(g, c, m, i, b); (c', m')
    case IniM => var (c', m', _) := IniMpf(g, c, m, i); (c', m')
  }

  predicate PatienceOk(op: Op) {
    match op
    case OnSem(_, Wai(p)) => TmoType(p)
    case OnFlg(_, WaiF(_, _, p)) => TmoType(p)
    case OnDtq(_, Snd(_, p)) => TmoType(p)
    case OnDtq(_, Rcv(p)) => TmoType(p)
    case OnPdq(_, SndP(_, p)) => TmoType(p)
    case OnPdq(_, RcvP(p)) => TmoType(p)
    case OnMpf(_, Get(p)) => TmoType(p)
    case _ => true
  }

  /** The step can be taken. */
  ghost predicate May(g: Config, s: Sys, op: Op) {
    && PatienceOk(op)
    && match op
       case OnTask(top) => TaskArgs(g, s.c, top)
       case OnKernel(kop) => KernelMay(g, s.c, kop)
       case OnSem(i, _) => i < |s.sem| && RunsTask(s.c) && QueueOk(s.c, SemQ(i))
       case OnFlg(i, _) => i < |s.flg| && RunsTask(s.c) && QueueOk(s.c, FlgQ(i))
       case OnDtq(i, _) => i < |s.dtq| && DtqArgs(g, s.c, s.dtq[i], i)
       case OnPdq(i, _) => i < |s.pdq| && PdqArgs(g, s.c, s.pdq[i], i)
       case OnMpf(i, _) => i < |s.mpf| && RunsTask(s.c) && QueueOk(s.c, MpfQ(i)) && s.mpf[i].blksz > 0
  }

  ghost function Step(g: Config, s: Sys, op: Op): Sys
    requires May(g, s, op)
  {
    match op
    case OnTask(top) => s.(c := TaskStep(g, s.c, top))
    case OnKernel(kop) => s.(c := KernelStep(g, s.c, kop))
    case OnSem(i, sop) => var (c, x) := SemStep(g, s.c, s.sem[i], i, sop); s.(c := c, sem := s.sem[i := x])
    case OnFlg(i, fop) => var (c, x) := FlgStep(g, s.c, s.flg[i], i, fop); s.(c := c, flg := s.flg[i := x])
    case OnDtq(i, dop) => var (c, x) := DtqStep(g, s.c, s.dtq[i], i, dop); s.(c := c, dtq := s.dtq[i := x])
    case OnPdq(i, pop) => var (c, x) := PdqStep(g, s.c, s.pdq[i], i, pop); s.(c := c, pdq := s.pdq[i := x])
    case OnMpf(i, mop) => var (c, x) := MpfStep(g, s.c, s.mpf[i], i, mop); s.(c := c, mpf := s.mpf[i := x])
  }

  // ----- the global invariant -----

  ghost predicate ObjectsInv(s: Sys) {
    && (forall i :: 0 <= i < |s.sem| ==> SemInv(s.c, s.sem[i], i))
    && (forall i :: 0 <= i < |s.flg| ==> FlgInv(s.c, s.flg[i], i))
    && (forall i :: 0 <= i < |s.dtq| ==> D.DtqInv(s.c, s.dtq[i], i))
    && (forall i :: 0 <= i < |s.pdq| ==> P.PdqInv(s.c, s.pdq[i], i))
    && (forall i :: 0 <= i < |s.mpf| ==> MpfInv(s.c, s.mpf[i], i))
  }

  ghost predicate SysInv(g: Config, s: Sys) { Inv(g, s.c) && ObjectsInv(s) }

  /** The wait queues of the object a call works on. */
  function Own(op: Op): set<WQ> {
    match op
    case OnSem(i, _) => {SemQ(i)}
    case OnFlg(i, _) => {FlgQ(i)}
    case OnDtq(i, _) => {SDtqQ(i), RDtqQ(i)}
    case OnPdq(i, _) => {SPdqQ(i), RPdqQ(i)}
    case OnMpf(i, _) => {MpfQ(i)}
    case _ => {}
  }

  /** The objects whose queues are not in own do not notice the step. */
  lemma OthersRely(s: Sys, c': Core, own: set<WQ>)
    requires ObjectsInv(s) && Linked(s.c.ts) && Linked(c'.ts) && Rely(s.c.ts.tcb, c'.ts.tcb, own)
    ensures forall i :: 0 <= i < |s.sem| && SemQ(i) !in own ==> SemInv(c', s.sem[i], i)
    ensures forall i :: 0 <= i < |s.flg| && FlgQ(i) !in own ==> FlgInv(c', s.flg[i], i)
    ensures forall i :: 0 <= i < |s.dtq| && SDtqQ(i) !in own && RDtqQ(i) !in own ==> D.DtqInv(c', s.dtq[i], i)
    ensures forall i :: 0 <= i < |s.pdq| && SPdqQ(i) !in own && RPdqQ(i) !in own ==> P.PdqInv(c', s.pdq[i], i)
    ensures forall i :: 0 <= i < |s.mpf| && MpfQ(i) !in own ==> MpfInv(c', s.mpf[i], i)
  {
    forall i | 0 <= i < |s.sem| && SemQ(i) !in own
      ensures SemInv(c', s.sem[i], i)
    {
      SemRely(s.c, c', own, s.sem[i], i);
    }
    forall i | 0 <= i < |s.flg| && FlgQ(i) !in own
      ensures FlgInv(c', s.flg[i], i)
    {
      FlgRely(s.c, c', own, s.flg[i], i);
    }
    forall i | 0 <= i < |s.dtq| && SDtqQ(i) !in own && RDtqQ(i) !in own ensures D.DtqInv(c', s.dtq[i], i) {
      D.DtqRely(s.c, c', own, s.dtq[i], i);
    }
    forall i | 0 <= i < |s.pdq| && SPdqQ(i) !in own && RPdqQ(i) !in own ensures P.PdqInv(c', s.pdq[i], i) {
      P.PdqRely(s.c, c', own, s.pdq[i], i);
    }
    forall i | 0 <= i < |s.mpf| && MpfQ(i) !in own
      ensures MpfInv(c', s.mpf[i], i)
    {
      MpfRely(s.c, c', own, s.mpf[i], i);
    }
  }

  lemma TaskStepOk(g: Config, c: Core, op: TaskOp)
    requires Inv(g, c) && TaskArgs(g, c, op)
    ensures CallOk(g, c, TaskStep(g, c, op), {})
  {
    match op
    case Act(t) => ActTskOk(g, c, t);
    case CanAct_(t) => CanActOk(g, c, t); Unchanged(g, c);
    case Ext => ExtTskOk(g, c);
    case Ter(t) => TerTskOk(g, c, t);
    case Chg(t, pri) => ChgPriOk(g, c, t, pri);
    case Slp_(p) => SlpTskOk(g, c, p);
    case Wup(t) => WupTskOk(g, c, t);
    case CanWup_(t) => CanWupOk(g, c, t);
    case Rel(t) => RelWaiOk(g, c, t);
    case Sus(t) => SusTskOk(g, c, t);
    case Rsm(t) => RsmTskOk(g, c, t);
    case Dly_(d) => DlyTskOk(g, c, d);
    case Rot(pri) => RotRdqOk(g, c, pri);
    case Dis => DisDspOk(g, c);
    case Ena => EnaDspOk(g, c);
    case Ipm(e) => ChgIpmOk(g, c, e);
    case StartCyc(i) => StaCycOk(g, c, i);
    case StopCyc(i) => StpCycOk(g, c, i);
    case StartAlm(i, t) => StaAlmOk(g, c, i, t);
    case StopAlm(i) => StpAlmOk(g, c, i);
  }

  lemma KernelStepOk(g: Config, c: Core, op: KernelOp)
    requires Inv(g, c) && KernelMay(g, c, op)
    ensures Inv(g, KernelStep(g, c, op)) && Rely(c.ts.tcb, KernelStep(g, c, op).ts.tcb, {})
  {
    match op
    case Enter => IntEnterOk(g, c);
    case Exit => IntExitOk(g, c);
    case Begin => TickBeginOk(g, c);
    case FireTop(b) => FireOk(g, c, b);
    case End => TickEndOk(g, c);
  }

  lemma SemStepOk(g: Config, c: Core, s: Sem, i: nat, op: SemOp)
    requires Inv(g, c) && SemInv(c, s, i) && QueueOk(c, SemQ(i)) && (op.Wai? ==> TmoType(op.p))
    ensures var (c', s') := SemStep(g, c, s, i, op); CallOk(g, c, c', {SemQ(i)}) && SemInv(c', s', i)
  {
    match op
    case Sig => SigSemOk(g, c, s, i); Widen(g, c, SemStep(g, c, s, i, op).0, {SemQ(i)});
    case Wai(p) => WaiSemOk(g, c, s, i, p);
    case IniS => IniSemOk(g, c, s, i); Widen(g, c, SemStep(g, c, s, i, op).0, {SemQ(i)});
  }

  lemma FlgStepOk(g: Config, c: Core, f: Flg, i: nat, op: FlgOp)
    requires Inv(g, c) && FlgInv(c, f, i) && QueueOk(c, FlgQ(i)) && (op.WaiF? ==> TmoType(op.p))
    ensures var (c', f') := FlgStep(g, c, f, i, op); CallOk(g, c, c', {FlgQ(i)}) && FlgInv(c', f', i)
  {
    match op
    case Set(x) => SetFlgOk(g, c, f, i, x); Widen(g, c, FlgStep(g, c, f, i, op).0, {FlgQ(i)});
    case Clr(x) => ClrFlgOk(g, c, f, i, x); Widen(g, c, FlgStep(g, c, f, i, op).0, {FlgQ(i)});
    case WaiF(x, orw, p) => WaiFlgOk(g, c, f, i, x, orw, p);
    case IniF => IniFlgOk(g, c, f, i); Widen(g, c, FlgStep(g, c, f, i, op).0, {FlgQ(i)});
  }

  lemma WidenTo(g: Config, c: Core, c': Core, own: set<WQ>, own': set<WQ>)
    requires CallOk(g, c, c', own) && own <= own'
    ensures CallOk(g, c, c', own')
  {
  }

  lemma DtqStepOk(g: Config, c: Core, d: D.Dtq, i: nat, op: DtqOp)
    requires Inv(g, c) && D.DtqInv(c, d, i) && DtqArgs(g, c, d, i)
    requires (op.Snd? || op.Rcv?) ==> TmoType(op.p)
    ensures var (c', d') := DtqStep(g, c, d, i, op); CallOk(g, c, c', {SDtqQ(i), RDtqQ(i)}) && D.DtqInv(c', d', i)
  {
    var c' := DtqStep(g, c, d, i, op).0;
    match op
    case Snd(x, p) => D.SndDtqOk(g, c, d, i, x, p); WidenTo(g, c, c', {SDtqQ(i)}, {SDtqQ(i), RDtqQ(i)});
    case Fsnd(x) => D.FsndDtqOk(g, c, d, i, x); WidenTo(g, c, c', {}, {SDtqQ(i), RDtqQ(i)});
    case Rcv(p) => D.RcvDtqOk(g, c, d, i, p); WidenTo(g, c, c', {RDtqQ(i)}, {SDtqQ(i), RDtqQ(i)});
    case IniD => D.IniDtqOk(g, c, d, i); WidenTo(g, c, c', {}, {SDtqQ(i), RDtqQ(i)});
  }

  lemma PdqStepOk(g: Config, c: Core, d: P.Pdq, i: nat, op: PdqOp)
    requires Inv(g, c) && P.PdqInv(c, d, i) && PdqArgs(g, c, d, i)
    requires (op.SndP? || op.RcvP?) ==> TmoType(op.p)
    ensures var (c', d') := PdqStep(g, c, d, i, op); CallOk(g, c, c', {SPdqQ(i), RPdqQ(i)}) && P.PdqInv(c', d', i)
  {
    var c' := PdqStep(g, c, d, i, op).0;
    match op
    case SndP(m, p) => P.SndPdqOk(g, c, d, i, m, p); WidenTo(g, c, c', {SPdqQ(i)}, {SPdqQ(i), RPdqQ(i)});
    case RcvP(p) => P.RcvPdqOk(g, c, d, i, p); WidenTo(g, c, c', {RPdqQ(i)}, {SPdqQ(i), RPdqQ(i)});
    case IniP => P.IniPdqOk(g, c, d, i); WidenTo(g, c, c', {}, {SPdqQ(i), RPdqQ(i)});
  }

  lemma MpfStepOk(g: Config, c: Core, m: Mpf, i: nat, op: MpfOp)
    requires Inv(g, c) && MpfInv(c, m, i) && QueueOk(c, MpfQ(i)) && (op.Get? ==> TmoType(op.p))
    ensures var (c', m') := MpfStep(g, c, m, i, op); CallOk(g, c, c', {MpfQ(i)}) && MpfInv(c', m', i)
  {
    match op
    case Get(p) => GetMpfOk(g, c, m, i, p);
    case RelM(b) => RelMpfOk(g, c, m, i, b); Widen(g, c, MpfStep(g, c, m, i, op).0, {MpfQ(i)});
    case IniM => IniMpfOk(g, c, m, i); Widen(g, c, MpfStep(g, c, m, i, op).0, {MpfQ(i)});
  }
}
