/** Every wait ends once, with one code, which reaches the task that waited. */
module WaitCodes {
  import opened Types
  import opened Seqs
  import opened TaskQueues
  import opened Core
  import opened CoreProofs
  import opened TaskCalls
  import opened TaskCallProofs
  import opened TimeCalls
  import opened TimeCallProofs
  import opened WaitQueues
  import opened Semaphore
  import opened EventFlag
  import D = DataQueue
  import P = PriDataQueue
  import opened MemoryPool
  import opened System
  import opened SystemProofs

  /** What a step hands to the tasks whose wait it ends: nothing, a datum or a block, or the pattern of an
      event flag. */
  datatype Gift = Nothing | Gives(d: WData) | Pattern(ptn: bv32)

  /** How a step ends waits: the code and the gift. */
  datatype Ending = Ending(code: ER, gift: Gift)

  function Plain(code: ER): Ending { Ending(code, Nothing) }

  function Received(d: WData, gift: Gift): WData {
    match gift
    case Nothing => d
    case Gives(x) => x
    case Pattern(ptn) => if d.FlgData? then Handed(d, ptn) else d
  }

  function TaskEnd(op: TaskOp): Ending { Plain(if op.Rel? then E_RLWAI else E_OK) }

  function KernelEnd(c: Core, op: KernelOp): Ending {
    match op
    case FireTop(TaskBlk(t)) =>
      Plain(if t < |c.ts.tcb| && c.ts.tcb[t].tstat.Waiting? && c.ts.tcb[t].tstat.why.Dly? then E_OK else E_TMOUT)
    case _ => Plain(E_OK)
  }

  function SemEnd(op: SemOp): Ending { Plain(if op.IniS? then E_DLT else E_OK) }

  function FlgEnd(f: Flg, op: FlgOp): Ending {
    match op
    case Set(x) => Ending(E_OK, Pattern(Raised(f, x).ptn))
    case IniF => Plain(E_DLT)
    case _ => Plain(E_OK)
  }

  function DtqEnd(op: DtqOp): Ending {
    match op
    case Snd(x, _) => Ending(E_OK, Gives(MsgData(x, 0)))
    case Fsnd(x) => Ending(E_OK, Gives(MsgData(x, 0)))
    case Rcv(_) => Plain(E_OK)
    case IniD => Plain(E_DLT)
  }

  function PdqEnd(op: PdqOp): Ending {
    match op
    case SndP(m, _) => Ending(E_OK, Gives(P.ToData(m)))
    case RcvP(_) => Plain(E_OK)
    case IniP => Plain(E_DLT)
  }

  function MpfEnd(op: MpfOp): Ending {
    match op
    case RelM(b) => Ending(E_OK, Gives(BlkData(b)))
    case Get(_) => Plain(E_OK)
    case IniM => Plain(E_DLT)
  }

  /** How a step of the system ends waits. */
  function EndOf(s: Sys, op: Op): Ending {
    match op
    case OnTask(top) => TaskEnd(top)
    case OnKernel(kop) => KernelEnd(s.c, kop)
    case OnSem(_, sop) => SemEnd(sop)
    case OnFlg(i, fop) => if i < |s.flg| then FlgEnd(s.flg[i], fop) else Plain(E_OK)
    case OnDtq(_, dop) => DtqEnd(dop)
    case OnPdq(_, pop) => PdqEnd(pop)
    case OnMpf(_, mop) => MpfEnd(mop)
  }

  /** The wait-information block of a task across a step: while the task waits it keeps its timer and its
      data; at the end of the wait it gets the code and what is handed over; afterwards both stay, until
      the task, running and not interrupted, waits again.  Only ter_tsk ends a wait without a code. */
  predicate CodeStep(b: TCB, b': TCB, running: bool, killed: bool, e: Ending) {
    if b.tstat.Waiting? && !b'.tstat.Waiting? then
      || (b'.winfo == Wercd(e.code) && b'.wdata == Received(b.wdata, e.gift))
      || (killed && b'.winfo == b.winfo && b'.wdata == b.wdata)
    else if !b.tstat.Waiting? && b'.tstat.Waiting? then running && b'.winfo.Timer?
    else b'.winfo == b.winfo && b'.wdata == b.wdata
  }

  ghost predicate Codes(c: Core, c': Core, killed: Option<Tid>, e: Ending) {
    && |c'.ts.tcb| == |c.ts.tcb|
    && forall t :: 0 <= t < |c.ts.tcb| ==> CodeStep(c.ts.tcb[t], c'.ts.tcb[t], Runs(c, t), killed == Some(t), e)
  }

  /** Task t is running, not interrupted. */
  predicate Runs(c: Core, t: Tid) { c.nest == 0 && c.run == Some(t) }

  function Killed(op: Op): Option<Tid> { if op.OnTask? && op.top.Ter? then Some(op.top.t) else None }

  lemma CodesSame(c: Core, c': Core, killed: Option<Tid>, e: Ending)
    requires c'.ts.tcb == c.ts.tcb
    ensures Codes(c, c', killed, e)
  {
  }

  lemma CodesOne(c: Core, c': Core, t: Tid, killed: Option<Tid>, e: Ending)
    requires t < |c.ts.tcb| == |c'.ts.tcb| && c'.ts.tcb == c.ts.tcb[t := c'.ts.tcb[t]]
    requires CodeStep(c.ts.tcb[t], c'.ts.tcb[t], Runs(c, t), killed == Some(t), e)
    ensures Codes(c, c', killed, e)
  {
  }

  /** Waking a task. */
  lemma CodesWake(g: Config, c: Core, t: Tid, e: Ending, d: WData, req: bool)
    requires t < |c.ts.tcb| && c.ts.tcb[t].tstat.Waiting? && d == Received(c.ts.tcb[t].wdata, e.gift)
    ensures Codes(c, Finish(Wake(g, c, t, e.code, d), req), None, e)
  {
    CodesOne(c, Finish(Wake(g, c, t, e.code, d), req), t, None, e);
  }

  /** Going to sleep. */
  lemma CodesBlock(g: Config, c: Core, why: Why, d: WData, timer: Option<nat>, e: Ending)
    requires Inv(g, c) && MayBlock(c)
    ensures c.run.value < |c.ts.tcb| && Codes(c, Block(g, c, why, d, timer), None, e)
  {
    CodesOne(c, Block(g, c, why, d, timer), c.run.value, None, e);
  }

  lemma ExtCodes(g: Config, c: Core)
    requires Inv(g, c) && TaskArgs(g, c, Ext)
    ensures Codes(c, TaskStep(g, c, Ext), None, Plain(E_OK))
  {
    hide Good, Unlink, Insert;
    if c.run.Some? { CodesOne(c, TaskStep(g, c, Ext), c.run.value, None, Plain(E_OK)); }
  }

  lemma TerCodes(g: Config, c: Core, t: Tid)
    requires Inv(g, c) && TaskArgs(g, c, Ter(t))
    ensures Codes(c, TaskStep(g, c, Ter(t)), Some(t), Plain(E_OK))
  {
    hide Good, DispInv, Unlink, Insert;
    CodesOne(c, TaskStep(g, c, Ter(t)), t, Some(t), Plain(E_OK));
  }

  /** Calls of the running task that may put it to sleep. */
  lemma SlpCodes(g: Config, c: Core, p: Patience)
    requires Inv(g, c) && TaskArgs(g, c, Slp_(p))
    ensures Codes(c, TaskStep(g, c, Slp_(p)), None, Plain(E_OK))
  {
    hide Good, Block, Codes;
    CodesSame(c, c, None, Plain(E_OK));
    if MayBlock(c) {
      CodesBlock(g, c, Slp, NoData, TimerOf(p), Plain(E_OK));
      ForgetWup(c, c.run.value);
    }
  }

  lemma ForgetWup(c: Core, t: Tid)
    requires t < |c.ts.tcb|
    ensures Codes(c, Mark(c, t, c.ts.tcb[t].(wupque := false)), None, Plain(E_OK))
  {
    CodesOne(c, Mark(c, t, c.ts.tcb[t].(wupque := false)), t, None, Plain(E_OK));
  }

  lemma DlyCodes(g: Config, c: Core, d: nat)
    requires Inv(g, c) && TaskArgs(g, c, Dly_(d))
    ensures Codes(c, TaskStep(g, c, Dly_(d)), None, Plain(E_OK))
  {
    hide Good, Block, Codes;
    CodesSame(c, c, None, Plain(E_OK));
    if MayBlock(c) { CodesBlock(g, c, Dly, NoData, Some(d), Plain(E_OK)); }
  }

  /** Calls on a task that do not concern its wait. */
  lemma ActCodes(g: Config, c: Core, t: Tid)
    requires Inv(g, c) && TaskArgs(g, c, Act(t))
    ensures Codes(c, TaskStep(g, c, Act(t)), None, Plain(E_OK))
  {
    hide Good, DispInv, Unlink, Insert, Top;
    CodesOne(c, TaskStep(g, c, Act(t)), t, None, Plain(E_OK));
  }

  lemma CancelCodes(g: Config, c: Core, op: TaskOp)
    requires Inv(g, c) && TaskArgs(g, c, op) && (op.CanAct_? || op.CanWup_?)
    ensures Codes(c, TaskStep(g, c, op), None, Plain(E_OK))
  {
    hide Good, DispInv;
    CodesOne(c, TaskStep(g, c, op), op.t, None, Plain(E_OK));
  }

  lemma ChgCodes(g: Config, c: Core, t: Tid, pri: int)
    requires Inv(g, c) && TaskArgs(g, c, Chg(t, pri))
    ensures Codes(c, TaskStep(g, c, Chg(t, pri)), None, Plain(E_OK))
  {
    hide Good, DispInv, Unlink, Insert;
    CodesOne(c, TaskStep(g, c, Chg(t, pri)), t, None, Plain(E_OK));
  }

  /** Calls that end the wait of a task or change its state. */
  lemma WupCodes(g: Config, c: Core, t: Tid)
    requires Inv(g, c) && TaskArgs(g, c, Wup(t))
    ensures Codes(c, TaskStep(g, c, Wup(t)), None, Plain(E_OK))
  {
    hide Good, DispInv, Unlink, Insert, Top;
    CodesOne(c, TaskStep(g, c, Wup(t)), t, None, Plain(E_OK));
  }

  lemma RelCodes(g: Config, c: Core, t: Tid)
    requires Inv(g, c) && TaskArgs(g, c, Rel(t))
    ensures Codes(c, TaskStep(g, c, Rel(t)), None, Plain(E_RLWAI))
  {
    hide Good, DispInv, Unlink, Insert, Top;
    CodesOne(c, TaskStep(g, c, Rel(t)), t, None, Plain(E_RLWAI));
  }

  lemma SuspendCodes(g: Config, c: Core, op: TaskOp)
    requires Inv(g, c) && TaskArgs(g, c, op) && (op.Sus? || op.Rsm?)
    ensures Codes(c, TaskStep(g, c, op), None, Plain(E_OK))
  {
    hide Good, DispInv, Unlink, Insert;
    CodesOne(c, TaskStep(g, c, op), op.t, None, Plain(E_OK));
  }

  lemma TaskCodes(g: Config, c: Core, op: TaskOp)
    requires Inv(g, c) && TaskArgs(g, c, op)
    ensures Codes(c, TaskStep(g, c, op), Killed(OnTask(op)), TaskEnd(op))
  {
    hide Inv, Codes, CodeStep;
    match op
    case Ext => ExtCodes(g, c);
    case Ter(t) => TerCodes(g, c, t);
    case Slp_(p) => SlpCodes(g, c, p);
    case Dly_(d) => DlyCodes(g, c, d);
    case Rot(pri) => CodesSame(c, TaskStep(g, c, op), None, Plain(E_OK));
    case Dis => CodesSame(c, TaskStep(g, c, op), None, Plain(E_OK));
    case Ena => CodesSame(c, TaskStep(g, c, op), None, Plain(E_OK));
    case Ipm(e) => CodesSame(c, TaskStep(g, c, op), None, Plain(E_OK));
    case StartCyc(i) => CodesSame(c, TaskStep(g, c, op), None, Plain(E_OK));
    case StopCyc(i) => CodesSame(c, TaskStep(g, c, op), None, Plain(E_OK));
    case StartAlm(i, time) => CodesSame(c, TaskStep(g, c, op), None, Plain(E_OK));
    case StopAlm(i) => CodesSame(c, TaskStep(g, c, op), None, Plain(E_OK));
    case Chg(t, pri) => ChgCodes(g, c, t, pri);
    case Wup(t) => WupCodes(g, c, t);
    case Rel(t) => RelCodes(g, c, t);
    case Sus(t) => SuspendCodes(g, c, op);
    case Rsm(t) => SuspendCodes(g, c, op);
    case Act(t) => ActCodes(g, c, t);
    case _ => CancelCodes(g, c, op);
  }

  lemma FireCodes(g: Config, c: Core, b: Blk)
    requires Inv(g, c) && MayFire(c, b) && CallbackArgOk(g, c, c.tm[b].cb)
    ensures Codes(c, Fire(g, c, b), None, KernelEnd(c, FireTop(b)))
  {
    hide DispInv, Unlink, Insert, Codes;
    CallbackArg(g, c, b);
    match b
    case TaskBlk(t) => CodesOne(c, Fire(g, c, b), t, None, KernelEnd(c, FireTop(b)));
    case CycBlk(i) => CodesSame(c, Fire(g, c, b), None, Plain(E_OK));
    case AlmBlk(i) => CodesSame(c, Fire(g, c, b), None, Plain(E_OK));
  }

  lemma KernelCodes(g: Config, c: Core, op: KernelOp)
    requires Inv(g, c) && KernelMay(g, c, op)
    ensures Codes(c, KernelStep(g, c, op), None, KernelEnd(c, op))
  {
    match op
    case FireTop(b) => FireCodes(g, c, b);
    case _ => CodesSame(c, KernelStep(g, c, op), None, KernelEnd(c, op));
  }

  /** The reinitialisation of an object. */
  lemma InitCodes(g: Config, c: Core, wq: WQ, req: bool)
    requires Inv(g, c)
    ensures QueueOk(c, wq) && Codes(c, Finish(WakeAll(g, c, WaitQ(c, wq), E_DLT).0, req), None, Plain(E_DLT))
  {
    hide WakeAll, Sorted, TimersInv, TimeInv, DispInv;
    WaitersAreWaiting(c, wq);
    WakeAllTasks(g, c, WaitQ(c, wq), E_DLT);
  }

  lemma InitTwoCodes(g: Config, c: Core, sq: WQ, rq: WQ, req: bool)
    requires Inv(g, c) && sq != rq
    ensures QueueOk(c, sq) && QueueOk(WakeAll(g, c, WaitQ(c, sq), E_DLT).0, rq)
    ensures var c1 := WakeAll(g, c, WaitQ(c, sq), E_DLT).0;
            Codes(c, Finish(WakeAll(g, c1, WaitQ(c1, rq), E_DLT).0, req), None, Plain(E_DLT))
  {
    hide WakeAll, Linked, Sorted, TimersInv, TimeInv, DispInv;
    InitWaitQueueOk(g, c, sq);
    var c1 := WakeAll(g, c, WaitQ(c, sq), E_DLT).0;
    WaitersAreWaiting(c, sq);
    WakeAllTasks(g, c, WaitQ(c, sq), E_DLT);
    WaitersAreWaiting(c1, rq);
    WakeAllTasks(g, c1, WaitQ(c1, rq), E_DLT);
  }

  /** The first task of a queue is woken. */
  lemma HeadCodes(g: Config, c: Core, wq: WQ, d: WData, e: Ending)
    requires Inv(g, c) && WaitQ(c, wq) != [] && e.code == E_OK && d == Received(DataOf(c, WaitQ(c, wq)[0]), e.gift)
    ensures WaitQ(c, wq)[0] < |c.ts.tcb|
    ensures var c1 := Wake(g, c, WaitQ(c, wq)[0], E_OK, d); Codes(c, Finish(c1, Req(c, c1)), None, e)
  {
    WaitersAreWaiting(c, wq);
    assert WaitQ(c, wq)[0] in WaitQ(c, wq);
    CodesWake(g, c, WaitQ(c, wq)[0], e, d, Req(c, Wake(g, c, WaitQ(c, wq)[0], E_OK, d)));
  }

  lemma SemCodes(g: Config, c: Core, s: Sem, i: nat, op: SemOp)
    requires Inv(g, c) && QueueOk(c, SemQ(i))
    ensures RunsTask(c) && Codes(c, SemStep(g, c, s, i, op).0, None, SemEnd(op))
  {
    hide Good, Codes, Wake, Block;
    var c' := SemStep(g, c, s, i, op).0;
    if c' == c { CodesSame(c, c', None, SemEnd(op)); }
    match op
    case Sig => if WaitQ(c, SemQ(i)) != [] { HeadCodes(g, c, SemQ(i), DataOf(c, WaitQ(c, SemQ(i))[0]), SemEnd(op)); }
    case Wai(p) => if MayBlock(c) { CodesBlock(g, c, Obj(SemQ(i)), NoData, TimerOf(p), SemEnd(op)); }
    case IniS => InitCodes(g, c, SemQ(i), WakeAll(g, c, WaitQ(c, SemQ(i)), E_DLT).1);
  }

  lemma FlgCodes(g: Config, c: Core, f: Flg, i: nat, op: FlgOp)
    requires Inv(g, c) && FlgInv(c, f, i) && QueueOk(c, FlgQ(i))
    ensures RunsTask(c) && Codes(c, FlgStep(g, c, f, i, op).0, None, FlgEnd(f, op))
  {
    hide Good, Codes, Wake, Block, FlgInv, Scan, Cond, Raised;
    var c' := FlgStep(g, c, f, i, op).0;
    if c' == c { CodesSame(c, c', None, FlgEnd(f, op)); }
    match op
    case Set(x) => if Live(c) { SetCodes(g, c, f, i, x); }
    case Clr(x) =>
    case WaiF(x, orw, p) =>
      WaiFlgCases(g, c, f, i, x, orw, p);
      if MayBlock(c) { CodesBlock(g, c, Obj(FlgQ(i)), FlgData(x, orw, 0), TimerOf(p), FlgEnd(f, op)); }
    case IniF => InitCodes(g, c, FlgQ(i), WakeAll(g, c, WaitQ(c, FlgQ(i)), E_DLT).1);
  }

  lemma SetCodes(g: Config, c: Core, f: Flg, i: nat, setptn: bv32)
    requires Inv(g, c) && FlgInv(c, f, i) && Live(c)
    ensures QueueOk(c, FlgQ(i))
    ensures Codes(c, SetFlg(g, c, f, i, setptn).0, None, Ending(E_OK, Pattern(Raised(f, setptn).ptn)))
  {
    hide SetFlg, Raised, Released;
    SetFlgReleases(g, c, f, i, setptn);
    WaitersAreWaiting(c, FlgQ(i));
    var f0 := Raised(f, setptn);
    ReleasedWait(c.ts.tcb, f0, WaitQ(c, FlgQ(i)));
  }

  lemma {:induction false} ReleasedWait(tcb: seq<TCB>, f: Flg, s: seq<Tid>)
    ensures forall t: Tid :: t in Released(tcb, f, s) ==> t in s
  {
    if s != [] {
      ReleasedWait(tcb, f, s[1..]);
      assert s == [s[0]] + s[1..];
    }
  }

  lemma SndCodes(g: Config, c: Core, d: D.Dtq, i: nat, x: int, p: Patience)
    requires Inv(g, c) && D.DtqInv(c, d, i)
    ensures var e := Ending(E_OK, Gives(MsgData(x, 0)));
            RunsTask(c) && QueueOk(c, RDtqQ(i)) && Codes(c, D.SndDtq(g, c, d, i, x, p).0, None, e)
  {
    var e := Ending(E_OK, Gives(MsgData(x, 0)));
    hide Good, Codes, Wake, Block, D.SndDtq, D.DtqInv, Finish;
    HasQueue(g, c, RDtqQ(i));
    D.SndDtqCases(g, c, d, i, x, p);
    CodesSame(c, c, None, e);
    if WaitQ(c, RDtqQ(i)) != [] { HeadCodes(g, c, RDtqQ(i), MsgData(x, 0), e); }
    if MayBlock(c) { CodesBlock(g, c, Obj(SDtqQ(i)), MsgData(x, 0), TimerOf(p), e); }
  }

  lemma FsndCodes(g: Config, c: Core, d: D.Dtq, i: nat, x: int)
    requires Inv(g, c) && |d.buf| <= d.cap
    ensures var e := Ending(E_OK, Gives(MsgData(x, 0)));
            QueueOk(c, RDtqQ(i)) && Codes(c, D.FsndDtq(g, c, d, i, x).0, None, e)
  {
    var e := Ending(E_OK, Gives(MsgData(x, 0)));
    hide Good, Codes, Wake;
    HasQueue(g, c, RDtqQ(i));
    CodesSame(c, c, None, e);
    if WaitQ(c, RDtqQ(i)) != [] { HeadCodes(g, c, RDtqQ(i), MsgData(x, 0), e); }
  }

  lemma RcvCodes(g: Config, c: Core, d: D.Dtq, i: nat, p: Patience)
    requires Inv(g, c) && D.DtqInv(c, d, i)
    ensures RunsTask(c) && QueueOk(c, SDtqQ(i)) && Codes(c, D.RcvDtq(g, c, d, i, p).0, None, Plain(E_OK))
  {
    hide Good, Codes, Wake, Block, D.RcvDtq, D.DtqInv, Finish;
    HasQueue(g, c, SDtqQ(i));
    D.RcvDtqCases(g, c, d, i, p);
    CodesSame(c, c, None, Plain(E_OK));
    if WaitQ(c, SDtqQ(i)) != [] { HeadCodes(g, c, SDtqQ(i), DataOf(c, WaitQ(c, SDtqQ(i))[0]), Plain(E_OK)); }
    if MayBlock(c) { CodesBlock(g, c, Obj(RDtqQ(i)), NoData, TimerOf(p), Plain(E_OK)); }
  }

  lemma DtqCodes(g: Config, c: Core, d: D.Dtq, i: nat, op: DtqOp)
    requires Inv(g, c) && D.DtqInv(c, d, i) && DtqArgs(g, c, d, i)
    ensures Codes(c, DtqStep(g, c, d, i, op).0, None, DtqEnd(op))
  {
    hide Inv, Codes, D.SndDtq, D.RcvDtq, D.FsndDtq, WakeAll, D.DtqInv;
    match op
    case Snd(x, p) => SndCodes(g, c, d, i, x, p);
    case Fsnd(x) => FsndCodes(g, c, d, i, x);
    case Rcv(p) => RcvCodes(g, c, d, i, p);
    case IniD =>
      CodesSame(c, c, None, Plain(E_DLT));
      var (c1, r1) := WakeAll(g, c, WaitQ(c, SDtqQ(i)), E_DLT);
      InitTwoCodes(g, c, SDtqQ(i), RDtqQ(i), r1 || WakeAll(g, c1, WaitQ(c1, RDtqQ(i)), E_DLT).1);
  }

  lemma SndPriCodes(g: Config, c: Core, d: P.Pdq, i: nat, m: P.Msg, p: Patience)
    requires Inv(g, c) && P.PdqInv(c, d, i)
    ensures var e := Ending(E_OK, Gives(P.ToData(m)));
            RunsTask(c) && QueueOk(c, RPdqQ(i)) && Codes(c, P.SndPdq(g, c, d, i, m, p).0, None, e)
  {
    var e := Ending(E_OK, Gives(P.ToData(m)));
    hide Good, Codes, Wake, Block, P.SndPdq, P.PdqInv, Finish;
    HasQueue(g, c, RPdqQ(i));
    P.SndPdqCases(g, c, d, i, m, p);
    CodesSame(c, c, None, e);
    if WaitQ(c, RPdqQ(i)) != [] { HeadCodes(g, c, RPdqQ(i), P.ToData(m), e); }
    if MayBlock(c) { CodesBlock(g, c, Obj(SPdqQ(i)), P.ToData(m), TimerOf(p), e); }
  }

  lemma RcvPriCodes(g: Config, c: Core, d: P.Pdq, i: nat, p: Patience)
    requires Inv(g, c) && P.PdqInv(c, d, i)
    ensures RunsTask(c) && QueueOk(c, SPdqQ(i)) && Codes(c, P.RcvPdq(g, c, d, i, p).0, None, Plain(E_OK))
  {
    hide Good, Codes, Wake, Block, P.RcvPdq, P.PdqInv, Finish;
    HasQueue(g, c, SPdqQ(i));
    P.RcvPdqCases(g, c, d, i, p);
    CodesSame(c, c, None, Plain(E_OK));
    if WaitQ(c, SPdqQ(i)) != [] { HeadCodes(g, c, SPdqQ(i), DataOf(c, WaitQ(c, SPdqQ(i))[0]), Plain(E_OK)); }
    if MayBlock(c) { CodesBlock(g, c, Obj(RPdqQ(i)), NoData, TimerOf(p), Plain(E_OK)); }
  }

  lemma PdqCodes(g: Config, c: Core, d: P.Pdq, i: nat, op: PdqOp)
    requires Inv(g, c) && P.PdqInv(c, d, i) && PdqArgs(g, c, d, i)
    ensures Codes(c, PdqStep(g, c, d, i, op).0, None, PdqEnd(op))
  {
    hide Inv, Codes, P.SndPdq, P.RcvPdq, WakeAll, P.PdqInv;
    match op
    case SndP(m, p) => SndPriCodes(g, c, d, i, m, p);
    case RcvP(p) => RcvPriCodes(g, c, d, i, p);
    case IniP =>
      CodesSame(c, c, None, Plain(E_DLT));
      var (c1, r1) := WakeAll(g, c, WaitQ(c, SPdqQ(i)), E_DLT);
      InitTwoCodes(g, c, SPdqQ(i), RPdqQ(i), r1 || WakeAll(g, c1, WaitQ(c1, RPdqQ(i)), E_DLT).1);
  }

  lemma MpfCodes(g: Config, c: Core, m: Mpf, i: nat, op: MpfOp)
    requires Inv(g, c) && QueueOk(c, MpfQ(i)) && m.blksz > 0
    ensures RunsTask(c) && Codes(c, MpfStep(g, c, m, i, op).0, None, MpfEnd(op))
  {
    hide Good, Codes, Wake, Block, ValidBlock, GetBlock, FreeCount, Address, WakeAll;
    CodesSame(c, c, None, MpfEnd(op));
    match op
    case Get(p) => if MayBlock(c) { CodesBlock(g, c, Obj(MpfQ(i)), NoData, TimerOf(p), MpfEnd(op)); }
    case RelM(b) => if WaitQ(c, MpfQ(i)) != [] { HeadCodes(g, c, MpfQ(i), BlkData(b), MpfEnd(op)); }
    case IniM => InitCodes(g, c, MpfQ(i), WakeAll(g, c, WaitQ(c, MpfQ(i)), E_DLT).1);
  }

  /** Every step of the kernel treats every wait-information block as CodeStep says. */
  lemma StepCodes(g: Config, s: Sys, op: Op)
    requires SysInv(g, s) && May(g, s, op)
    ensures Codes(s.c, Step(g, s, op).c, Killed(op), EndOf(s, op))
  {
    hide Inv, Codes, SemInv, FlgInv, D.DtqInv, P.PdqInv, MpfInv;
    match op
    case OnTask(top) => TaskCodes(g, s.c, top);
    case OnKernel(kop) => KernelCodes(g, s.c, kop);
    case OnSem(i, sop) => SemCodes(g, s.c, s.sem[i], i, sop);
    case OnFlg(i, fop) => FlgCodes(g, s.c, s.flg[i], i, fop);
    case OnDtq(i, dop) => DtqCodes(g, s.c, s.dtq[i], i, dop);
    case OnPdq(i, pop) => PdqCodes(g, s.c, s.pdq[i], i, pop);
    case OnMpf(i, mop) => MpfCodes(g, s.c, s.mpf[i], i, mop);
  }

  ghost predicate WaitingIn(s: Sys, t: Tid) { t < |s.c.ts.tcb| && s.c.ts.tcb[t].tstat.Waiting? }

  /** What task t finds in its wait-information block: the code, and the data. */
  ghost predicate Finds(s: Sys, t: Tid, code: ER, d: WData) {
    t < |s.c.ts.tcb| && s.c.ts.tcb[t].winfo == Wercd(code) && s.c.ts.tcb[t].wdata == d
  }

  lemma CodeGiven(g: Config, s: Sys, op: Op, t: Tid)
    requires SysInv(g, s) && May(g, s, op) && WaitingIn(s, t) && !WaitingIn(Step(g, s, op), t) && Killed(op) != Some(t)
    ensures Finds(Step(g, s, op), t, EndOf(s, op).code, Received(DataOf(s.c, t), EndOf(s, op).gift))
  {
    hide SysInv, May, Step, EndOf;
    StepCodes(g, s, op);
  }

  lemma CodeStays(g: Config, s: Sys, op: Op, t: Tid, code: ER, d: WData)
    requires SysInv(g, s) && May(g, s, op) && Finds(s, t, code, d) && !WaitingIn(s, t) && !WaitingIn(Step(g, s, op), t)
    ensures Finds(Step(g, s, op), t, code, d)
  {
    hide SysInv, May, Step, EndOf;
    StepCodes(g, s, op);
  }

  /** While a task waits, the data it waits with stay as they are. */
  lemma {:induction false} DataStay(g: Config, tr: seq<Sys>, ops: seq<Op>, t: Tid, m: nat, n: nat)
    requires IsRun(g, tr, ops) && SysInv(g, tr[0]) && m <= n < |tr| && forall j :: m <= j <= n ==> WaitingIn(tr[j], t)
    ensures DataOf(tr[n].c, t) == DataOf(tr[m].c, t)
    decreases n
  {
    hide SysInv, May, Step, EndOf;
    if n > m {
      DataStay(g, tr, ops, t, m, n - 1);
      RunsKeepInv(g, tr, ops, n - 1);
      assert tr[n - 1 + 1] == Step(g, tr[n - 1], ops[n - 1]);
      StepCodes(g, tr[n - 1], ops[n - 1]);
    }
  }

  /** A wait ends once, with one code and one gift -- the datum of a message, the pattern of an event
      flag, the address of a block -- and both are what the task finds when it resumes, whatever happens
      in between. */
  lemma {:induction false} CodeReachesTask(g: Config, tr: seq<Sys>, ops: seq<Op>, t: Tid, k: nat, n: nat)
    requires IsRun(g, tr, ops) && SysInv(g, tr[0]) && k < n < |tr| && WaitingIn(tr[k], t) && Killed(ops[k]) != Some(t)
    requires forall j :: k < j <= n ==> !WaitingIn(tr[j], t)
    ensures var e := EndOf(tr[k], ops[k]); Finds(tr[n], t, e.code, Received(DataOf(tr[k].c, t), e.gift))
    decreases n
  {
    hide SysInv, May, Step, WaitingIn, Finds, EndOf, Received;
    RunsKeepInv(g, tr, ops, n - 1);
    assert tr[n - 1 + 1] == Step(g, tr[n - 1], ops[n - 1]);
    if n - 1 > k {
      CodeReachesTask(g, tr, ops, t, k, n - 1);
      var e := EndOf(tr[k], ops[k]);
      CodeStays(g, tr[n - 1], ops[n - 1], t, e.code, Received(DataOf(tr[k].c, t), e.gift));
    } else {
      CodeGiven(g, tr[k], ops[k], t);
    }
  }
}
