/** What a step of the kernel leaves alone: the wait queues of objects it does not work on, in their
    order, and the registered events that it does not end. */
module StepFrames {
  import opened Types
  import opened Seqs
  import opened TaskQueues
  import opened Core
  import opened CoreProofs
  import opened TaskCalls
  import opened TaskCallProofs
  import opened TimeCalls
  import opened TimeCallProofs
  import opened WaitQueues
  import opened Semaphore
  import opened EventFlag
  import D = DataQueue
  import P = PriDataQueue
  import opened MemoryPool
  import opened System
  import opened SystemProofs

  /** The task whose wait, on whatever object, the step may end from outside. */
  function Ended(op: Op): Option<Tid> {
    match op
    case OnTask(Rel(t)) => Some(t)
    case OnTask(Ter(t)) => Some(t)
    case OnKernel(FireTop(TaskBlk(t))) => Some(t)
    case _ => None
  }

  /** A queue that the step does not work on keeps its tasks in their order, without the one whose wait
      is ended from outside; only chg_pri moves a task within a queue in priority order. */
  ghost predicate QueueKept(g: Config, op: Op, wq: WQ, q: seq<Tid>, q': seq<Tid>) {
    || q' == q
    || (Ended(op).Some? && Ended(op).value in q && q' == Remove(q, Ended(op).value))
    || (op.OnTask? && op.top.Chg? && Tpri(g, wq) && multiset(q') == multiset(q))
  }

  ghost predicate QueuesKept(g: Config, op: Op, c: Core, c': Core) {
    forall wq :: wq !in Own(op) ==> QueueKept(g, op, wq, WaitQ(c, wq), WaitQ(c', wq))
  }

  /** The call takes the event x from the heap: a task no longer waits with it, a handler is stopped or
      started anew. */
  ghost predicate Stopped(op: Op, x: Blk, tm': map<Blk, Ev>) {
    match x
    case TaskBlk(t) => x !in tm' && !op.OnKernel?
    case CycBlk(i) => op == OnTask(StopCyc(i)) || op == OnTask(StartCyc(i))
    case AlmBlk(i) => op.OnTask? && (op.top == StopAlm(i) || (op.top.StartAlm? && op.top.i == i))
  }

  ghost predicate EventsKept(op: Op, tm: map<Blk, Ev>, tm': map<Blk, Ev>) {
    forall x :: x in tm ==> (x in tm' && tm'[x] == tm[x]) || Stopped(op, x, tm')
  }

  /** The processor changes hands only while dispatching is allowed, and only a task changes that. */
  ghost predicate RunKept(c: Core, c': Core) {
    (c'.run != c.run ==> c'.fl.dspflg) && (c'.fl.dspflg != c.fl.dspflg ==> InTask(c))
  }

  predicate SameDispatch(c: Core, c': Core) { c'.run == c.run && c'.fl == c.fl && c'.nest == c.nest }

  ghost predicate Framed(g: Config, op: Op, c: Core, c': Core) {
    QueuesKept(g, op, c, c') && EventsKept(op, c.tm, c'.tm) && RunKept(c, c')
  }

  lemma Same(g: Config, op: Op, c: Core, c': Core)
    requires c'.ts.q == c.ts.q && c'.tm == c.tm && RunKept(c, c')
    ensures Framed(g, op, c, c')
  {
  }

  /** Nothing but events of tasks has gone, and nothing is new. */
  ghost predicate Trimmed(tm: map<Blk, Ev>, tm': map<Blk, Ev>) {
    && (forall x :: x in tm' ==> x in tm && tm'[x] == tm[x])
    && (forall x :: x in tm && x !in tm' ==> x.TaskBlk?)
  }

  ghost predicate SameQueues(c: Core, c': Core, but: set<WQ>) {
    forall wq :: wq !in but ==> WaitQ(c', wq) == WaitQ(c, wq)
  }

  lemma TrimmedFramed(g: Config, op: Op, c: Core, c': Core)
    requires SameQueues(c, c', Own(op)) && Trimmed(c.tm, c'.tm) && RunKept(c, c') && !op.OnKernel?
    ensures Framed(g, op, c, c')
  {
  }

  // ----- transitions -----

  lemma SetTaskQueue(g: Config, c: Core, t: Tid, b: TCB, wq: WQ)
    requires t < |c.ts.tcb| && Home(b) != Some(Wait(wq))
    ensures WaitQ(SetTask(g, c, t, b), wq)
         == if Home(c.ts.tcb[t]) == Some(Wait(wq)) then Remove(WaitQ(c, wq), t) else WaitQ(c, wq)
  {
  }

  lemma SetTaskQueues(g: Config, c: Core, t: Tid, b: TCB)
    requires t < |c.ts.tcb| && !Waits(b) && !Waits(c.ts.tcb[t])
    ensures SameQueues(c, SetTask(g, c, t, b), {}) && SetTask(g, c, t, b).tm == c.tm
            && SameDispatch(c, SetTask(g, c, t, b))
  {
    forall wq ensures WaitQ(SetTask(g, c, t, b), wq) == WaitQ(c, wq) { SetTaskQueue(g, c, t, b, wq); }
  }

  /** The task hangs on the queue of an object. */
  predicate Waits(b: TCB) { b.tstat.Waiting? && b.tstat.why.Obj? }

  lemma WakeFrame(g: Config, c: Core, t: Tid, code: ER, d: WData)
    requires t < |c.ts.tcb| && c.ts.tcb[t].tstat.Waiting?
    ensures var c' := Wake(g, c, t, code, d); var why := c.ts.tcb[t].tstat.why;
            && Trimmed(c.tm, c'.tm) && SameDispatch(c, c')
            && SameQueues(c, c', if why.Obj? then {why.wq} else {})
            && (why.Obj? ==> WaitQ(c', why.wq) == Remove(WaitQ(c, why.wq), t))
  {
    hide Remove, Insert;
    var b := Woken(c.ts.tcb[t], code, d);
    forall wq ensures WaitQ(SetTask(g, c, t, b), wq)
                   == if Home(c.ts.tcb[t]) == Some(Wait(wq)) then Remove(WaitQ(c, wq), t) else WaitQ(c, wq) {
      SetTaskQueue(g, c, t, b, wq);
    }
  }

  lemma BlockFrame(g: Config, c: Core, why: Why, d: WData, timer: Option<nat>)
    requires Inv(g, c) && c.run.Some?
    ensures c.run.value < |c.ts.tcb|
    ensures var c' := Block(g, c, why, d, timer);
            && (forall x :: x in c.tm ==> x in c'.tm && c'.tm[x] == c.tm[x]) && c'.fl == c.fl
            && SameQueues(c, c', if why.Obj? then {why.wq} else {})
  {
    hide Remove, Insert, Linked, Sorted, TimeInv;
    var t := c.run.value;
    var b := c.ts.tcb[t].(tstat := Waiting(why, false), winfo := Timer(timer.Some?), wdata := d);
    forall wq | !(why.Obj? && why.wq == wq) ensures WaitQ(SetTask(g, c, t, b), wq) == WaitQ(c, wq) {
      SetTaskQueue(g, c, t, b, wq);
    }
    assert TaskBlk(t) in c.tm <==> TimedWait(c.ts.tcb, t);
  }

  predicate AllOn(c: Core, s: seq<Tid>, wq: WQ) {
    TasksIn(c, s) && forall i :: 0 <= i < |s| ==> c.ts.tcb[s[i]].tstat.Waiting? && c.ts.tcb[s[i]].tstat.why == Obj(wq)
  }

  lemma {:induction false} WakeAllFrame(g: Config, c: Core, s: seq<Tid>, code: ER, wq: WQ)
    requires AllOn(c, s, wq) && NoDup(s)
    ensures var c' := WakeAll(g, c, s, code).0; Trimmed(c.tm, c'.tm) && SameQueues(c, c', {wq})
    decreases |s|
  {
    if s != [] {
      WakeFrame(g, c, s[0], code, c.ts.tcb[s[0]].wdata);
      WakeAllFrame(g, Wake(g, c, s[0], code, c.ts.tcb[s[0]].wdata), s[1..], code, wq);
    }
  }

  lemma {:induction false} ScanFrame(g: Config, c: Core, f: Flg, s: seq<Tid>, wq: WQ)
    requires AllOn(c, s, wq) && NoDup(s)
    ensures var c' := EventFlag.Scan(g, c, f, s).0; Trimmed(c.tm, c'.tm) && SameQueues(c, c', {wq})
    decreases |s|
  {
    if s != [] {
      if CondOf(f.ptn, DataOf(c, s[0])) {
        var d := EventFlag.Handed(DataOf(c, s[0]), f.ptn);
        WakeFrame(g, c, s[0], E_OK, d);
        if !f.clr { ScanFrame(g, Wake(g, c, s[0], E_OK, d), f, s[1..], wq); }
      } else {
        ScanFrame(g, c, f, s[1..], wq);
      }
    }
  }

  // ----- service calls -----

  /** Calls that change the state of a task that does not wait on an object. */
  lemma StateFrame(g: Config, c: Core, op: TaskOp)
    requires Inv(g, c) && TaskArgs(g, c, op) && (op.Act? || op.CanAct_? || op.CanWup_? || op.Sus? || op.Rsm?)
    ensures Framed(g, OnTask(op), c, TaskStep(g, c, op))
  {
    hide Framed, SetTask, Linked, Sorted, TimeInv, TimersInv, DispInv, TopOf;
    var c', b := TaskStep(g, c, op), c.ts.tcb[op.t];
    if Waits(b) {
      Same(g, OnTask(op), c, c');
    } else {
      SetTaskQueues(g, c, op.t, b.(tstat := if op.Sus? then Suspended else Runnable));
      TrimmedFramed(g, OnTask(op), c, c');
    }
  }

  lemma EndWaitFrame(g: Config, c: Core, op: TaskOp)
    requires Inv(g, c) && TaskArgs(g, c, op) && (op.Wup? || op.Rel?)
    ensures Framed(g, OnTask(op), c, TaskStep(g, c, op))
  {
    hide Wake, Linked, Sorted, TimeInv, TimersInv, DispInv, Top, Remove;
    var b := c.ts.tcb[op.t];
    if b.tstat.Waiting? {
      WakeFrame(g, c, op.t, if op.Wup? then E_OK else E_RLWAI, b.wdata);
      if op.Rel? && b.tstat.why.Obj? { InItsQueue(g, c, op.t); }
    }
  }

  lemma InItsQueue(g: Config, c: Core, t: Tid)
    requires Inv(g, c) && t < |c.ts.tcb| && Waits(c.ts.tcb[t])
    ensures t in WaitQ(c, c.ts.tcb[t].tstat.why.wq)
  {
    WaitersAreWaiting(c, c.ts.tcb[t].tstat.why.wq);
  }

  lemma SleepFrame(g: Config, c: Core, op: TaskOp)
    requires Inv(g, c) && TaskArgs(g, c, op) && (op.Slp_? || op.Dly_?)
    ensures Framed(g, OnTask(op), c, TaskStep(g, c, op))
  {
    hide Block, Linked, Sorted, TimeInv, TimersInv, DispInv;
    if MayBlock(c) {
      BlockFrame(g, c, if op.Slp_? then Slp else Dly, NoData, if op.Slp_? then TimerOf(op.p) else Some(op.d));
    }
  }

  lemma TerminateFrame(g: Config, c: Core, t: Tid)
    requires t < |c.ts.tcb| && t < |g.ipri|
    ensures var c' := Terminate(g, c, t);
            && Trimmed(c.tm, c'.tm) && SameDispatch(c, c')
            && (forall wq :: WaitQ(c', wq)
                  == if Home(c.ts.tcb[t]) == Some(Wait(wq)) then Remove(WaitQ(c, wq), t) else WaitQ(c, wq))
            && |c'.ts.tcb| == |c.ts.tcb| && c'.ts.tcb[t].tstat.Dormant?
  {
    hide Remove;
    forall wq ensures WaitQ(Terminate(g, c, t), wq)
                   == if Home(c.ts.tcb[t]) == Some(Wait(wq)) then Remove(WaitQ(c, wq), t) else WaitQ(c, wq) {
      SetTaskQueue(g, c, t, Initial(g, c.ts.tcb[t], t), wq);
    }
  }

  lemma ReactivateFrame(g: Config, c: Core, t: Tid)
    requires t < |c.ts.tcb| && c.ts.tcb[t].tstat.Dormant?
    ensures var c' := Reactivate(g, c, t); SameQueues(c, c', {}) && c'.tm == c.tm && SameDispatch(c, c')
  {
    hide SetTask;
    var c1 := Mark(c, t, c.ts.tcb[t].(actque := false));
    SetTaskQueues(g, c1, t, c1.ts.tcb[t].(tstat := Runnable));
  }

  lemma ExtFrame(g: Config, c: Core)
    requires Inv(g, c) && TaskArgs(g, c, Ext)
    ensures Framed(g, OnTask(Ext), c, TaskStep(g, c, Ext))
  {
    hide Terminate, Reactivate, Linked, Sorted, TimeInv, TimersInv;
    if InTask(c) {
      var c0 := c.(fl := Flags(c.fl.reqflg, true, false, true));
      TerminateFrame(g, c0, c.run.value);
      ReactivateFrame(g, Terminate(g, c0, c.run.value), c.run.value);
    }
  }

  lemma TerFrame(g: Config, c: Core, t: Tid)
    requires Inv(g, c) && TaskArgs(g, c, Ter(t))
    ensures Framed(g, OnTask(Ter(t)), c, TaskStep(g, c, Ter(t)))
  {
    hide Terminate, Reactivate, Linked, Sorted, TimeInv, TimersInv, DispInv, Remove;
    if InTask(c) && c.run != Some(t) && !c.ts.tcb[t].tstat.Dormant? {
      TerminateFrame(g, c, t);
      ReactivateFrame(g, Terminate(g, c, t), t);
      if Waits(c.ts.tcb[t]) { InItsQueue(g, c, t); }
    }
  }

  lemma RequeuedSame(g: Config, c: Core, t: Tid, b: TCB, wq: WQ)
    requires Linked(c.ts) && t < |c.ts.tcb| && Home(c.ts.tcb[t]) == Some(Wait(wq)) == Home(b)
    ensures multiset(WaitQ(SetTask(g, c, t, b), wq)) == multiset(WaitQ(c, wq))
  {
    hide Linked;
    WaitersAreWaiting(c, wq);
    RemovedOne(WaitQ(c, wq), t);
    InsertedOne(g, c.ts.tcb[t := b], Wait(wq), Remove(WaitQ(c, wq), t), t);
  }

  lemma RemovedOne(s: seq<Tid>, t: Tid)
    requires t in s
    ensures multiset(s) == multiset(Remove(s, t)) + multiset{t}
  {
    assert s == [s[0]] + s[1..];
  }

  lemma InsertedOne(g: Config, tcb: seq<TCB>, h: QId, s: seq<Tid>, t: Tid)
    ensures multiset(Insert(g, tcb, h, s, t)) == multiset(s) + multiset{t}
  {
    var k := PriPos(tcb, s, Prio(tcb, t));
    assert s == s[..k] + s[k..];
  }

  lemma ChangedQueues(g: Config, c: Core, t: Tid, pri: nat)
    requires Linked(c.ts) && t < |c.ts.tcb|
    ensures var c' := ChangePriority(g, c, t, pri);
            && c'.tm == c.tm && SameDispatch(c, c')
            && forall wq ::
                 WaitQ(c', wq) == WaitQ(c, wq) || (Tpri(g, wq) && multiset(WaitQ(c', wq)) == multiset(WaitQ(c, wq)))
  {
    hide SetTask, Linked;
    var b := c.ts.tcb[t].(priority := pri);
    if Waits(b) {
      RequeuedSame(g, c, t, b, b.tstat.why.wq);
      OtherQueues(g, c, t, b);
    } else {
      SetTaskQueues(g, c, t, b);
    }
  }

  lemma ChgFrame(g: Config, c: Core, t: Tid, pri: int)
    requires Inv(g, c) && TaskArgs(g, c, Chg(t, pri))
    ensures Framed(g, OnTask(Chg(t, pri)), c, TaskStep(g, c, Chg(t, pri)))
  {
    hide ChangePriority, Linked, Sorted, TimeInv, TimersInv, DispInv, Top;
    if InTask(c) && 0 <= pri <= TNUM_TPRI {
      ChangedQueues(g, c, t, if pri == 0 then g.ipri[t] else pri - 1);
    }
  }

  lemma OtherQueues(g: Config, c: Core, t: Tid, b: TCB)
    requires t < |c.ts.tcb| && Waits(b) && Home(b) == Home(c.ts.tcb[t])
    ensures SameQueues(c, SetTask(g, c, t, b), {b.tstat.why.wq}) && SetTask(g, c, t, b).tm == c.tm
    ensures SameDispatch(c, SetTask(g, c, t, b))
  {
    forall wq | wq != b.tstat.why.wq ensures WaitQ(SetTask(g, c, t, b), wq) == WaitQ(c, wq) {
      SetTaskQueue(g, c, t, b, wq);
    }
  }

  lemma HandlerFrame(g: Config, c: Core, op: TaskOp)
    requires TaskArgs(g, c, op) && (op.StartCyc? || op.StopCyc? || op.StartAlm? || op.StopAlm?)
    ensures Framed(g, OnTask(op), c, TaskStep(g, c, op))
  {
  }

  lemma TaskFrame(g: Config, c: Core, op: TaskOp)
    requires Inv(g, c) && TaskArgs(g, c, op)
    ensures Framed(g, OnTask(op), c, TaskStep(g, c, op))
  {
    hide Inv, Framed, Rotate;
    match op
    case Ext => ExtFrame(g, c);
    case Ter(t) => TerFrame(g, c, t);
    case Slp_(p) => SleepFrame(g, c, op);
    case Dly_(d) => SleepFrame(g, c, op);
    case Chg(t, pri) => ChgFrame(g, c, t, pri);
    case Wup(t) => EndWaitFrame(g, c, op);
    case Rel(t) => EndWaitFrame(g, c, op);
    case Rot(pri) => RotFrame(g, c, pri);
    case Dis => Same(g, OnTask(op), c, TaskStep(g, c, op));
    case Ena => Same(g, OnTask(op), c, TaskStep(g, c, op));
    case Ipm(e) => Same(g, OnTask(op), c, TaskStep(g, c, op));
    case StartCyc(i) => HandlerFrame(g, c, op);
    case StopCyc(i) => HandlerFrame(g, c, op);
    case StartAlm(i, time) => HandlerFrame(g, c, op);
    case StopAlm(i) => HandlerFrame(g, c, op);
    case _ => StateFrame(g, c, op);
  }

  lemma RotFrame(g: Config, c: Core, pri: int)
    requires TaskArgs(g, c, Rot(pri))
    ensures Framed(g, OnTask(Rot(pri)), c, TaskStep(g, c, Rot(pri)))
  {
  }

  /** One task is woken from a queue of the object. */
  lemma HeadFrame(g: Config, op: Op, c: Core, wq: WQ, d: WData)
    requires Inv(g, c) && WaitQ(c, wq) != [] && wq in Own(op) && !op.OnKernel?
    ensures WaitQ(c, wq)[0] < |c.ts.tcb|
    ensures var c1 := Wake(g, c, WaitQ(c, wq)[0], E_OK, d); Framed(g, op, c, Finish(c1, Req(c, c1)))
  {
    hide Own, Framed, Wake, Sorted, TimeInv, TimersInv, DispInv, Remove, Top;
    WaitersAreWaiting(c, wq);
    assert WaitQ(c, wq)[0] in WaitQ(c, wq);
    WakeFrame(g, c, WaitQ(c, wq)[0], E_OK, d);
    var c1 := Wake(g, c, WaitQ(c, wq)[0], E_OK, d);
    TrimmedFramed(g, op, c, Finish(c1, Req(c, c1)));
  }

  /** The caller goes to sleep on a queue of the object. */
  lemma CallerFrame(g: Config, op: Op, c: Core, wq: WQ, d: WData, timer: Option<nat>)
    requires Inv(g, c) && MayBlock(c) && wq in Own(op)
    ensures c.run.value < |c.ts.tcb| && Framed(g, op, c, Block(g, c, Obj(wq), d, timer))
  {
    hide Block, Good, DispInv;
    BlockFrame(g, c, Obj(wq), d, timer);
  }

  lemma QueueAllOn(c: Core, wq: WQ)
    requires Linked(c.ts)
    ensures AllOn(c, WaitQ(c, wq), wq) && NoDup(WaitQ(c, wq))
  {
    WaitersAreWaiting(c, wq);
    var s := WaitQ(c, wq);
    forall i | 0 <= i < |s| ensures c.ts.tcb[s[i]].tstat.Waiting? && c.ts.tcb[s[i]].tstat.why == Obj(wq) {
      assert s[i] in s;
    }
  }

  /** The object is initialised again. */
  lemma InitFrame(g: Config, op: Op, c: Core, wq: WQ)
    requires Inv(g, c) && wq in Own(op) && !op.OnKernel?
    ensures QueueOk(c, wq)
    ensures var (c1, req) := WakeAll(g, c, WaitQ(c, wq), E_DLT); Framed(g, op, c, Finish(c1, req))
  {
    hide WakeAll, AllOn, Framed, Own, Sorted, TimeInv, TimersInv, DispInv, Top;
    QueueAllOn(c, wq);
    InitWaitQueueOk(g, c, wq);
    WakeAllFrame(g, c, WaitQ(c, wq), E_DLT, wq);
    var (c1, req) := WakeAll(g, c, WaitQ(c, wq), E_DLT);
    TrimmedFramed(g, op, c, Finish(c1, req));
  }

  lemma InitTwoFrame(g: Config, op: Op, c: Core, sq: WQ, rq: WQ)
    requires Inv(g, c) && {sq, rq} <= Own(op) && !op.OnKernel?
    ensures QueueOk(c, sq) && QueueOk(WakeAll(g, c, WaitQ(c, sq), E_DLT).0, rq)
    ensures var (c1, req1) := WakeAll(g, c, WaitQ(c, sq), E_DLT);
            var (c2, req2) := WakeAll(g, c1, WaitQ(c1, rq), E_DLT);
            Framed(g, op, c, Finish(c2, req1 || req2))
  {
    hide WakeAll, AllOn, Framed, Own, Linked, Sorted, TimeInv, TimersInv, DispInv, Top;
    InitWaitQueueOk(g, c, sq);
    QueueAllOn(c, sq);
    WakeAllFrame(g, c, WaitQ(c, sq), E_DLT, sq);
    var (c1, req1) := WakeAll(g, c, WaitQ(c, sq), E_DLT);
    QueueAllOn(c1, rq);
    InitWaitQueueOk(g, c1, rq);
    WakeAllFrame(g, c1, WaitQ(c1, rq), E_DLT, rq);
    var (c2, req2) := WakeAll(g, c1, WaitQ(c1, rq), E_DLT);
    TrimmedFramed(g, op, c, Finish(c2, req1 || req2));
  }

  lemma SemFrame(g: Config, c: Core, s: Sem, i: nat, op: SemOp)
    requires Inv(g, c) && QueueOk(c, SemQ(i))
    ensures RunsTask(c) && Framed(g, OnSem(i, op), c, SemStep(g, c, s, i, op).0)
  {
    hide Good, Framed, Wake, Block;
    Same(g, OnSem(i, op), c, c);
    match op
    case Sig =>
      if WaitQ(c, SemQ(i)) != [] { HeadFrame(g, OnSem(i, op), c, SemQ(i), DataOf(c, WaitQ(c, SemQ(i))[0])); }
    case Wai(p) => if MayBlock(c) { CallerFrame(g, OnSem(i, op), c, SemQ(i), NoData, TimerOf(p)); }
    case IniS => InitFrame(g, OnSem(i, op), c, SemQ(i));
  }

  lemma {:induction false} ScanKeepsRun(g: Config, c: Core, f: Flg, s: seq<Tid>)
    requires TasksIn(c, s)
    ensures var (c', f', req) := EventFlag.Scan(g, c, f, s);
            c'.run == c.run && c'.fl == c.fl && c'.nest == c.nest && (req ==> c.fl.dspflg)
    decreases |s|
  {
    hide TopOf;
    if s != [] {
      if CondOf(f.ptn, DataOf(c, s[0])) {
        if !f.clr { ScanKeepsRun(g, Wake(g, c, s[0], E_OK, EventFlag.Handed(DataOf(c, s[0]), f.ptn)), f, s[1..]); }
      } else {
        ScanKeepsRun(g, c, f, s[1..]);
      }
    }
  }

  lemma SetFrame(g: Config, c: Core, f: Flg, i: nat, setptn: bv32)
    requires Inv(g, c)
    ensures QueueOk(c, FlgQ(i)) && Framed(g, OnFlg(i, Set(setptn)), c, SetFlg(g, c, f, i, setptn).0)
  {
    hide EventFlag.Scan, AllOn, Framed, Sorted, TimeInv, TimersInv, DispInv, Raised, Top;
    WaitersAreWaiting(c, FlgQ(i));
    QueueAllOn(c, FlgQ(i));
    ScanFrame(g, c, Raised(f, setptn), WaitQ(c, FlgQ(i)), FlgQ(i));
    ScanKeepsRun(g, c, Raised(f, setptn), WaitQ(c, FlgQ(i)));
    TrimmedFramed(g, OnFlg(i, Set(setptn)), c, SetFlg(g, c, f, i, setptn).0);
  }

  lemma FlgFrame(g: Config, c: Core, f: Flg, i: nat, op: FlgOp)
    requires Inv(g, c) && QueueOk(c, FlgQ(i))
    ensures RunsTask(c) && Framed(g, OnFlg(i, op), c, FlgStep(g, c, f, i, op).0)
  {
    hide Good, Framed, SetFlg, Block, Cond;
    Same(g, OnFlg(i, op), c, c);
    match op
    case Set(x) => SetFrame(g, c, f, i, x);
    case Clr(x) =>
    case WaiF(x, orw, p) =>
      if MayBlock(c) { CallerFrame(g, OnFlg(i, op), c, FlgQ(i), FlgData(x, orw, 0), TimerOf(p)); }
    case IniF => InitFrame(g, OnFlg(i, op), c, FlgQ(i));
  }

  lemma FsndFrame(g: Config, c: Core, d: D.Dtq, i: nat, x: int)
    requires Inv(g, c) && |d.buf| <= d.cap
    ensures QueueOk(c, RDtqQ(i)) && Framed(g, OnDtq(i, Fsnd(x)), c, D.FsndDtq(g, c, d, i, x).0)
  {
    hide Good, Framed, Wake;
    HasQueue(g, c, RDtqQ(i));
    Same(g, OnDtq(i, Fsnd(x)), c, c);
    if WaitQ(c, RDtqQ(i)) != [] { HeadFrame(g, OnDtq(i, Fsnd(x)), c, RDtqQ(i), MsgData(x, 0)); }
  }

  lemma DtqFrame(g: Config, c: Core, d: D.Dtq, i: nat, op: DtqOp)
    requires Inv(g, c) && D.DtqInv(c, d, i) && DtqArgs(g, c, d, i)
    ensures Framed(g, OnDtq(i, op), c, DtqStep(g, c, d, i, op).0)
  {
    hide Inv, Framed, Wake, Block, D.SndDtq, D.RcvDtq, D.FsndDtq, WakeAll, D.DtqInv, Finish;
    HasQueue(g, c, RDtqQ(i));
    Same(g, OnDtq(i, op), c, c);
    var r, s := WaitQ(c, RDtqQ(i)), WaitQ(c, SDtqQ(i));
    match op
    case Snd(x, p) =>
      D.SndDtqCases(g, c, d, i, x, p);
      if r != [] { HeadFrame(g, OnDtq(i, op), c, RDtqQ(i), MsgData(x, 0)); }
      if MayBlock(c) { CallerFrame(g, OnDtq(i, op), c, SDtqQ(i), MsgData(x, 0), TimerOf(p)); }
    case Fsnd(x) => FsndFrame(g, c, d, i, x);
    case Rcv(p) =>
      D.RcvDtqCases(g, c, d, i, p);
      if s != [] { HeadFrame(g, OnDtq(i, op), c, SDtqQ(i), DataOf(c, s[0])); }
      if MayBlock(c) { CallerFrame(g, OnDtq(i, op), c, RDtqQ(i), NoData, TimerOf(p)); }
    case IniD => InitTwoFrame(g, OnDtq(i, op), c, SDtqQ(i), RDtqQ(i));
  }

  lemma PdqFrame(g: Config, c: Core, d: P.Pdq, i: nat, op: PdqOp)
    requires Inv(g, c) && P.PdqInv(c, d, i) && PdqArgs(g, c, d, i)
    ensures Framed(g, OnPdq(i, op), c, PdqStep(g, c, d, i, op).0)
  {
    hide Inv, Framed, Wake, Block, P.SndPdq, P.RcvPdq, WakeAll, P.PdqInv, Finish;
    HasQueue(g, c, RPdqQ(i));
    Same(g, OnPdq(i, op), c, c);
    var r, s := WaitQ(c, RPdqQ(i)), WaitQ(c, SPdqQ(i));
    match op
    case SndP(m, p) =>
      P.SndPdqCases(g, c, d, i, m, p);
      if r != [] { HeadFrame(g, OnPdq(i, op), c, RPdqQ(i), P.ToData(m)); }
      if MayBlock(c) { CallerFrame(g, OnPdq(i, op), c, SPdqQ(i), P.ToData(m), TimerOf(p)); }
    case RcvP(p) =>
      P.RcvPdqCases(g, c, d, i, p);
      if s != [] { HeadFrame(g, OnPdq(i, op), c, SPdqQ(i), DataOf(c, s[0])); }
      if MayBlock(c) { CallerFrame(g, OnPdq(i, op), c, RPdqQ(i), NoData, TimerOf(p)); }
    case IniP => InitTwoFrame(g, OnPdq(i, op), c, SPdqQ(i), RPdqQ(i));
  }

  lemma MpfFrame(g: Config, c: Core, m: Mpf, i: nat, op: MpfOp)
    requires Inv(g, c) && QueueOk(c, MpfQ(i)) && m.blksz > 0
    ensures RunsTask(c) && Framed(g, OnMpf(i, op), c, MpfStep(g, c, m, i, op).0)
  {
    hide Good, Framed, Wake, Block, ValidBlock, GetBlock, FreeCount, Address, WakeAll;
    Same(g, OnMpf(i, op), c, c);
    match op
    case Get(p) => if MayBlock(c) { CallerFrame(g, OnMpf(i, op), c, MpfQ(i), NoData, TimerOf(p)); }
    case RelM(b) => if WaitQ(c, MpfQ(i)) != [] { HeadFrame(g, OnMpf(i, op), c, MpfQ(i), BlkData(b)); }
    case IniM => InitFrame(g, OnMpf(i, op), c, MpfQ(i));
  }

  /** What every service call leaves alone. */
  lemma CallFrame(g: Config, s: Sys, op: Op)
    requires SysInv(g, s) && May(g, s, op) && !op.OnKernel?
    ensures Framed(g, op, s.c, Step(g, s, op).c)
  {
    hide Inv, Framed, SemInv, FlgInv, D.DtqInv, P.PdqInv, MpfInv;
    match op
    case OnTask(top) => TaskFrame(g, s.c, top);
    case OnSem(i, sop) => SemFrame(g, s.c, s.sem[i], i, sop);
    case OnFlg(i, fop) => FlgFrame(g, s.c, s.flg[i], i, fop);
    case OnDtq(i, dop) => DtqFrame(g, s.c, s.dtq[i], i, dop);
    case OnPdq(i, pop) => PdqFrame(g, s.c, s.pdq[i], i, pop);
    case OnMpf(i, mop) => MpfFrame(g, s.c, s.mpf[i], i, mop);
  }

  lemma FireFrame(g: Config, c: Core, b: Blk)
    requires Inv(g, c) && MayFire(c, b) && CallbackArgOk(g, c, c.tm[b].cb)
    ensures QueuesKept(g, OnKernel(FireTop(b)), c, Fire(g, c, b))
  {
    hide Wake, Linked, Sorted, TimeInv, DispInv, Top, Remove;
    CallbackArg(g, c, b);
    match b
    case TaskBlk(t) =>
      var c1 := c.(tm := c.tm - {b}, fired := c.fired + [Fired(b, c.tm[b].time)]);
      var code := if c.ts.tcb[t].tstat.why.Dly? then E_OK else E_TMOUT;
      WakeFrame(g, c1, t, code, c.ts.tcb[t].wdata);
      if Waits(c.ts.tcb[t]) { InItsQueue(g, c, t); }
    case CycBlk(i) =>
    case AlmBlk(i) =>
  }

  /** A wait queue changes only by calls on its object, by the end of a wait from outside, and, in
      priority order, by chg_pri; and those that stay in it keep their data. */
  lemma ForeignQueue(g: Config, s: Sys, op: Op, wq: WQ)
    requires SysInv(g, s) && May(g, s, op) && wq !in Own(op)
    ensures var s' := Step(g, s, op);
            && QueueKept(g, op, wq, WaitQ(s.c, wq), WaitQ(s'.c, wq))
            && forall t: Tid :: t in WaitQ(s'.c, wq) ==> t in WaitQ(s.c, wq) && DataOf(s'.c, t) == DataOf(s.c, t)
  {
    hide Step, May, ObjectsInv, Sorted, TimersInv, TimeInv, QueueKept;
    CoreStepOk(g, s, op);
    RelyQueue(s.c, Step(g, s, op).c, Own(op), wq);
    QueuesFrame(g, s, op);
  }

  lemma QueuesFrame(g: Config, s: Sys, op: Op)
    requires SysInv(g, s) && May(g, s, op)
    ensures QueuesKept(g, op, s.c, Step(g, s, op).c)
  {
    hide SysInv, QueueKept, EventsKept, MayFire, Fire;
    if op.OnKernel? {
      match op.kop
      case FireTop(b) => FiresQueues(g, s, b);
      case _ => SameKernelQueues(g, s.c, op.kop);
    } else {
      CallFrame(g, s, op);
    }
  }

  lemma FiresQueues(g: Config, s: Sys, b: Blk)
    requires SysInv(g, s) && KernelMay(g, s.c, FireTop(b))
    ensures QueuesKept(g, OnKernel(FireTop(b)), s.c, Fire(g, s.c, b))
  {
    FireFrame(g, s.c, b);
  }

  lemma SameKernelQueues(g: Config, c: Core, op: KernelOp)
    requires KernelMay(g, c, op) && !op.FireTop?
    ensures KernelStep(g, c, op).ts == c.ts && QueuesKept(g, OnKernel(op), c, KernelStep(g, c, op))
  {
  }

  /** A task that leaves a queue because its wait is ended from outside does not wait any more. */
  lemma EndedIsOut(g: Config, s: Sys, op: Op, wq: WQ, t: Tid)
    requires SysInv(g, s) && May(g, s, op) && Ended(op) == Some(t)
    requires t in WaitQ(s.c, wq) && t !in WaitQ(Step(g, s, op).c, wq)
    ensures t < |s.c.ts.tcb| == |Step(g, s, op).c.ts.tcb|
    ensures s.c.ts.tcb[t].tstat.Waiting? && s.c.ts.tcb[t].tstat.why == Obj(wq)
    ensures !Step(g, s, op).c.ts.tcb[t].tstat.Waiting?
  {
    hide ObjectsInv, Sorted, TimersInv, TimeInv, DispInv, Unlink, Insert, Top, MayFire;
    WaitersAreWaiting(s.c, wq);
    if op.OnKernel? { TimedOut(g, s.c, t); }
  }

  lemma TimedOut(g: Config, c: Core, t: Tid)
    requires Inv(g, c) && KernelMay(g, c, FireTop(TaskBlk(t)))
    ensures t < |c.ts.tcb| == |Fire(g, c, TaskBlk(t)).ts.tcb| && !Fire(g, c, TaskBlk(t)).ts.tcb[t].tstat.Waiting?
  {
    CallbackArg(g, c, TaskBlk(t));
  }
}
