/**
  The state shared by all parts of the kernel -- control blocks, queues, registered time events,
  dispatcher variables, clock -- and the few transitions of which every service call is composed.
  Derived variables of the kernel (the ready bitmap, p_schedtsk, the event heap) do not appear here;
  class Kernel keeps them and is proved to agree with these transitions.
 */
module Core {
  import opened Types
  import opened Seqs
  import opened TaskQueues
  import opened SystemClock

  datatype Flags = Flags(reqflg: bool, ipmflg: bool, disdsp: bool, dspflg: bool)

  /** A cyclic handler; t0 (its first time) and runs (how often it ran since) are history. */
  datatype Cyc = Cyc(sta: bool, evttim: int, t0: int, runs: nat)

  datatype Fired = Fired(b: Blk, time: int)

  /** nest counts the interrupt handlers in progress; 0 is task context.  drain is the nesting level
      at which signal_time is calling callbacks, if it is; fired lists, as history, the events of
      the current or last tick in the order of their callbacks. */
  datatype Core = Core(
    ts: Tasks, tm: map<Blk, Ev>, run: Option<Tid>, fl: Flags, nest: nat, drain: Option<nat>,
    fired: seq<Fired>, clk: Clock, cyc: seq<Cyc>, alm: seq<bool>)

  function TopOf(c: Core): Option<Tid> { Top(c.ts.q) }

  function WaitQ(c: Core, wq: WQ): seq<Tid> { At(c.ts.q, Wait(wq)) }

  // ----- transitions -----

  /** What make_runnable, make_non_runnable, change_priority and rotate_ready_queue report: the
      scheduled task has changed and dispatching is allowed. */
  predicate Req(c: Core, c': Core) { c.fl.dspflg && TopOf(c') != TopOf(c) }

  /** dispatch(). */
  function Dispatch(c: Core): Core { c.(run := TopOf(c)) }

  /** How a service call acts on a dispatch request: a task dispatches at once, an interrupt handler
      leaves the request to its exit. */
  function Finish(c: Core, req: bool): Core {
    if !req then c
    else if c.nest == 0 then Dispatch(c)
    else c.(fl := c.fl.(reqflg := true))
  }

  function SetTask(g: Config, c: Core, t: Tid, b: TCB): Core
    requires t < |c.ts.tcb|
  {
    c.(ts := Rehome(g, c.ts, t, b))
  }

  function Woken(b: TCB, code: ER, d: WData): TCB {
    b.(tstat := if b.tstat.Waiting? && b.tstat.susp then Suspended else Runnable, winfo := Wercd(code), wdata := d)
  }

  /** The end of a wait: out of the wait queue, out of the event heap, return code set, runnable
      again unless suspended as well. */
  function Wake(g: Config, c: Core, t: Tid, code: ER, d: WData): Core
    requires t < |c.ts.tcb|
  {
    SetTask(g, c, t, Woken(c.ts.tcb[t], code, d)).(tm := c.tm - {TaskBlk(t)})
  }

  function CallbackOf(t: Tid, why: Why): Callback {
    if why.Dly? then WaitTmoutOk(t) else WaitTmout(t)
  }

  function RelEvent(k: Clock, cb: Callback, rel: nat): Ev {
    Ev(Base(k) + rel, cb, k.ticks, rel)
  }

  /** The running task goes to sleep, with a timer if one is given, and another one is dispatched. */
  function Block(g: Config, c: Core, why: Why, d: WData, timer: Option<nat>): Core
    requires c.run.Some? && c.run.value < |c.ts.tcb|
  {
    var t := c.run.value;
    var b := c.ts.tcb[t].(tstat := Waiting(why, false), winfo := Timer(timer.Some?), wdata := d);
    var tm := if timer.Some? then c.tm[TaskBlk(t) := RelEvent(c.clk, CallbackOf(t, why), timer.value)] else c.tm;
    Dispatch(SetTask(g, c, t, b).(tm := tm))
  }

  function Initial(g: Config, b: TCB, t: Tid): TCB
    requires t < |g.ipri|
  {
    b.(tstat := Dormant, priority := g.ipri[t], wupque := false)
  }

  /** make_active. */
  function Activate(g: Config, c: Core, t: Tid): Core
    requires t < |c.ts.tcb|
  {
    SetTask(g, c, t, c.ts.tcb[t].(tstat := Runnable))
  }

  /** Termination up to make_dormant. */
  function Terminate(g: Config, c: Core, t: Tid): Core
    requires t < |c.ts.tcb| && t < |g.ipri|
  {
    SetTask(g, c, t, Initial(g, c.ts.tcb[t], t)).(tm := c.tm - {TaskBlk(t)})
  }

  /** Changes of a control block that do not concern its queue. */
  function Mark(c: Core, t: Tid, b: TCB): Core
    requires t < |c.ts.tcb|
  {
    c.(ts := c.ts.(tcb := c.ts.tcb[t := b]))
  }

  /** change_priority. */
  function ChangePriority(g: Config, c: Core, t: Tid, pri: nat): Core
    requires t < |c.ts.tcb|
  {
    var b := c.ts.tcb[t].(priority := pri);
    match Home(b)
    case Some(Wait(wq)) => if Tpri(g, wq) then SetTask(g, c, t, b) else Mark(c, t, b)
    case _ => SetTask(g, c, t, b)
  }

  // ----- invariants -----

  predicate TimedWait(tcb: seq<TCB>, t: Tid) {
    t < |tcb| && tcb[t].tstat.Waiting? && tcb[t].winfo == Timer(true)
  }

  ghost predicate WaitInfoOk(b: TCB) {
    b.tstat.Waiting? ==> b.winfo.Timer? && (b.tstat.why.Dly? ==> b.winfo.timed)
  }

  /** The time block of a task is in the heap iff the task waits with a timer, and it will call back
      for that very task. */
  ghost predicate TaskTimers(tcb: seq<TCB>, tm: map<Blk, Ev>) {
    && (forall t: Tid :: TaskBlk(t) in tm <==> TimedWait(tcb, t))
    && (forall t: Tid :: TaskBlk(t) in tm ==> tm[TaskBlk(t)].cb == CallbackOf(t, tcb[t].tstat.why))
    && (forall t :: 0 <= t < |tcb| ==> WaitInfoOk(tcb[t]))
  }

  /** The block of a cyclic handler is in the heap iff the handler is started, at its next time; and
      that time is where the runs since its start have taken it. */
  ghost predicate CycTimers(g: Config, cyc: seq<Cyc>, tm: map<Blk, Ev>) {
    && |cyc| == |g.cyc|
    && (forall i: nat :: CycBlk(i) in tm <==> i < |cyc| && cyc[i].sta)
    && (forall i: nat :: CycBlk(i) in tm ==>
          && tm[CycBlk(i)].cb == CallCychdr(i)
          && tm[CycBlk(i)].time == cyc[i].evttim == cyc[i].t0 + cyc[i].runs * g.cyc[i].cyctim)
  }

  ghost predicate AlmTimers(g: Config, alm: seq<bool>, tm: map<Blk, Ev>) {
    && |alm| == g.nalm
    && (forall i: nat :: AlmBlk(i) in tm <==> i < |alm| && alm[i])
    && (forall i: nat :: AlmBlk(i) in tm ==> tm[AlmBlk(i)].cb == CallAlmhdr(i))
  }

  /** Every queued time lies ahead of min_time -- until the first tick has been processed a cyclic
      handler may be due at once -- and not further than a relative time and a tick ahead of
      next_time. */
  ghost predicate EvOk(g: Config, k: Clock, b: Blk, e: Ev) {
    && (e.time > k.min || (b.CycBlk? && e.time == 0 == k.min && k.ended == 0))
    && e.time <= k.nxt + 1 + TMAX_RELTIM
    && (!b.CycBlk? ==>
          && e.tick <= k.ticks
          && g.ticDeno * (e.time - e.rel - 1) < (e.tick + 1) * g.ticNume <= g.ticDeno * (e.time - e.rel))
  }

  /** Cyclic handlers that ran did so at times that have been reached. */
  ghost predicate CycRan(g: Config, k: Clock, cyc: seq<Cyc>) {
    && |cyc| == |g.cyc|
    && forall i :: 0 <= i < |cyc| && cyc[i].sta && cyc[i].runs > 0 ==> cyc[i].evttim - g.cyc[i].cyctim <= k.cur
  }

  ghost predicate EvTimes(g: Config, k: Clock, tm: map<Blk, Ev>) {
    forall b :: b in tm ==> EvOk(g, k, b, tm[b])
  }

  /** The callbacks of a tick come in the order of their times, all of them due, and nothing that is
      still queued should have come before them. */
  ghost predicate FiredInOrder(fired: seq<Fired>, cur: int, draining: bool, tm: map<Blk, Ev>) {
    && (forall i, j :: 0 <= i < j < |fired| ==> fired[i].time <= fired[j].time)
    && (forall i :: 0 <= i < |fired| ==> fired[i].time <= cur)
    && (draining ==> forall i, b :: 0 <= i < |fired| && b in tm ==> fired[i].time <= tm[b].time)
  }

  ghost predicate TimeInv(g: Config, c: Core) {
    && FiredInOrder(c.fired, c.clk.cur, c.drain.Some?, c.tm)
    && ClockInv(g, c.clk, c.drain.Some?)
    && EvTimes(g, c.clk, c.tm)
    && CycRan(g, c.clk, c.cyc)
    && (c.drain.Some? ==> 0 < c.drain.value <= c.nest)
  }

  ghost predicate TimersInv(g: Config, c: Core) {
    && TaskTimers(c.ts.tcb, c.tm)
    && CycTimers(g, c.cyc, c.tm)
    && AlmTimers(g, c.alm, c.tm)
  }

  /** What holds after every elementary transition. */
  ghost predicate Good(g: Config, c: Core) {
    && |c.ts.tcb| == |g.ipri|
    && Linked(c.ts)
    && Sorted(g, c.ts)
    && TimersInv(g, c)
    && TimeInv(g, c)
  }

  ghost predicate IsRunnable(c: Core, t: Tid) {
    t < |c.ts.tcb| && c.ts.tcb[t].tstat.Runnable?
  }

  /** No missed dispatch.  What holds whenever the CPU is unlocked. */
  ghost predicate DispInv(c: Core) {
    && c.fl.dspflg == (c.fl.ipmflg && !c.fl.disdsp)
    && (c.run.Some? ==> IsRunnable(c, c.run.value))
    && (c.run.None? ==> c.fl.dspflg)
    && (c.nest == 0 ==> !c.fl.reqflg)
    && (c.nest == 0 && c.fl.dspflg ==> c.run == TopOf(c))
    && (c.nest > 0 && c.fl.dspflg && c.run != TopOf(c) ==> c.fl.reqflg)
  }

  ghost predicate Inv(g: Config, c: Core) { ValidConfig(g) && Good(g, c) && DispInv(c) }
}
