/**
  The service calls of task_manage.c, task_sync.c, sys_manage.c and interrupt.c as transitions, and
  the entry and exit of interrupt handlers.  A call and its twin for interrupt handlers are one
  transition; Finish tells them apart.
 */
module TaskCalls {
  import opened Types
  import opened TaskQueues
  import opened Core

  type Result = (Core, ER)

  predicate InTask(c: Core) { c.nest == 0 && c.run.Some? }

  /** Some program is running: a task or an interrupt handler. */
  predicate Live(c: Core) { c.nest > 0 || c.run.Some? }

  /** CHECK_DISPATCH. */
  predicate MayBlock(c: Core) { InTask(c) && c.fl.dspflg }

  predicate IsTask(c: Core, t: Tid) { t < |c.ts.tcb| }

  /** The running task, if any, is one of the table. */
  predicate RunsTask(c: Core) { c.run.Some? ==> IsTask(c, c.run.value) }

  /** CHECK_TMOUT. */
  predicate TmoOk(p: Patience) { p.Tmo? ==> TMO_FEVR <= p.tmo }

  /** TMO is a signed 32-bit type. */
  predicate TmoType(p: Patience) { p.Tmo? ==> p.tmo <= TMAX_RELTIM }

  function TimerOf(p: Patience): Option<nat> {
    if p.Tmo? && p.tmo > 0 then Some(p.tmo) else None
  }

  // ----- task_manage.c -----

  function ActTsk(g: Config, c: Core, t: Tid): Result
    requires IsTask(c, t)
  {
    var b := c.ts.tcb[t];
    if !Live(c) then (c, E_CTX)
    else if b.tstat.Dormant? then
      var c1 := Activate(g, c, t);
      (Finish(c1, Req(c, c1)), E_OK)
    else if !b.actque then (Mark(c, t, b.(actque := true)), E_OK)
    else (c, E_QOVR)
  }

  function CanAct(g: Config, c: Core, t: Tid): (Core, ER, nat)
    requires IsTask(c, t)
  {
    var b := c.ts.tcb[t];
    if !InTask(c) then (c, E_CTX, 0)
    else (Mark(c, t, b.(actque := false)), E_OK, if b.actque then 1 else 0)
  }

  /** A terminated task with a queued activation request starts again. */
  function Reactivate(g: Config, c: Core, t: Tid): Core
    requires IsTask(c, t)
  {
    if c.ts.tcb[t].actque then Activate(g, Mark(c, t, c.ts.tcb[t].(actque := false)), t) else c
  }

  /** ext_tsk leaves every dispatch-disabling state before it gives up the processor. */
  function ExtTsk(g: Config, c: Core): Result
    requires RunsTask(c) && |c.ts.tcb| == |g.ipri|
  {
    if !InTask(c) then (c, E_CTX)
    else
      var c0 := c.(fl := Flags(c.fl.reqflg, true, false, true));
      var c1 := Terminate(g, c0, c.run.value);
      (Dispatch(Reactivate(g, c1, c.run.value)), BLOCKED)
  }

  function TerTsk(g: Config, c: Core, t: Tid): Result
    requires IsTask(c, t) && |c.ts.tcb| == |g.ipri|
  {
    if !InTask(c) then (c, E_CTX)
    else if c.run == Some(t) then (c, E_ILUSE)
    else if c.ts.tcb[t].tstat.Dormant? then (c, E_OBJ)
    else
      var c1 := Terminate(g, c, t);
      var c2 := Reactivate(g, c1, t);
      (Finish(c2, Req(c1, c2)), E_OK)
  }

  /** tskpri is 1 to 16, or TPRI_INI == 0. */
  function ChgPri(g: Config, c: Core, t: Tid, tskpri: int): Result
    requires IsTask(c, t) && |c.ts.tcb| == |g.ipri|
  {
    if !InTask(c) then (c, E_CTX)
    else if !(0 <= tskpri <= TNUM_TPRI) then (c, E_PAR)
    else if c.ts.tcb[t].tstat.Dormant? then (c, E_OBJ)
    else
      var c1 := ChangePriority(g, c, t, if tskpri == 0 then g.ipri[t] else tskpri - 1);
      (Finish(c1, Req(c, c1)), E_OK)
  }

  // ----- task_sync.c -----

  /** slp_tsk and tslp_tsk. */
  function SlpTsk(g: Config, c: Core, p: Patience): Result
    requires RunsTask(c) && p.Tmo?
  {
    if !MayBlock(c) then (c, E_CTX)
    else if !TmoOk(p) then (c, E_PAR)
    else
      var t := c.run.value;
      var b := c.ts.tcb[t];
      if b.wupque then (Mark(c, t, b.(wupque := false)), E_OK)
      else if p.tmo == TMO_POL then (c, E_TMOUT)
      else (Block(g, c, Slp, NoData, TimerOf(p)), BLOCKED)
  }

  function WupTsk(g: Config, c: Core, t: Tid): Result
    requires IsTask(c, t)
  {
    var b := c.ts.tcb[t];
    if !Live(c) then (c, E_CTX)
    else if b.tstat.Dormant? then (c, E_OBJ)
    else if b.tstat.Waiting? && b.tstat.why.Slp? then
      var c1 := Wake(g, c, t, E_OK, b.wdata);
      (Finish(c1, Req(c, c1)), E_OK)
    else if !b.wupque then (Mark(c, t, b.(wupque := true)), E_OK)
    else (c, E_QOVR)
  }

  function CanWup(g: Config, c: Core, t: Tid): (Core, ER, nat)
    requires IsTask(c, t)
  {
    var b := c.ts.tcb[t];
    if !InTask(c) then (c, E_CTX, 0)
    else if b.tstat.Dormant? then (c, E_OBJ, 0)
    else (Mark(c, t, b.(wupque := false)), E_OK, if b.wupque then 1 else 0)
  }

  function RelWai(g: Config, c: Core, t: Tid): Result
    requires IsTask(c, t)
  {
    var b := c.ts.tcb[t];
    if !Live(c) then (c, E_CTX)
    else if !b.tstat.Waiting? then (c, E_OBJ)
    else
      var c1 := Wake(g, c, t, E_RLWAI, b.wdata);
      (Finish(c1, Req(c, c1)), E_OK)
  }

  function SusTsk(g: Config, c: Core, t: Tid): Result
    requires IsTask(c, t)
  {
    var b := c.ts.tcb[t];
    if !InTask(c) then (c, E_CTX)
    else if c.run == Some(t) && !c.fl.dspflg then (c, E_CTX)
    else match b.tstat
      case Dormant => (c, E_OBJ)
      case Runnable =>
        var c1 := SetTask(g, c, t, b.(tstat := Suspended));
        (Finish(c1, Req(c, c1)), E_OK)
      case Suspended => (c, E_QOVR)
      case Waiting(why, susp) =>
        if susp then (c, E_QOVR) else (Mark(c, t, b.(tstat := Waiting(why, true))), E_OK)
  }

  function RsmTsk(g: Config, c: Core, t: Tid): Result
    requires IsTask(c, t)
  {
    var b := c.ts.tcb[t];
    if !InTask(c) then (c, E_CTX)
    else match b.tstat
      case Suspended =>
        var c1 := Activate(g, c, t);
        (Finish(c1, Req(c, c1)), E_OK)
      case Waiting(why, susp) =>
        if susp then (Mark(c, t, b.(tstat := Waiting(why, false))), E_OK) else (c, E_OBJ)
      case _ => (c, E_OBJ)
  }

  function DlyTsk(g: Config, c: Core, dlytim: nat): Result
    requires RunsTask(c)
  {
    if !MayBlock(c) then (c, E_CTX)
    else if dlytim > TMAX_RELTIM then (c, E_PAR)
    else (Block(g, c, Dly, NoData, Some(dlytim)), BLOCKED)
  }

  // ----- sys_manage.c, interrupt.c -----

  /** tskpri is 1 to 16, or, for a task, TPRI_SELF == 0. */
  function RotRdq(g: Config, c: Core, tskpri: int): Result
    requires RunsTask(c)
  {
    if !Live(c) then (c, E_CTX)
    else if !((if c.nest == 0 then 0 else 1) <= tskpri <= TNUM_TPRI) then (c, E_PAR)
    else
      var pri := if tskpri == 0 then c.ts.tcb[c.run.value].priority else tskpri - 1;
      var c1 := c.(ts := Rotate(c.ts, pri));
      (Finish(c1, Req(c, c1)), E_OK)
  }

  function DisDsp(c: Core): Result {
    if !InTask(c) then (c, E_CTX)
    else (c.(fl := c.fl.(disdsp := true, dspflg := false)), E_OK)
  }

  function EnaDsp(c: Core): Result {
    if !InTask(c) then (c, E_CTX)
    else if !c.fl.ipmflg then (c.(fl := c.fl.(disdsp := false)), E_OK)
    else
      var c1 := c.(fl := c.fl.(disdsp := false, dspflg := true));
      (if c1.run != TopOf(c1) then Dispatch(c1) else c1, E_OK)
  }

  /** enaall: the new mask is TIPM_ENAALL. */
  function ChgIpm(c: Core, enaall: bool): Result {
    if !InTask(c) then (c, E_CTX)
    else if !enaall then (c.(fl := c.fl.(ipmflg := false, dspflg := false)), E_OK)
    else if c.fl.disdsp then (c.(fl := c.fl.(ipmflg := true)), E_OK)
    else
      var c1 := c.(fl := c.fl.(ipmflg := true, dspflg := true));
      (if c1.run != TopOf(c1) then Dispatch(c1) else c1, E_OK)
  }

  // ----- interrupt handlers -----

  function IntEnter(c: Core): Core { c.(nest := c.nest + 1) }

  predicate MayExit(c: Core) { c.nest > 0 && c.drain != Some(c.nest) }

  /** The exit of the outermost handler acts on reqflg; that of an inner one leaves it set. */
  function IntExit(c: Core): Core
    requires MayExit(c)
  {
    var c1 := c.(nest := c.nest - 1);
    if c1.nest > 0 || !c1.fl.reqflg then c1
    else
      var c2 := c1.(fl := c1.fl.(reqflg := false));
      if c2.fl.dspflg && c2.run != TopOf(c2) then Dispatch(c2) else c2
  }
}
