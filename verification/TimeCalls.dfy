/**
  Cyclic and alarm handlers, and the tick: signal_time as three kinds of steps -- its beginning,
  one callback, its end -- between which interrupt handlers may run.
 */
module TimeCalls {
  import opened Types
  import opened TaskQueues
  import opened SystemClock
  import opened Core
  import opened TaskCalls

  predicate IsCyc(g: Config, c: Core, i: nat) { i < |c.cyc| && i < |g.cyc| }

  /** tmevtb_enqueue_cyc. */
  function EnqueueCyc(c: Core, i: nat, time: int, t0: int, runs: nat): Core
    requires i < |c.cyc|
  {
    c.(tm := c.tm[CycBlk(i) := Ev(time, CallCychdr(i), c.clk.ticks, 0)],
       cyc := c.cyc[i := Cyc(true, time, t0, runs)])
  }

  function StaCyc(g: Config, c: Core, i: nat): Result
    requires IsCyc(g, c, i)
  {
    if !InTask(c) then (c, E_CTX)
    else
      var t0 := Base(c.clk) + g.cyc[i].cycphs;
      (EnqueueCyc(c.(tm := c.tm - {CycBlk(i)}), i, t0, t0, 0), E_OK)
  }

  function StpCyc(g: Config, c: Core, i: nat): Result
    requires IsCyc(g, c, i)
  {
    if !InTask(c) then (c, E_CTX)
    else (c.(tm := c.tm - {CycBlk(i)}, cyc := c.cyc[i := c.cyc[i].(sta := false)]), E_OK)
  }

  /** sta_alm and ista_alm. */
  function StaAlm(c: Core, i: nat, almtim: nat): Result
    requires i < |c.alm|
  {
    if !Live(c) then (c, E_CTX)
    else if almtim > TMAX_RELTIM then (c, E_PAR)
    else
      (c.(tm := c.tm[AlmBlk(i) := RelEvent(c.clk, CallAlmhdr(i), almtim)], alm := c.alm[i := true]), E_OK)
  }

  /** stp_alm and istp_alm. */
  function StpAlm(c: Core, i: nat): Result
    requires i < |c.alm|
  {
    if !Live(c) then (c, E_CTX)
    else (c.(tm := c.tm - {AlmBlk(i)}, alm := c.alm[i := false]), E_OK)
  }

  // ----- signal_time -----

  predicate MayTick(c: Core) { c.nest > 0 && c.drain.None? }

  function TickBegin(g: Config, c: Core): Core
    requires ValidConfig(g) && MayTick(c)
  {
    c.(clk := Advance(g, c.clk), drain := Some(c.nest), fired := [])
  }

  predicate IsDue(c: Core, b: Blk) { b in c.tm && c.tm[b].time <= c.clk.cur }

  /** b is at the root of the event heap, and due. */
  ghost predicate MayFire(c: Core, b: Blk) {
    && c.drain == Some(c.nest) && c.nest > 0
    && IsDue(c, b)
    && forall b' :: b' in c.tm ==> c.tm[b].time <= c.tm[b'].time
  }

  /** The argument of a callback is a control block of the kernel. */
  predicate CallbackArgOk(g: Config, c: Core, cb: Callback) {
    match cb
    case WaitTmout(t) => IsTask(c, t)
    case WaitTmoutOk(t) => IsTask(c, t)
    case CallCychdr(i) => IsCyc(g, c, i)
    case CallAlmhdr(i) => i < |c.alm|
  }

  /** A callback up to the point where it unlocks the CPU. */
  function Call(g: Config, c: Core, cb: Callback): Core
    requires CallbackArgOk(g, c, cb)
  {
    match cb
    case WaitTmout(t) =>
      var c1 := Wake(g, c, t, E_TMOUT, c.ts.tcb[t].wdata); Finish(c1, Req(c, c1))
    case WaitTmoutOk(t) =>
      var c1 := Wake(g, c, t, E_OK, c.ts.tcb[t].wdata); Finish(c1, Req(c, c1))
    case CallCychdr(i) =>
      var y := c.cyc[i]; EnqueueCyc(c, i, y.evttim + g.cyc[i].cyctim, y.t0, y.runs + 1)
    case CallAlmhdr(i) => c.(alm := c.alm[i := false])
  }

  /** tmevtb_delete_top and the callback of the block that was there. */
  function Fire(g: Config, c: Core, b: Blk): Core
    requires b in c.tm && CallbackArgOk(g, c, c.tm[b].cb)
  {
    var e := c.tm[b];
    Call(g, c.(tm := c.tm - {b}, fired := c.fired + [Fired(b, e.time)]), e.cb)
  }

  ghost predicate MayEnd(c: Core) {
    c.drain == Some(c.nest) && forall b :: b in c.tm ==> c.tm[b].time > c.clk.cur
  }

  function TickEnd(c: Core): Core { c.(clk := c.clk.(min := c.clk.cur, ended := c.clk.ticks), drain := None) }

  /** tmevt_lefttim. */
  function LeftTim(c: Core, b: Blk): int
    requires b in c.tm
  {
    if c.tm[b].time <= c.clk.nxt then 0 else c.tm[b].time - Base(c.clk)
  }
}
