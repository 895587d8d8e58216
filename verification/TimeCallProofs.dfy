/** Handlers and ticks keep the invariants; timeouts are neither early nor late, cyclic handlers do
    not drift, and the callbacks of one tick come to an end. */
module TimeCallProofs {
  import opened Types
  import opened TaskQueues
  import opened SystemClock
  import opened Core
  import opened CoreProofs
  import opened TaskCalls
  import opened TaskCallProofs
  import opened TimeCalls

  /** Changes of the block of one handler. */
  lemma HandlerGood(g: Config, c: Core, c': Core, x: Blk)
    requires Good(g, c) && !x.TaskBlk?
    requires c' == c.(tm := c'.tm, cyc := c'.cyc, alm := c'.alm) && SameBut(c.tm, c'.tm, x)
    requires CycTimers(g, c'.cyc, c'.tm) && AlmTimers(g, c'.alm, c'.tm) && CycRan(g, c'.clk, c'.cyc)
    requires x in c'.tm ==> EvOk(g, c.clk, x, c'.tm[x])
    requires x in c'.tm ==> forall i :: 0 <= i < |c.fired| && c.drain.Some? ==> c.fired[i].time <= c'.tm[x].time
    ensures Good(g, c')
  {
    forall t: Tid ensures TaskBlk(t) in c'.tm <==> TaskBlk(t) in c.tm {}
    assert TaskTimers(c'.ts.tcb, c'.tm);
    assert EvTimes(g, c'.clk, c'.tm);
    assert FiredInOrder(c'.fired, c'.clk.cur, c'.drain.Some?, c'.tm);
  }

  lemma HandlerOk(g: Config, c: Core, c': Core, x: Blk)
    requires Inv(g, c) && !x.TaskBlk?
    requires c' == c.(tm := c'.tm, cyc := c'.cyc, alm := c'.alm) && SameBut(c.tm, c'.tm, x)
    requires CycTimers(g, c'.cyc, c'.tm) && AlmTimers(g, c'.alm, c'.tm) && CycRan(g, c'.clk, c'.cyc)
    requires x in c'.tm ==> EvOk(g, c.clk, x, c'.tm[x]) && c'.tm[x].time > c.clk.cur
    ensures CallOk(g, c, c', {})
  {
    HandlerGood(g, c, c', x);
    DoneOk(g, c, c', false, {});
  }

  lemma StaCycOk(g: Config, c: Core, i: nat)
    requires Inv(g, c) && IsCyc(g, c, i)
    ensures CallOk(g, c, StaCyc(g, c, i).0, {})
  {
    if InTask(c) {
      ClockBounds(g, c.clk, c.drain.Some?);
      var c' := StaCyc(g, c, i).0;
      CycTimersSet(g, c.cyc, c.tm, i, c'.cyc[i], c'.tm);
      HandlerOk(g, c, c', CycBlk(i));
    }
  }

  lemma CycTimersSet(g: Config, cyc: seq<Cyc>, tm: map<Blk, Ev>, i: nat, y: Cyc, tm': map<Blk, Ev>)
    requires CycTimers(g, cyc, tm) && i < |cyc| && SameBut(tm, tm', CycBlk(i))
    requires CycBlk(i) in tm' <==> y.sta
    requires y.sta ==> tm'[CycBlk(i)].cb == CallCychdr(i)
    requires y.sta ==> tm'[CycBlk(i)].time == y.evttim == y.t0 + y.runs * g.cyc[i].cyctim
    ensures CycTimers(g, cyc[i := y], tm')
  {
    var cyc' := cyc[i := y];
    forall j: nat
      ensures CycBlk(j) in tm' <==> j < |cyc'| && cyc'[j].sta
      ensures CycBlk(j) in tm' ==> tm'[CycBlk(j)].cb == CallCychdr(j)
      ensures CycBlk(j) in tm' ==> tm'[CycBlk(j)].time == cyc'[j].evttim == cyc'[j].t0 + cyc'[j].runs * g.cyc[j].cyctim
    {
      if j != i { assert CycBlk(j) in tm' <==> CycBlk(j) in tm; }
    }
  }

  lemma StpCycOk(g: Config, c: Core, i: nat)
    requires Inv(g, c) && IsCyc(g, c, i)
    ensures CallOk(g, c, StpCyc(g, c, i).0, {})
  {
    if InTask(c) {
      var c' := StpCyc(g, c, i).0;
      CycTimersSet(g, c.cyc, c.tm, i, c'.cyc[i], c'.tm);
      HandlerOk(g, c, c', CycBlk(i));
    }
  }

  lemma AlmTimersSet(g: Config, alm: seq<bool>, tm: map<Blk, Ev>, i: nat, sta: bool, tm': map<Blk, Ev>)
    requires AlmTimers(g, alm, tm) && i < |alm| && SameBut(tm, tm', AlmBlk(i))
    requires AlmBlk(i) in tm' <==> sta
    requires sta ==> tm'[AlmBlk(i)].cb == CallAlmhdr(i)
    ensures AlmTimers(g, alm[i := sta], tm')
  {
    forall j: nat
      ensures AlmBlk(j) in tm' <==> j < |alm| && alm[i := sta][j]
      ensures AlmBlk(j) in tm' ==> tm'[AlmBlk(j)].cb == CallAlmhdr(j)
    {
      if j != i { assert AlmBlk(j) in tm' <==> AlmBlk(j) in tm; }
    }
  }

  lemma StaAlmOk(g: Config, c: Core, i: nat, almtim: nat)
    requires Inv(g, c) && i < |c.alm|
    ensures CallOk(g, c, StaAlm(c, i, almtim).0, {})
  {
    if almtim <= TMAX_RELTIM {
      RelEventOk(g, c, AlmBlk(i), CallAlmhdr(i), almtim);
      var tm := c.tm[AlmBlk(i) := RelEvent(c.clk, CallAlmhdr(i), almtim)];
      AlmTimersSet(g, c.alm, c.tm, i, true, tm);
      HandlerOk(g, c, c.(tm := tm, alm := c.alm[i := true]), AlmBlk(i));
    }
  }

  lemma StpAlmOk(g: Config, c: Core, i: nat)
    requires Inv(g, c) && i < |c.alm|
    ensures CallOk(g, c, StpAlm(c, i).0, {})
  {
    var tm := c.tm - {AlmBlk(i)};
    AlmTimersSet(g, c.alm, c.tm, i, false, tm);
    HandlerOk(g, c, c.(tm := tm, alm := c.alm[i := false]), AlmBlk(i));
  }

  // ----- the tick -----

  lemma TickBeginOk(g: Config, c: Core)
    requires Inv(g, c) && MayTick(c)
    ensures Inv(g, TickBegin(g, c))
  {
    AdvanceInv(g, c.clk);
    var c' := TickBegin(g, c);
    ClockBounds(g, c'.clk, true);
    ClockBounds(g, c.clk, false);
    assert EvTimes(g, c'.clk, c'.tm);
  }

  lemma TickEndOk(g: Config, c: Core)
    requires Inv(g, c) && MayEnd(c)
    ensures Inv(g, TickEnd(c))
  {
    ClockBounds(g, c.clk, c.drain.Some?);
    assert EvTimes(g, TickEnd(c).clk, c.tm);
  }

  lemma CallbackArg(g: Config, c: Core, b: Blk)
    requires Inv(g, c) && b in c.tm
    ensures CallbackArgOk(g, c, c.tm[b].cb)
    ensures match b
            case TaskBlk(t) =>
              IsTask(c, t) && TimedWait(c.ts.tcb, t) && c.tm[b].cb == CallbackOf(t, c.ts.tcb[t].tstat.why)
            case CycBlk(i) => c.tm[b].cb == CallCychdr(i)
            case AlmBlk(i) => c.tm[b].cb == CallAlmhdr(i)
  {
    match b
    case TaskBlk(t) => assert TimedWait(c.ts.tcb, t);
    case CycBlk(i) =>
    case AlmBlk(i) =>
  }

  /** The log of the tick grows by the earliest event. */
  lemma LogGood(g: Config, c: Core, b: Blk)
    requires Inv(g, c) && MayFire(c, b)
    ensures Inv(g, c.(fired := c.fired + [Fired(b, c.tm[b].time)]))
  {
    var f := c.fired + [Fired(b, c.tm[b].time)];
    assert FiredInOrder(f, c.clk.cur, c.drain.Some?, c.tm);
  }

  lemma NextRun(t0: int, runs: nat, p: nat)
    ensures t0 + runs * p + p == t0 + (runs + 1) * p
  {
  }

  lemma FireCycGood(g: Config, c: Core, i: nat)
    requires Inv(g, c) && MayFire(c, CycBlk(i))
    ensures i < |c.cyc| && i < |g.cyc| && Good(g, Call(g, c.(tm := c.tm - {CycBlk(i)}), CallCychdr(i)))
    ensures Quiet(c, Call(g, c.(tm := c.tm - {CycBlk(i)}), CallCychdr(i)))
  {
    assert CycBlk(i) in c.tm;
    ClockBounds(g, c.clk, true);
    var c' := Call(g, c.(tm := c.tm - {CycBlk(i)}), CallCychdr(i));
    NextRun(c.cyc[i].t0, c.cyc[i].runs, g.cyc[i].cyctim);
    CycTimersSet(g, c.cyc, c.tm, i, c'.cyc[i], c'.tm);
    assert CycRan(g, c'.clk, c'.cyc);
    forall j | 0 <= j < |c.fired| && c.drain.Some? ensures c.fired[j].time <= c'.tm[CycBlk(i)].time {
      assert c.fired[j].time <= c.tm[CycBlk(i)].time;
    }
    HandlerGood(g, c, c', CycBlk(i));
  }

  lemma FireOk(g: Config, c: Core, b: Blk)
    requires Inv(g, c) && MayFire(c, b)
    ensures CallbackArgOk(g, c, c.tm[b].cb) && Inv(g, Fire(g, c, b))
    ensures Rely(c.ts.tcb, Fire(g, c, b).ts.tcb, {}) && Fire(g, c, b).drain == c.drain && Fire(g, c, b).nest == c.nest
    ensures Fire(g, c, b).clk == c.clk && Fire(g, c, b).fired == c.fired + [Fired(b, c.tm[b].time)]
  {
    CallbackArg(g, c, b);
    LogGood(g, c, b);
    var l := c.(fired := c.fired + [Fired(b, c.tm[b].time)]);
    match b
    case TaskBlk(t) =>
      var code := if c.ts.tcb[t].tstat.why.Dly? then E_OK else E_TMOUT;
      FiredWakeGood(g, l, t, code, c.ts.tcb[t].wdata);
      WakeOk(g, l, t, code, c.ts.tcb[t].wdata);
    case CycBlk(i) =>
      FireCycGood(g, l, i);
      FinishDispatches(g, l, Fire(g, c, b), false);
    case AlmBlk(i) =>
      StpAlmOk(g, l, i);
  }

  // ----- what the handlers and the callers observe -----

  /** Between ticks, from the first one on, a started cyclic handler has run exactly once for every period
      that has elapsed since its first time, however long or short its period is compared with a tick.
      Before the first tick only a handler whose first time is 0 may be behind. */
  lemma CyclicNoDrift(g: Config, c: Core, i: nat)
    requires Inv(g, c) && c.drain.None? && i < |c.cyc| && c.cyc[i].sta && (c.clk.ended > 0 || c.cyc[i].t0 > 0)
    ensures var y := c.cyc[i];
            y.runs == if c.clk.cur < y.t0 then 0 else (c.clk.cur - y.t0) / g.cyc[i].cyctim + 1
  {
    assert CycBlk(i) in c.tm;
    assert EvOk(g, c.clk, CycBlk(i), c.tm[CycBlk(i)]);
    LaterRun(c.cyc[i].t0, c.cyc[i].runs, g.cyc[i].cyctim);
    RunsCounted(c.clk.cur, c.cyc[i].t0, g.cyc[i].cyctim, c.cyc[i].runs);
  }

  lemma LaterRun(t0: int, runs: nat, p: nat)
    ensures t0 + runs * p >= t0
  {
  }

  lemma RunsCounted(cur: int, t0: int, p: nat, runs: nat)
    requires p > 0 && t0 + runs * p > cur
    requires runs > 0 ==> t0 + runs * p - p <= cur
    ensures runs == if cur < t0 then 0 else (cur - t0) / p + 1
  {
    if runs > 0 {
      assert (runs - 1) * p == runs * p - p;
      assert 0 <= (runs - 1) * p;
      Quotient(cur - t0, p, runs - 1);
    }
  }

  lemma Quotient(x: nat, p: nat, k: nat)
    requires p > 0 && k * p <= x < k * p + p
    ensures x / p == k
  {
    DivModSplit(x, p);
    assert p * (x / p) <= x < p * (x / p) + p;
    assert k * p == p * k;
    assert p * (k + 1) == p * k + p && p * (x / p + 1) == p * (x / p) + p;
    MulLess(p, k, x / p + 1);
    MulLess(p, x / p, k + 1);
  }

  /** A timed wait, delay or alarm of e.rel ms requested at true time x fires after more than e.rel
      and less than e.rel + 1 ms and two ticks.  Times in units of 1/TIC_DENO ms; a tick is supplied
      at its nominal time. */
  lemma NeverEarlyBoundedlyLate(g: Config, c: Core, b: Blk, x: real)
    requires Inv(g, c) && MayFire(c, b) && !b.CycBlk?
    requires (c.tm[b].tick * g.ticNume) as real <= x < ((c.tm[b].tick + 1) * g.ticNume) as real
    ensures var now := (c.clk.ticks * g.ticNume) as real;
            (c.tm[b].rel * g.ticDeno) as real < now - x < (c.tm[b].rel * g.ticDeno + 2 * g.ticNume + g.ticDeno) as real
  {
    var e := c.tm[b];
    assert EvOk(g, c.clk, b, e);
    TimeoutBounds(g, e.tick, e.rel, e.time, c.clk.ticks, c.clk.cur, c.clk.min, x);
  }

  /** And such an event that is still queued between ticks is not late yet: it lies ahead of the system
      time, and less than rel + 1 ms and one tick have passed. */
  lemma NotLateYet(g: Config, c: Core, b: Blk, x: real)
    requires Inv(g, c) && c.drain.None? && b in c.tm && !b.CycBlk?
    requires (c.tm[b].tick * g.ticNume) as real <= x < ((c.tm[b].tick + 1) * g.ticNume) as real
    ensures c.tm[b].time > c.clk.cur
    ensures (c.clk.ticks * g.ticNume) as real - x < (c.tm[b].rel * g.ticDeno + g.ticNume + g.ticDeno) as real
  {
    assert EvOk(g, c.clk, b, c.tm[b]);
    NotLateBound(g, c.tm[b].tick, c.tm[b].rel, c.tm[b].time, c.clk.ticks, c.clk.cur, x);
  }

  /** The remaining time reported is counted from the end of the current tick interval, and never
      negative; it fits RELTIM. */
  lemma LeftTimExact(g: Config, c: Core, b: Blk)
    requires Inv(g, c) && b in c.tm
    ensures LeftTim(c, b) == if c.tm[b].time > Base(c.clk) then c.tm[b].time - Base(c.clk) else 0
    ensures LeftTim(c, b) <= TMAX_RELTIM + 1
  {
    assert EvOk(g, c.clk, b, c.tm[b]);
  }

  /** 0 is reported for every event that the next tick processes; and for one that it does not process only
      if it lies at base_time itself, which has been rounded up. */
  lemma LeftTimZeroExact(g: Config, c: Core, b: Blk)
    requires Inv(g, c) && b in c.tm
    ensures c.tm[b].time <= Advance(g, c.clk).cur ==> LeftTim(c, b) == 0
    ensures (LeftTim(c, b) == 0 <==> c.tm[b].time <= Advance(g, c.clk).cur)
            <==> !(c.clk.sub > 0 && c.tm[b].time == Base(c.clk))
  {
    LeftTimExact(g, c, b);
  }
}
