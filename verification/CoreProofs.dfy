/** The elementary transitions keep the invariants of the kernel. */
module CoreProofs {
  import opened Types
  import opened Seqs
  import opened TaskQueues
  import opened SystemClock
  import opened Core

  /** c' follows from c by transitions inside a service call that leave the dispatcher alone and do
      not take the processor from the running task. */
  ghost predicate Quiet(c: Core, c': Core) {
    && c'.run == c.run && c'.fl == c.fl && c'.nest == c.nest && c'.drain == c.drain && c'.fired == c.fired
    && c'.clk == c.clk
    && (c.run.Some? && IsRunnable(c, c.run.value) ==> IsRunnable(c', c.run.value))
  }

  /** No task starts to wait on a queue outside own, and those that go on waiting there keep their
      place and their data: what the objects of the other queues may rely on. */
  ghost predicate Rely(tcb: seq<TCB>, tcb': seq<TCB>, own: set<WQ>) {
    && |tcb'| == |tcb|
    && forall t :: 0 <= t < |tcb| && Home(tcb'[t]).Some? && Home(tcb'[t]).value.Wait? && Home(tcb'[t]).value.wq !in own
         ==> Home(tcb[t]) == Home(tcb'[t]) && tcb[t].wdata == tcb'[t].wdata
  }

  /** Events registered meanwhile lie in the future. */
  ghost predicate Late(c: Core, c': Core) {
    forall b :: b in c'.tm ==> c'.tm[b].time > c.clk.cur || (b in c.tm && c.tm[b].time == c'.tm[b].time)
  }

  /** What every transition other than a tick and its callbacks keeps. */
  ghost predicate Follows(c: Core, c': Core, own: set<WQ>) {
    && Rely(c.ts.tcb, c'.ts.tcb, own) && Late(c, c')
    && c'.nest == c.nest && c'.clk == c.clk && c'.drain == c.drain && c'.fired == c.fired
  }

  lemma FollowsTrans(c0: Core, c1: Core, c2: Core, own: set<WQ>)
    requires Follows(c0, c1, own) && Follows(c1, c2, own)
    ensures Follows(c0, c2, own)
  {
    var a, m, z := c0.ts.tcb, c1.ts.tcb, c2.ts.tcb;
    forall t | 0 <= t < |a| && Home(z[t]).Some? && Home(z[t]).value.Wait? && Home(z[t]).value.wq !in own
      ensures Home(a[t]) == Home(z[t]) && a[t].wdata == z[t].wdata
    {
      assert Home(m[t]) == Home(z[t]);
    }
  }

  /** Good says nothing of the dispatcher. */
  lemma GoodFrame(g: Config, c: Core, c': Core)
    requires Good(g, c)
    requires c' == c.(run := c'.run, fl := c'.fl, nest := c'.nest)
    requires c.drain.Some? ==> c.drain.value <= c'.nest
    ensures Good(g, c')
  {
  }

  /** Whatever a service call did quietly, acting on an exact dispatch request misses nothing. */
  lemma FinishDispatches(g: Config, c: Core, c': Core, req: bool)
    requires DispInv(c) && Quiet(c, c') && Linked(c'.ts)
    requires Req(c, c') ==> req
    requires req ==> c.fl.dspflg
    ensures DispInv(Finish(c', req))
    ensures forall own :: Follows(c, c', own) ==> Follows(c, Finish(c', req), own)
  {
    TopRunnable(c'.ts);
  }

  lemma TaskTimersSet(c: Core, t: Tid, b: TCB, tm: map<Blk, Ev>)
    requires TaskTimers(c.ts.tcb, c.tm) && t < |c.ts.tcb| && WaitInfoOk(b)
    requires tm - {TaskBlk(t)} == c.tm - {TaskBlk(t)}
    requires TaskBlk(t) in tm <==> b.tstat.Waiting? && b.winfo == Timer(true)
    requires TaskBlk(t) in tm ==> tm[TaskBlk(t)].cb == CallbackOf(t, b.tstat.why)
    ensures TaskTimers(c.ts.tcb[t := b], tm)
  {
    var tcb := c.ts.tcb[t := b];
    forall u: Tid
      ensures TaskBlk(u) in tm <==> TimedWait(tcb, u)
      ensures TaskBlk(u) in tm ==> tm[TaskBlk(u)].cb == CallbackOf(u, tcb[u].tstat.why)
    {
      if u != t {
        assert TaskBlk(u) in tm - {TaskBlk(t)} <==> TaskBlk(u) in c.tm - {TaskBlk(t)};
        assert TaskBlk(u) in tm <==> TaskBlk(u) in c.tm;
        if TaskBlk(u) in tm { assert tm[TaskBlk(u)] == (tm - {TaskBlk(t)})[TaskBlk(u)]; }
      }
    }
  }

  /** Only the time block of task t differs. */
  ghost predicate SameBut(tm: map<Blk, Ev>, tm': map<Blk, Ev>, x: Blk) {
    forall b :: b != x ==> (b in tm' <==> b in tm) && (b in tm ==> tm'[b] == tm[b])
  }

  lemma TimersSet(g: Config, c: Core, t: Tid, b: TCB, tm: map<Blk, Ev>)
    requires TimersInv(g, c) && t < |c.ts.tcb| && WaitInfoOk(b)
    requires SameBut(c.tm, tm, TaskBlk(t))
    requires TaskBlk(t) in tm <==> b.tstat.Waiting? && b.winfo == Timer(true)
    requires TaskBlk(t) in tm ==> tm[TaskBlk(t)].cb == CallbackOf(t, b.tstat.why)
    ensures TaskTimers(c.ts.tcb[t := b], tm) && CycTimers(g, c.cyc, tm) && AlmTimers(g, c.alm, tm)
  {
    assert tm - {TaskBlk(t)} == c.tm - {TaskBlk(t)};
    TaskTimersSet(c, t, b, tm);
    assert forall i: nat :: CycBlk(i) in tm <==> CycBlk(i) in c.tm;
    assert forall i: nat :: AlmBlk(i) in tm <==> AlmBlk(i) in c.tm;
  }

  predicate StaysOrOwn(b: TCB, b': TCB, own: set<WQ>) {
    Home(b').Some? && Home(b').value.Wait? && Home(b').value.wq !in own ==> Home(b) == Home(b') && b.wdata == b'.wdata
  }

  lemma SetTaskGood(g: Config, c: Core, t: Tid, b: TCB, tm: map<Blk, Ev>)
    requires Good(g, c) && t < |c.ts.tcb| && b.priority < TNUM_TPRI && WaitInfoOk(b)
    requires SameBut(c.tm, tm, TaskBlk(t))
    requires TaskBlk(t) in tm <==> b.tstat.Waiting? && b.winfo == Timer(true)
    requires TaskBlk(t) in tm ==>
               tm[TaskBlk(t)].cb == CallbackOf(t, b.tstat.why) && EvOk(g, c.clk, TaskBlk(t), tm[TaskBlk(t)])
    requires TaskBlk(t) in tm ==>
               (TaskBlk(t) in c.tm && tm[TaskBlk(t)] == c.tm[TaskBlk(t)]) || tm[TaskBlk(t)].time > c.clk.cur
    ensures Good(g, SetTask(g, c, t, b).(tm := tm))
    ensures forall own :: StaysOrOwn(c.ts.tcb[t], b, own) ==> Follows(c, SetTask(g, c, t, b).(tm := tm), own)
  {
    RehomeLinked(g, c.ts, t, b);
    RehomeSorted(g, c.ts, t, b);
    TimersSet(g, c, t, b, tm);
    assert EvTimes(g, c.clk, tm);
    assert FiredInOrder(c.fired, c.clk.cur, c.drain.Some?, tm);
  }

  lemma NotTimed(g: Config, c: Core, t: Tid)
    requires Good(g, c) && t < |c.ts.tcb| && !TimedWait(c.ts.tcb, t)
    ensures TaskBlk(t) !in c.tm && c.tm - {TaskBlk(t)} == c.tm
  {
  }

  lemma WakeGood(g: Config, c: Core, t: Tid, code: ER, d: WData)
    requires Good(g, c) && t < |c.ts.tcb| && c.ts.tcb[t].tstat.Waiting?
    ensures Good(g, Wake(g, c, t, code, d)) && Quiet(c, Wake(g, c, t, code, d))
    ensures Follows(c, Wake(g, c, t, code, d), {})
  {
    SetTaskGood(g, c, t, Woken(c.ts.tcb[t], code, d), c.tm - {TaskBlk(t)});
  }

  /** wait_tmout: the block has left the heap before the callback runs. */
  lemma FiredWakeGood(g: Config, c: Core, t: Tid, code: ER, d: WData)
    requires Good(g, c) && TaskBlk(t) in c.tm
    ensures t < |c.ts.tcb|
    ensures var c1 := c.(tm := c.tm - {TaskBlk(t)});
            && Wake(g, c1, t, code, d) == Wake(g, c, t, code, d)
            && Good(g, Wake(g, c, t, code, d)) && Quiet(c, Wake(g, c, t, code, d))
  {
    assert TimedWait(c.ts.tcb, t);
    assert c.tm - {TaskBlk(t)} - {TaskBlk(t)} == c.tm - {TaskBlk(t)};
    WakeGood(g, c, t, code, d);
  }

  lemma RelEventOk(g: Config, c: Core, b: Blk, cb: Callback, rel: nat)
    requires ValidConfig(g) && TimeInv(g, c) && rel <= TMAX_RELTIM
    ensures EvOk(g, c.clk, b, RelEvent(c.clk, cb, rel))
    ensures RelEvent(c.clk, cb, rel).time > c.clk.cur
  {
    ClockBounds(g, c.clk, c.drain.Some?);
    BaseRoundsUp(g, c.clk, c.drain.Some?);
  }

  predicate BlockArgs(why: Why, timer: Option<nat>) {
    (why.Dly? ==> timer.Some?) && (timer.Some? ==> timer.value <= TMAX_RELTIM)
  }

  lemma BlockInv(g: Config, c: Core, why: Why, d: WData, timer: Option<nat>)
    requires Inv(g, c) && c.nest == 0 && c.fl.dspflg && c.run.Some? && BlockArgs(why, timer)
    ensures c.run.value < |c.ts.tcb| && Inv(g, Block(g, c, why, d, timer))
    ensures Follows(c, Block(g, c, why, d, timer), if why.Obj? then {why.wq} else {})
  {
    var t := c.run.value;
    var b := c.ts.tcb[t].(tstat := Waiting(why, false), winfo := Timer(timer.Some?), wdata := d);
    NotTimed(g, c, t);
    if timer.Some? { RelEventOk(g, c, TaskBlk(t), CallbackOf(t, why), timer.value); }
    var tm := if timer.Some? then c.tm[TaskBlk(t) := RelEvent(c.clk, CallbackOf(t, why), timer.value)] else c.tm;
    SetTaskGood(g, c, t, b, tm);
    var c1 := SetTask(g, c, t, b).(tm := tm);
    assert Follows(c, c1, if why.Obj? then {why.wq} else {});
    DispatchOk(g, c, c1);
  }

  /** After dispatch() in task context with dispatching allowed, everything is in order. */
  lemma DispatchOk(g: Config, c: Core, c': Core)
    requires ValidConfig(g) && Good(g, c') && c'.nest == 0 && c'.fl.dspflg && !c'.fl.reqflg
    requires c'.fl.dspflg == (c'.fl.ipmflg && !c'.fl.disdsp)
    ensures Inv(g, Dispatch(c'))
    ensures forall own :: Follows(c, c', own) ==> Follows(c, Dispatch(c'), own)
  {
    TopRunnable(c'.ts);
    GoodFrame(g, c', Dispatch(c'));
  }

  lemma ActivateGood(g: Config, c: Core, t: Tid)
    requires Good(g, c) && t < |c.ts.tcb| && c.ts.tcb[t].tstat in {Dormant, Suspended}
    ensures Good(g, Activate(g, c, t)) && Quiet(c, Activate(g, c, t))
    ensures Follows(c, Activate(g, c, t), {})
  {
    NotTimed(g, c, t);
    SetTaskGood(g, c, t, c.ts.tcb[t].(tstat := Runnable), c.tm);
  }

  lemma TerminateGood(g: Config, c: Core, t: Tid)
    requires ValidConfig(g) && Good(g, c) && t < |c.ts.tcb|
    ensures Good(g, Terminate(g, c, t))
    ensures c.run != Some(t) ==> Quiet(c, Terminate(g, c, t))
    ensures Follows(c, Terminate(g, c, t), {})
  {
    SetTaskGood(g, c, t, Initial(g, c.ts.tcb[t], t), c.tm - {TaskBlk(t)});
  }

  /** A change of the control block that concerns neither the queue of the task nor its timer. */
  ghost predicate SamePlace(g: Config, b: TCB, b': TCB) {
    && b'.priority < TNUM_TPRI
    && Home(b') == Home(b)
    && (b'.priority == b.priority || Home(b).None? || !ByPriority(g, Home(b).value))
    && (b'.tstat.Waiting? <==> b.tstat.Waiting?)
    && (b.tstat.Waiting? ==> b'.winfo == b.winfo && b'.tstat.why == b.tstat.why)
    && (b'.tstat.Runnable? <==> b.tstat.Runnable?)
  }

  lemma MarkLinked(g: Config, ts: Tasks, t: Tid, b: TCB)
    requires Linked(ts) && Sorted(g, ts) && t < |ts.tcb| && SamePlace(g, ts.tcb[t], b)
    ensures Linked(ts.(tcb := ts.tcb[t := b])) && Sorted(g, ts.(tcb := ts.tcb[t := b]))
  {
    var tcb := ts.tcb[t := b];
    forall h, u ensures On(ts.q, h, u) <==> Belongs(tcb, h, u) {
      assert On(ts.q, h, u) <==> Belongs(ts.tcb, h, u);
    }
    forall h | ByPriority(g, h) ensures SortedBy(tcb, At(ts.q, h)) {
      forall i | 0 <= i < |At(ts.q, h)| ensures Prio(ts.tcb, At(ts.q, h)[i]) == Prio(tcb, At(ts.q, h)[i]) {
        assert On(ts.q, h, At(ts.q, h)[i]);
      }
      SortedFrame(ts.tcb, tcb, At(ts.q, h));
    }
  }

  lemma MarkGood(g: Config, c: Core, t: Tid, b: TCB)
    requires Good(g, c) && t < |c.ts.tcb| && SamePlace(g, c.ts.tcb[t], b)
    ensures Good(g, Mark(c, t, b)) && Quiet(c, Mark(c, t, b))
    ensures b.wdata == c.ts.tcb[t].wdata ==> Follows(c, Mark(c, t, b), {})
  {
    MarkLinked(g, c.ts, t, b);
    TimersSet(g, c, t, b, c.tm);
  }

  lemma ChangePriorityGood(g: Config, c: Core, t: Tid, pri: nat)
    requires Good(g, c) && t < |c.ts.tcb| && pri < TNUM_TPRI
    ensures Good(g, ChangePriority(g, c, t, pri)) && Quiet(c, ChangePriority(g, c, t, pri))
    ensures Follows(c, ChangePriority(g, c, t, pri), {})
  {
    var b := c.ts.tcb[t].(priority := pri);
    match Home(b)
    case Some(Wait(wq)) =>
      if Tpri(g, wq) { SetTaskGood(g, c, t, b, c.tm); } else { MarkGood(g, c, t, b); }
    case _ =>
      SetTaskGood(g, c, t, b, c.tm);
  }

  lemma RotateGood(g: Config, c: Core, pri: nat)
    requires Good(g, c)
    ensures Good(g, c.(ts := Rotate(c.ts, pri))) && Quiet(c, c.(ts := Rotate(c.ts, pri)))
    ensures Follows(c, c.(ts := Rotate(c.ts, pri)), {})
  {
    RotateLinked(g, c.ts, pri);
  }
}
