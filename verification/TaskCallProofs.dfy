/** Every task service call keeps the invariants of the kernel. */
module TaskCallProofs {
  import opened Types
  import opened Seqs
  import opened TaskQueues
  import opened SystemClock
  import opened Core
  import opened CoreProofs
  import opened TaskCalls

  /** The contract shared by all service calls: the invariants hold again, and the wait queues
      outside own have only lost tasks. */
  ghost predicate CallOk(g: Config, c: Core, c': Core, own: set<WQ>) {
    Inv(g, c') && Follows(c, c', own)
  }

  lemma Unchanged(g: Config, c: Core)
    requires Inv(g, c)
    ensures forall own :: CallOk(g, c, c, own)
  {
  }

  /** The promise for fewer queues is the stronger one. */
  lemma Widen(g: Config, c: Core, c': Core, own: set<WQ>)
    requires CallOk(g, c, c', {})
    ensures CallOk(g, c, c', own)
  {
  }

  lemma DoneOk(g: Config, c: Core, c': Core, req: bool, own: set<WQ>)
    requires Inv(g, c) && Good(g, c') && Quiet(c, c') && Follows(c, c', own)
    requires Req(c, c') ==> req
    requires req ==> c.fl.dspflg
    ensures CallOk(g, c, Finish(c', req), own)
  {
    FinishDispatches(g, c, c', req);
    GoodFrame(g, c', Finish(c', req));
  }

  lemma MarkOk(g: Config, c: Core, t: Tid, b: TCB)
    requires Inv(g, c) && IsTask(c, t) && SamePlace(g, c.ts.tcb[t], b) && b.wdata == c.ts.tcb[t].wdata
    ensures CallOk(g, c, Mark(c, t, b), {})
  {
    MarkGood(g, c, t, b);
    DoneOk(g, c, Mark(c, t, b), false, {});
  }

  lemma WakeOk(g: Config, c: Core, t: Tid, code: ER, d: WData)
    requires Inv(g, c) && IsTask(c, t) && c.ts.tcb[t].tstat.Waiting?
    ensures var c1 := Wake(g, c, t, code, d); CallOk(g, c, Finish(c1, Req(c, c1)), {})
  {
    WakeGood(g, c, t, code, d);
    DoneOk(g, c, Wake(g, c, t, code, d), Req(c, Wake(g, c, t, code, d)), {});
  }

  lemma ActivateOk(g: Config, c: Core, t: Tid)
    requires Inv(g, c) && IsTask(c, t) && c.ts.tcb[t].tstat in {Dormant, Suspended}
    ensures var c1 := Activate(g, c, t); CallOk(g, c, Finish(c1, Req(c, c1)), {})
  {
    ActivateGood(g, c, t);
    DoneOk(g, c, Activate(g, c, t), Req(c, Activate(g, c, t)), {});
  }

  lemma ActTskOk(g: Config, c: Core, t: Tid)
    requires Inv(g, c) && IsTask(c, t)
    ensures CallOk(g, c, ActTsk(g, c, t).0, {})
  {
    hide Sorted, TimersInv, TimeInv, CallOk;
    Unchanged(g, c);
    var b := c.ts.tcb[t];
    if Live(c) {
      if b.tstat.Dormant? { ActivateOk(g, c, t); } else { MarkOk(g, c, t, b.(actque := true)); }
    }
  }

  lemma CanActOk(g: Config, c: Core, t: Tid)
    requires Inv(g, c) && IsTask(c, t)
    ensures CallOk(g, c, CanAct(g, c, t).0, {})
  {
    hide Sorted, TimersInv, TimeInv, CallOk;
    Unchanged(g, c);
    MarkOk(g, c, t, c.ts.tcb[t].(actque := false));
  }

  lemma ReactivateGood(g: Config, c: Core, t: Tid)
    requires Good(g, c) && IsTask(c, t) && c.ts.tcb[t].tstat.Dormant?
    ensures Good(g, Reactivate(g, c, t)) && Quiet(c, Reactivate(g, c, t))
    ensures Follows(c, Reactivate(g, c, t), {})
  {
    if c.ts.tcb[t].actque {
      var c1 := Mark(c, t, c.ts.tcb[t].(actque := false));
      MarkGood(g, c, t, c.ts.tcb[t].(actque := false));
      ActivateGood(g, c1, t);
      FollowsTrans(c, c1, Activate(g, c1, t), {});
    }
  }

  lemma ExtTskOk(g: Config, c: Core)
    requires Inv(g, c)
    ensures CallOk(g, c, ExtTsk(g, c).0, {})
  {
    if InTask(c) {
      var c0 := c.(fl := Flags(c.fl.reqflg, true, false, true));
      GoodFrame(g, c, c0);
      ExitOk(g, c0, c.run.value);
    }
  }

  lemma ExitOk(g: Config, c: Core, t: Tid)
    requires ValidConfig(g) && Good(g, c) && IsTask(c, t) && c.nest == 0 && c.fl == Flags(false, true, false, true)
    ensures CallOk(g, c, Dispatch(Reactivate(g, Terminate(g, c, t), t)), {})
  {
    TerminateGood(g, c, t);
    var c1 := Terminate(g, c, t);
    ReactivateGood(g, c1, t);
    var c2 := Reactivate(g, c1, t);
    FollowsTrans(c, c1, c2, {});
    DispatchOk(g, c, c2);
  }

  /** Taking a task other than the scheduled one from the ready queue does not change the scheduled
      task: the dispatch request that ter_tsk discards is always false. */
  lemma UnlinkKeepsTop(ts: Tasks, t: Tid)
    requires Linked(ts) && t < |ts.tcb| && Top(ts.q) != Some(t)
    ensures Top(Unlink(ts, t)) == Top(ts.q)
  {
    var q := Unlink(ts, t);
    if Top(ts.q).Some? {
      var p :| 0 <= p < TNUM_TPRI && FirstReady(ts.q, 0, p) && At(ts.q, Ready(p))[0] == Top(ts.q).value;
      RemoveKeepsHead(At(ts.q, Ready(p)), t);
      forall p' | 0 <= p' < p ensures At(q, Ready(p')) == [] { assert At(ts.q, Ready(p')) == []; }
      TopIs(q, p);
    } else {
      forall p | 0 <= p < TNUM_TPRI ensures At(q, Ready(p)) == [] { assert At(ts.q, Ready(p)) == []; }
    }
  }

  /** ter_tsk may ignore what make_non_runnable tells it. */
  lemma TerTskDiscardsFalse(g: Config, c: Core, t: Tid)
    requires Inv(g, c) && InTask(c) && IsTask(c, t) && c.run != Some(t)
    ensures !Req(c, Terminate(g, c, t))
  {
    if c.fl.dspflg { UnlinkKeepsTop(c.ts, t); }
  }

  lemma TerTskOk(g: Config, c: Core, t: Tid)
    requires Inv(g, c) && IsTask(c, t)
    ensures CallOk(g, c, TerTsk(g, c, t).0, {})
  {
    if InTask(c) && c.run != Some(t) && !c.ts.tcb[t].tstat.Dormant? {
      var c1 := Terminate(g, c, t);
      TerminateGood(g, c, t);
      TerTskDiscardsFalse(g, c, t);
      ReactivateGood(g, c1, t);
      var c2 := Reactivate(g, c1, t);
      FollowsTrans(c, c1, c2, {});
      DoneOk(g, c, c2, Req(c1, c2), {});
    }
  }

  lemma ChgPriOk(g: Config, c: Core, t: Tid, tskpri: int)
    requires Inv(g, c) && IsTask(c, t)
    ensures CallOk(g, c, ChgPri(g, c, t, tskpri).0, {})
  {
    hide Sorted, TimersInv, TimeInv, CallOk;
    Unchanged(g, c);
    if 0 <= tskpri <= TNUM_TPRI {
      var pri := if tskpri == 0 then g.ipri[t] else tskpri - 1;
      ChangePriorityGood(g, c, t, pri);
      var c1 := ChangePriority(g, c, t, pri);
      DoneOk(g, c, c1, Req(c, c1), {});
    }
  }

  lemma SleepOk(g: Config, c: Core, why: Why, timer: Option<nat>)
    requires Inv(g, c) && MayBlock(c) && BlockArgs(why, timer) && !why.Obj?
    ensures RunsTask(c) && CallOk(g, c, Block(g, c, why, NoData, timer), {})
  {
    BlockInv(g, c, why, NoData, timer);
  }

  lemma SlpTskOk(g: Config, c: Core, p: Patience)
    requires Inv(g, c) && p.Tmo? && TmoType(p)
    ensures CallOk(g, c, SlpTsk(g, c, p).0, {})
  {
    hide Sorted, TimersInv, TimeInv, CallOk;
    Unchanged(g, c);
    if MayBlock(c) && TmoOk(p) {
      var b := c.ts.tcb[c.run.value];
      MarkOk(g, c, c.run.value, b.(wupque := false));
      SleepOk(g, c, Slp, TimerOf(p));
    }
  }

  lemma WupTskOk(g: Config, c: Core, t: Tid)
    requires Inv(g, c) && IsTask(c, t)
    ensures CallOk(g, c, WupTsk(g, c, t).0, {})
  {
    hide Sorted, TimersInv, TimeInv, CallOk;
    Unchanged(g, c);
    var b := c.ts.tcb[t];
    if b.tstat.Waiting? && b.tstat.why.Slp? {
      WakeOk(g, c, t, E_OK, b.wdata);
    } else {
      MarkOk(g, c, t, b.(wupque := true));
    }
  }

  lemma CanWupOk(g: Config, c: Core, t: Tid)
    requires Inv(g, c) && IsTask(c, t)
    ensures CallOk(g, c, CanWup(g, c, t).0, {})
  {
    hide Sorted, TimersInv, TimeInv, CallOk;
    Unchanged(g, c);
    MarkOk(g, c, t, c.ts.tcb[t].(wupque := false));
  }

  lemma RelWaiOk(g: Config, c: Core, t: Tid)
    requires Inv(g, c) && IsTask(c, t)
    ensures CallOk(g, c, RelWai(g, c, t).0, {})
  {
    hide Sorted, TimersInv, TimeInv, CallOk;
    Unchanged(g, c);
    if c.ts.tcb[t].tstat.Waiting? { WakeOk(g, c, t, E_RLWAI, c.ts.tcb[t].wdata); }
  }

  /** A runnable task leaves the ready queue; if it is the running one, dispatching is allowed. */
  lemma SuspendOk(g: Config, c: Core, t: Tid)
    requires Inv(g, c) && InTask(c) && IsTask(c, t) && c.ts.tcb[t].tstat.Runnable?
    requires c.run == Some(t) ==> c.fl.dspflg
    ensures var c1 := SetTask(g, c, t, c.ts.tcb[t].(tstat := Suspended)); CallOk(g, c, Finish(c1, Req(c, c1)), {})
  {
    var b := c.ts.tcb[t].(tstat := Suspended);
    NotTimed(g, c, t);
    SetTaskGood(g, c, t, b, c.tm);
    var c1 := SetTask(g, c, t, b);
    if c.run != Some(t) {
      DoneOk(g, c, c1, Req(c, c1), {});
    } else {
      TopRunnable(c1.ts);
      assert TopOf(c1) != Some(t);
      DispatchOk(g, c, c1);
    }
  }

  lemma SusTskOk(g: Config, c: Core, t: Tid)
    requires Inv(g, c) && IsTask(c, t)
    ensures CallOk(g, c, SusTsk(g, c, t).0, {})
  {
    hide Sorted, TimersInv, TimeInv, CallOk;
    Unchanged(g, c);
    var b := c.ts.tcb[t];
    if InTask(c) && !(c.run == Some(t) && !c.fl.dspflg) {
      match b.tstat
      case Runnable => SuspendOk(g, c, t);
      case Waiting(why, susp) => MarkOk(g, c, t, b.(tstat := Waiting(why, true)));
      case _ =>
    }
  }

  lemma RsmTskOk(g: Config, c: Core, t: Tid)
    requires Inv(g, c) && IsTask(c, t)
    ensures CallOk(g, c, RsmTsk(g, c, t).0, {})
  {
    hide Sorted, TimersInv, TimeInv, CallOk;
    Unchanged(g, c);
    var b := c.ts.tcb[t];
    match b.tstat
    case Suspended => ActivateOk(g, c, t);
    case Waiting(why, susp) => MarkOk(g, c, t, b.(tstat := Waiting(why, false)));
    case _ =>
  }

  lemma DlyTskOk(g: Config, c: Core, dlytim: nat)
    requires Inv(g, c)
    ensures CallOk(g, c, DlyTsk(g, c, dlytim).0, {})
  {
    hide Sorted, TimersInv, TimeInv, CallOk;
    Unchanged(g, c);
    if MayBlock(c) && dlytim <= TMAX_RELTIM { SleepOk(g, c, Dly, Some(dlytim)); }
  }

  lemma RotateOk(g: Config, c: Core, pri: nat)
    requires Inv(g, c)
    ensures var c1 := c.(ts := Rotate(c.ts, pri)); CallOk(g, c, Finish(c1, Req(c, c1)), {})
  {
    RotateGood(g, c, pri);
    var c1 := c.(ts := Rotate(c.ts, pri));
    DoneOk(g, c, c1, Req(c, c1), {});
  }

  lemma RotRdqOk(g: Config, c: Core, tskpri: int)
    requires Inv(g, c)
    ensures CallOk(g, c, RotRdq(g, c, tskpri).0, {})
  {
    hide Good, CallOk, Rotate, Req;
    Unchanged(g, c);
    if Live(c) && (if c.nest == 0 then 0 else 1) <= tskpri <= TNUM_TPRI {
      var pri := if tskpri == 0 then c.ts.tcb[c.run.value].priority else tskpri - 1;
      RotateOk(g, c, pri);
    }
  }

  /** A change of the dispatcher's variables that leaves it consistent. */
  lemma SwitchOk(g: Config, c: Core, c': Core)
    requires Inv(g, c) && c' == c.(run := c'.run, fl := c'.fl) && DispInv(c')
    ensures CallOk(g, c, c', {})
  {
    GoodFrame(g, c, c');
  }

  lemma DisDspOk(g: Config, c: Core)
    requires Inv(g, c)
    ensures CallOk(g, c, DisDsp(c).0, {})
  {
    SwitchOk(g, c, DisDsp(c).0);
  }

  lemma EnaDspOk(g: Config, c: Core)
    requires Inv(g, c)
    ensures CallOk(g, c, EnaDsp(c).0, {})
  {
    TopRunnable(c.ts);
    SwitchOk(g, c, EnaDsp(c).0);
  }

  lemma ChgIpmOk(g: Config, c: Core, enaall: bool)
    requires Inv(g, c)
    ensures CallOk(g, c, ChgIpm(c, enaall).0, {})
  {
    TopRunnable(c.ts);
    SwitchOk(g, c, ChgIpm(c, enaall).0);
  }

  lemma IntEnterOk(g: Config, c: Core)
    requires Inv(g, c)
    ensures Inv(g, IntEnter(c))
  {
    GoodFrame(g, c, IntEnter(c));
  }

  lemma IntExitOk(g: Config, c: Core)
    requires Inv(g, c) && MayExit(c)
    ensures Inv(g, IntExit(c)) && Rely(c.ts.tcb, IntExit(c).ts.tcb, {})
  {
    TopRunnable(c.ts);
    GoodFrame(g, c, IntExit(c));
  }
}
