/** The service calls of kernel/task_manage.c on the variables of the kernel. */
module TaskManage {
  import opened Types
  import opened TaskQueues
  import opened Core
  import opened CoreProofs
  import T = TaskCalls
  import P = TaskCallProofs
  import opened TaskScheduler
  import opened TimeEventHeap
  import opened KernelState

  /** act_tsk and iact_tsk. */
  method ActTsk(k: Kernel, t: Tid) returns (ercd: ER)
    requires k.Valid() && Inv(k.g, k.View()) && t < |k.s.tcb|
    modifies k.s, k.s.links
    ensures k.Valid() && (k.View(), ercd) == T.ActTsk(k.g, old(k.View()), t)
  {
    hide Kernel.Valid, Top, Linked, SetTask, Sorted, TimersInv, TimeInv;
    if !(k.nest > 0 || k.s.p_runtsk.Some?) {
      return E_CTX;
    }
    var b := k.s.tcb[t];
    if b.tstat.Dormant? {
      var req := k.MakeActive(t);
      k.Settle(req);
      return E_OK;
    } else if !b.actque {
      k.SetTcb(t, b.(actque := true));
      return E_OK;
    }
    return E_QOVR;
  }

  /** can_act. */
  method CanAct(k: Kernel, t: Tid) returns (ercd: ER, actcnt: nat)
    requires k.Valid() && Inv(k.g, k.View()) && t < |k.s.tcb|
    modifies k.s`tcb
    ensures k.Valid() && (k.View(), ercd, actcnt) == T.CanAct(k.g, old(k.View()), t)
  {
    hide Kernel.Valid, Inv;
    if !(k.nest == 0 && k.s.p_runtsk.Some?) {
      return E_CTX, 0;
    }
    ercd, actcnt := E_OK, if k.s.tcb[t].actque then 1 else 0;
    k.SetTcb(t, k.s.tcb[t].(actque := false));
  }

  /** ext_tsk. */
  method ExtTsk(k: Kernel) returns (ercd: ER)
    requires k.Valid() && Inv(k.g, k.View())
    modifies k.s, k.s.links
    ensures T.RunsTask(old(k.View())) && k.Valid() && (k.View(), ercd) == T.ExtTsk(k.g, old(k.View()))
  {
    hide Kernel.Valid, Top, Linked, SetTask, Sorted, TimersInv;
    if !(k.nest == 0 && k.s.p_runtsk.Some?) {
      return E_CTX;
    }
    var t := k.s.p_runtsk.value;
    k.AllowDispatch();
    ghost var c0 := k.View();
    GoodFrame(k.g, old(k.View()), c0);
    LeaveRunning(k.g, c0, t);
    var _ := k.MakeNonRunnable(t);
    k.MakeDormant(t);
    var _ := k.Restart(t);
    k.DispatchTask();
    ercd := BLOCKED;
  }

  /** The running task as ext_tsk terminates it. */
  lemma LeaveRunning(g: Config, c: Core, t: Tid)
    requires ValidConfig(g) && Good(g, c) && IsRunnable(c, t)
    ensures On(c.ts.q, Ready(c.ts.tcb[t].priority), t) && c.ts.tcb[t].priority < TNUM_TPRI
    ensures t < |g.ipri|
    ensures forall p: nat :: p < TNUM_TPRI ==> !On(NotReady(c, t).ts.q, Ready(p), t)
    ensures Terminate(g, c, t) == Mark(NotReady(c, t), t, Initial(g, c.ts.tcb[t], t))
    ensures Good(g, Terminate(g, c, t))
  {
    AtHome(c, t);
    NotTimed(g, c, t);
    TerminateInSteps(g, c, t);
    TerminateGood(g, c, t);
  }

  /** ter_tsk.  What make_non_runnable returns here is ignored: it is proved to be false. */
  method TerTsk(k: Kernel, t: Tid) returns (ercd: ER)
    requires k.Valid() && Inv(k.g, k.View()) && t < |k.s.tcb|
    modifies k.s, k.s.links, k.h, k.h.tmevt_heap
    ensures k.Valid() && (k.View(), ercd) == T.TerTsk(k.g, old(k.View()), t)
  {
    hide Kernel.Valid, Top, Linked, SetTask, Sorted, TimersInv, TimeInv;
    if !(k.nest == 0 && k.s.p_runtsk.Some?) {
      return E_CTX;
    }
    if k.s.p_runtsk == Some(t) {
      return E_ILUSE;
    }
    if k.s.tcb[t].tstat.Dormant? {
      return E_OBJ;
    }
    ghost var c := k.View();
    P.TerTskDiscardsFalse(k.g, c, t);
    TerTskDormant(k, t);
    TerminateGood(k.g, c, t);
    TerminateInSteps(k.g, c, t);
    assert k.View() == Terminate(k.g, c, t);
    var req := k.Restart(t);
    k.Settle(req);
    ercd := E_OK;
  }

  /** What the parts of ter_tsk find, by the state of the task. */
  lemma LeaveAny(g: Config, c: Core, t: Tid)
    requires ValidConfig(g) && Good(g, c) && t < |c.ts.tcb|
    ensures t < |g.ipri|
    ensures Terminate(g, c, t) == Mark(Leave(c, t), t, Initial(g, c.ts.tcb[t], t)).(tm := c.tm - {TaskBlk(t)})
    ensures forall p: nat :: p < TNUM_TPRI ==> !On(Leave(c, t).ts.q, Ready(p), t)
    ensures c.ts.tcb[t].tstat.Runnable? ==>
              Leave(c, t) == NotReady(c, t) && On(c.ts.q, Ready(c.ts.tcb[t].priority), t)
                && c.ts.tcb[t].priority < TNUM_TPRI
    ensures c.ts.tcb[t].tstat.Suspended? ==> Leave(c, t) == c
    ensures if c.ts.tcb[t].tstat.Waiting? then TimerKnown(c, t) else c.tm - {TaskBlk(t)} == c.tm
  {
    TerminateInSteps(g, c, t);
    if c.ts.tcb[t].tstat.Waiting? { WaiterTimer(c, t); } else { NotTimed(g, c, t); }
    if c.ts.tcb[t].tstat.Runnable? { AtHome(c, t); }
  }

  /** ter_tsk up to make_dormant. */
  method TerTskDormant(k: Kernel, t: Tid)
    requires k.Valid() && Inv(k.g, k.View()) && t < |k.s.tcb| && !k.s.tcb[t].tstat.Dormant?
    requires !Req(k.View(), Terminate(k.g, k.View(), t))
    modifies k.s, k.s.links, k.h, k.h.tmevt_heap
    ensures k.Valid() && k.View() == Terminate(k.g, old(k.View()), t)
  {
    hide Kernel.Valid, Top, Linked, Sorted, TimersInv, TimeInv, Terminate;
    ghost var c := k.View();
    LeaveAny(k.g, c, t);
    if k.s.tcb[t].tstat.Runnable? {
      var req := k.MakeNonRunnable(t);
      assert !req;
    } else if k.s.tcb[t].tstat.Waiting? {
      k.WaitDequeueWobj(t);
      k.WaitDequeueTmevtb(t);
    }
    k.MakeDormant(t);
  }

  /** chg_pri. */
  method ChgPri(k: Kernel, t: Tid, tskpri: int) returns (ercd: ER)
    requires k.Valid() && Inv(k.g, k.View()) && t < |k.s.tcb|
    modifies k.s, k.s.links
    ensures k.Valid() && (k.View(), ercd) == T.ChgPri(k.g, old(k.View()), t, tskpri)
  {
    hide Kernel.Valid, Top, Linked, ChangePriority, Sorted, TimersInv, TimeInv;
    if !(k.nest == 0 && k.s.p_runtsk.Some?) {
      return E_CTX;
    }
    if !(0 <= tskpri <= TNUM_TPRI) {
      return E_PAR;
    }
    if k.s.tcb[t].tstat.Dormant? {
      return E_OBJ;
    }
    var newpri := if tskpri == 0 then k.g.ipri[t] else tskpri - 1;
    var req := k.SetPriority(t, newpri);
    k.Settle(req);
    ercd := E_OK;
  }
}
