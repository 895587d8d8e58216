/** The service calls of kernel/task_sync.c on the variables of the kernel. */
module TaskSync {
  import opened Types
  import opened TaskQueues
  import opened Core
  import opened CoreProofs
  import T = TaskCalls
  import opened TaskScheduler
  import opened KernelState

  /** CHECK_DISPATCH. */
  method MayBlock(k: Kernel) returns (r: bool)
    ensures r == T.MayBlock(k.View())
  {
    r := k.nest == 0 && k.s.p_runtsk.Some? && k.s.dspflg;
  }

  /** slp_tsk and tslp_tsk. */
  method SlpTsk(k: Kernel, p: Patience) returns (ercd: ER)
    requires k.Valid() && Inv(k.g, k.View()) && p.Tmo? && T.TmoType(p)
    modifies k.s, k.s.links, k.h, k.h.tmevt_heap
    ensures T.RunsTask(old(k.View())) && k.Valid() && (k.View(), ercd) == T.SlpTsk(k.g, old(k.View()), p)
  {
    hide Kernel.Valid, Good, Block;
    var ok := MayBlock(k);
    if !ok {
      return E_CTX;
    }
    if p.tmo < TMO_FEVR {
      return E_PAR;
    }
    var t := k.s.p_runtsk.value;
    var b := k.s.tcb[t];
    if b.wupque {
      k.SetTcb(t, b.(wupque := false));
      return E_OK;
    } else if p.tmo == TMO_POL {
      return E_TMOUT;
    }
    k.Sleep(Slp, NoData, if p.tmo > 0 then Some(p.tmo) else None);
    ercd := BLOCKED;
  }

  /** wup_tsk and iwup_tsk. */
  method WupTsk(k: Kernel, t: Tid) returns (ercd: ER)
    requires k.Valid() && Inv(k.g, k.View()) && t < |k.s.tcb|
    modifies k.s, k.s.links, k.h, k.h.tmevt_heap
    ensures k.Valid() && (k.View(), ercd) == T.WupTsk(k.g, old(k.View()), t)
  {
    hide Kernel.Valid, Top, Linked, Sorted, TimeInv, TaskTimers, SetTask, Resumed, Unlink;
    if !(k.nest > 0 || k.s.p_runtsk.Some?) {
      return E_CTX;
    }
    var b := k.s.tcb[t];
    if b.tstat.Dormant? {
      return E_OBJ;
    } else if b.tstat.Waiting? && b.tstat.why.Slp? {
      HomelessLoose(k.View(), t);
      WaiterTimer(k.View(), t);
      WakeQuietly(k.g, k.View(), t, E_OK);
      var req := k.WaitComplete(t);
      k.Settle(req);
      return E_OK;
    } else if !b.wupque {
      k.SetTcb(t, b.(wupque := true));
      return E_OK;
    }
    ercd := E_QOVR;
  }

  /** can_wup. */
  method CanWup(k: Kernel, t: Tid) returns (ercd: ER, wupcnt: nat)
    requires k.Valid() && Inv(k.g, k.View()) && t < |k.s.tcb|
    modifies k.s`tcb
    ensures k.Valid() && (k.View(), ercd, wupcnt) == T.CanWup(k.g, old(k.View()), t)
  {
    hide Kernel.Valid, Inv;
    if !(k.nest == 0 && k.s.p_runtsk.Some?) {
      return E_CTX, 0;
    }
    if k.s.tcb[t].tstat.Dormant? {
      return E_OBJ, 0;
    }
    ercd, wupcnt := E_OK, if k.s.tcb[t].wupque then 1 else 0;
    k.SetTcb(t, k.s.tcb[t].(wupque := false));
  }

  /** rel_wai and irel_wai. */
  method RelWai(k: Kernel, t: Tid) returns (ercd: ER)
    requires k.Valid() && Inv(k.g, k.View()) && t < |k.s.tcb|
    modifies k.s, k.s.links, k.h, k.h.tmevt_heap
    ensures k.Valid() && (k.View(), ercd) == T.RelWai(k.g, old(k.View()), t)
  {
    hide Kernel.Valid, Top, Linked, Sorted, TimeInv, TaskTimers, Wake;
    if !(k.nest > 0 || k.s.p_runtsk.Some?) {
      return E_CTX;
    }
    if !k.s.tcb[t].tstat.Waiting? {
      return E_OBJ;
    }
    WaiterTimer(k.View(), t);
    var req := k.WaitRelease(t);
    k.Settle(req);
    ercd := E_OK;
  }

  /** sus_tsk. */
  method SusTsk(k: Kernel, t: Tid) returns (ercd: ER)
    requires k.Valid() && Inv(k.g, k.View()) && t < |k.s.tcb|
    modifies k.s, k.s.links
    ensures k.Valid() && (k.View(), ercd) == T.SusTsk(k.g, old(k.View()), t)
  {
    hide Kernel.Valid, Top, Linked, Sorted, TimeInv, TaskTimers;
    if !(k.nest == 0 && k.s.p_runtsk.Some?) {
      return E_CTX;
    }
    if k.s.p_runtsk == Some(t) && !k.s.dspflg {
      return E_CTX;
    }
    var b := k.s.tcb[t];
    match b.tstat {
      case Dormant => ercd := E_OBJ;
      case Runnable =>
        SuspendInSteps(k.g, k.View(), t);
        k.SetTcb(t, b.(tstat := Suspended));
        var req := k.MakeNonRunnable(t);
        k.Settle(req);
        ercd := E_OK;
      case Suspended => ercd := E_QOVR;
      case Waiting(why, susp) =>
        if susp {
          ercd := E_QOVR;
        } else {
          k.SetTcb(t, b.(tstat := Waiting(why, true)));
          ercd := E_OK;
        }
    }
  }

  lemma SuspendInSteps(g: Config, c: Core, t: Tid)
    requires Linked(c.ts) && IsRunnable(c, t)
    ensures var b := c.ts.tcb[t].(tstat := Suspended);
            && SetTask(g, c, t, b) == NotReady(Mark(c, t, b), t)
            && On(c.ts.q, Ready(b.priority), t) && b.priority < TNUM_TPRI
  {
    AtHome(c, t);
  }

  /** rsm_tsk. */
  method RsmTsk(k: Kernel, t: Tid) returns (ercd: ER)
    requires k.Valid() && Inv(k.g, k.View()) && t < |k.s.tcb|
    modifies k.s, k.s.links
    ensures k.Valid() && (k.View(), ercd) == T.RsmTsk(k.g, old(k.View()), t)
  {
    hide Kernel.Valid, Top, Linked, Sorted, TimeInv, TaskTimers, SetTask;
    if !(k.nest == 0 && k.s.p_runtsk.Some?) {
      return E_CTX;
    }
    var b := k.s.tcb[t];
    match b.tstat {
      case Suspended =>
        var req := k.MakeActive(t);
        k.Settle(req);
        ercd := E_OK;
      case Waiting(why, susp) =>
        if susp {
          k.SetTcb(t, b.(tstat := Waiting(why, false)));
          ercd := E_OK;
        } else {
          ercd := E_OBJ;
        }
      case _ => ercd := E_OBJ;
    }
  }

  /** dly_tsk. */
  method DlyTsk(k: Kernel, dlytim: nat) returns (ercd: ER)
    requires k.Valid() && Inv(k.g, k.View())
    modifies k.s, k.s.links, k.h, k.h.tmevt_heap
    ensures T.RunsTask(old(k.View())) && k.Valid() && (k.View(), ercd) == T.DlyTsk(k.g, old(k.View()), dlytim)
  {
    hide Kernel.Valid, Good, Block;
    var ok := MayBlock(k);
    if !ok {
      return E_CTX;
    }
    if dlytim > TMAX_RELTIM {
      return E_PAR;
    }
    k.Sleep(Dly, NoData, Some(dlytim));
    ercd := BLOCKED;
  }
}
