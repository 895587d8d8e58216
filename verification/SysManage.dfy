/** The service calls of kernel/sys_manage.c and kernel/interrupt.c that touch the dispatcher, and the
    entry and exit of interrupt handlers. */
module SysManage {
  import opened Types
  import opened TaskQueues
  import opened Core
  import T = TaskCalls
  import opened ReadyBitmap
  import opened TaskScheduler
  import opened TimeEventHeap
  import opened KernelState

  /** rot_rdq and irot_rdq. */
  method RotRdq(k: Kernel, tskpri: int) returns (ercd: ER)
    requires k.Valid() && Inv(k.g, k.View())
    modifies k.s, k.s.links
    ensures T.RunsTask(old(k.View())) && k.Valid() && (k.View(), ercd) == T.RotRdq(k.g, old(k.View()), tskpri)
  {
    hide Kernel.Valid, Top, Linked, Sorted, TimeInv, TimersInv;
    if !(k.nest > 0 || k.s.p_runtsk.Some?) {
      return E_CTX;
    }
    if !((if k.nest == 0 then 0 else 1) <= tskpri <= TNUM_TPRI) {
      return E_PAR;
    }
    var pri: nat;
    if tskpri == 0 {
      pri := k.s.tcb[k.s.p_runtsk.value].priority;
      AtHome(k.View(), k.s.p_runtsk.value);
    } else {
      pri := tskpri - 1;
    }
    var req := k.RotateQueue(pri);
    k.Settle(req);
    ercd := E_OK;
  }

  /** dis_dsp. */
  method DisDsp(k: Kernel) returns (ercd: ER)
    requires k.Valid()
    modifies k.s`disdsp, k.s`dspflg
    ensures k.Valid() && (k.View(), ercd) == T.DisDsp(old(k.View()))
  {
    hide Scheduler.QueuesOk, Agrees, Top, Heap.Valid, Kernel.BlocksOk, Kernel.CycOk;
    if !(k.nest == 0 && k.s.p_runtsk.Some?) {
      return E_CTX;
    }
    k.s.disdsp := true;
    k.s.dspflg := false;
    ercd := E_OK;
  }

  /** ena_dsp. */
  method EnaDsp(k: Kernel) returns (ercd: ER)
    requires k.Valid()
    modifies k.s`disdsp, k.s`dspflg, k.s`p_runtsk
    ensures k.Valid() && (k.View(), ercd) == T.EnaDsp(old(k.View()))
  {
    hide Scheduler.QueuesOk, Agrees, Top, Heap.Valid, Kernel.BlocksOk, Kernel.CycOk;
    if !(k.nest == 0 && k.s.p_runtsk.Some?) {
      return E_CTX;
    }
    k.s.disdsp := false;
    if k.s.ipmflg {
      k.s.dspflg := true;
      if k.s.p_runtsk != k.s.p_schedtsk {
        k.DispatchTask();
      }
    }
    ercd := E_OK;
  }

  /** chg_ipm. */
  method ChgIpm(k: Kernel, enaall: bool) returns (ercd: ER)
    requires k.Valid()
    modifies k.s`ipmflg, k.s`dspflg, k.s`p_runtsk
    ensures k.Valid() && (k.View(), ercd) == T.ChgIpm(old(k.View()), enaall)
  {
    hide Scheduler.QueuesOk, Agrees, Top, Heap.Valid, Kernel.BlocksOk, Kernel.CycOk;
    if !(k.nest == 0 && k.s.p_runtsk.Some?) {
      return E_CTX;
    }
    if enaall {
      k.s.ipmflg := true;
      if !k.s.disdsp {
        k.s.dspflg := true;
        if k.s.p_runtsk != k.s.p_schedtsk {
          k.DispatchTask();
        }
      }
    } else {
      k.s.ipmflg := false;
      k.s.dspflg := false;
    }
    ercd := E_OK;
  }

  /** The entry of an interrupt handler. */
  method IntEnter(k: Kernel)
    requires k.Valid()
    modifies k`nest
    ensures k.Valid() && k.View() == T.IntEnter(old(k.View()))
  {
    hide Scheduler.Valid, Heap.Valid;
    k.nest := k.nest + 1;
  }

  /** The exit: the outermost one acts on the requests that were left to it. */
  method IntExit(k: Kernel)
    requires k.Valid() && T.MayExit(k.View())
    modifies k`nest, k.s`reqflg, k.s`p_runtsk
    ensures k.Valid() && k.View() == T.IntExit(old(k.View())) && k.nest == old(k.nest) - 1
  {
    hide Scheduler.QueuesOk, Agrees, Top, Heap.Valid, Kernel.BlocksOk, Kernel.CycOk;
    k.nest := k.nest - 1;
    if k.nest == 0 && k.s.reqflg {
      k.s.reqflg := false;
      if k.s.dspflg && k.s.p_runtsk != k.s.p_schedtsk {
        k.DispatchTask();
      }
    }
  }
}
