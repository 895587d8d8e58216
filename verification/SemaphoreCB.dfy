/** Semaphores on their control blocks (kernel/semaphore.c). */
module SemaphoreCB {
  import opened Types
  import opened TaskQueues
  import opened Core
  import T = TaskCalls
  import W = WaitQueues
  import S = Semaphore
  import opened TaskScheduler
  import opened KernelState

  class SEMCB {
    const i: nat
    const isemcnt: nat
    const maxsem: nat
    var semcnt: nat
    ghost var signals: nat
    ghost var acquired: nat

    ghost function View(): S.Sem
      reads this
    {
      S.Sem(semcnt, isemcnt, maxsem, signals, acquired)
    }

    constructor (i: nat, isemcnt: nat, maxsem: nat)
      ensures this.i == i && View() == S.Sem(isemcnt, isemcnt, maxsem, 0, 0)
    {
      this.i, this.isemcnt, this.maxsem := i, isemcnt, maxsem;
      semcnt, signals, acquired := isemcnt, 0, 0;
    }

    /** sig_sem and isig_sem. */
    method SigSem(k: Kernel) returns (ercd: ER)
      requires k.Valid() && Inv(k.g, k.View()) && SemQ(i) in k.wqs
      modifies this, k.s, k.s.links, k.h, k.h.tmevt_heap
      ensures k.Valid() && W.QueueOk(old(k.View()), SemQ(i))
      ensures (k.View(), View(), ercd) == S.SigSem(k.g, old(k.View()), old(View()), i)
    {
      hide Kernel.Valid, Linked, Sorted, TimeInv, TaskTimers, Top, Wake;
      W.WaitersAreWaiting(k.View(), SemQ(i));
      if !(k.nest > 0 || k.s.p_runtsk.Some?) {
        return E_CTX;
      }
      var empty := k.QueueEmpty(SemQ(i));
      if !empty {
        var _, req := k.WakeFirst(SemQ(i), E_OK, None);
        k.Settle(req);
        signals, acquired := signals + 1, acquired + 1;
        return E_OK;
      } else if semcnt < maxsem {
        semcnt := semcnt + 1;
        signals := signals + 1;
        return E_OK;
      }
      ercd := E_QOVR;
    }

    /** wai_sem, pol_sem and twai_sem. */
    method WaiSem(k: Kernel, p: Patience) returns (ercd: ER)
      requires k.Valid() && Inv(k.g, k.View()) && SemQ(i) in k.wqs && T.TmoType(p)
      modifies this, k.s, k.s.links, k.h, k.h.tmevt_heap
      ensures k.Valid() && T.RunsTask(old(k.View()))
      ensures (k.View(), View(), ercd) == S.WaiSem(k.g, old(k.View()), old(View()), i, p)
    {
      hide Kernel.Valid, Good, Block;
      if !(k.nest == 0 && k.s.p_runtsk.Some? && (p.Tmo? ==> k.s.dspflg)) {
        return E_CTX;
      }
      if !T.TmoOk(p) {
        return E_PAR;
      }
      if semcnt >= 1 {
        semcnt := semcnt - 1;
        acquired := acquired + 1;
        return E_OK;
      } else if p.Polling? || p.tmo == TMO_POL {
        return E_TMOUT;
      }
      k.Sleep(Obj(SemQ(i)), NoData, T.TimerOf(p));
      ercd := BLOCKED;
    }

    /** ini_sem. */
    method IniSem(k: Kernel) returns (ercd: ER)
      requires k.Valid() && Inv(k.g, k.View()) && SemQ(i) in k.wqs
      modifies this, k.s, k.s.links, k.h, k.h.tmevt_heap
      ensures k.Valid() && W.QueueOk(old(k.View()), SemQ(i))
      ensures (k.View(), View(), ercd) == S.IniSem(k.g, old(k.View()), old(View()), i)
    {
      hide Kernel.Valid, Good;
      GoodQueue(k.g, k.View(), SemQ(i));
      if !(k.nest == 0 && k.s.p_runtsk.Some?) {
        return E_CTX;
      }
      var dspreq := k.InitWaitQueue(SemQ(i));
      semcnt := isemcnt;
      signals, acquired := 0, 0;
      k.Settle(dspreq);
      ercd := E_OK;
    }
  }
}
