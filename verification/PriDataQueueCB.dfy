/** Priority data queues on their control blocks (kernel/pridataq.c). */
module PriDataQueueCB {
  import opened Types
  import opened TaskQueues
  import opened Core
  import T = TaskCalls
  import W = WaitQueues
  import P = PriDataQueue
  import opened PriDataBuffers
  import opened TaskScheduler
  import opened KernelState

  class PDQCB {
    const i: nat
    const maxdpri: int
    const b: PriDataBuffer

    ghost predicate Valid()
      reads b, b.p_pdqmb
    {
      b.Valid()
    }

    ghost function View(): P.Pdq
      reads b
    {
      P.Pdq(b.arr, b.pdqcnt, maxdpri)
    }

    constructor (i: nat, pdqcnt: nat, maxdpri: int)
      ensures Valid() && fresh(b) && fresh(b.p_pdqmb) && this.i == i && View() == P.Pdq([], pdqcnt, maxdpri)
    {
      this.i, this.maxdpri := i, maxdpri;
      b := new PriDataBuffer(pdqcnt);
    }

    /** The first receiver or sender that waits. */
    lemma Waiters(c: Core)
      requires Linked(c.ts)
      ensures W.QueueOk(c, RPdqQ(i)) && W.QueueOk(c, SPdqQ(i))
    {
      W.WaitersAreWaiting(c, RPdqQ(i));
      W.WaitersAreWaiting(c, SPdqQ(i));
    }

    /** send_pridata. */
    method SendPridata(k: Kernel, m: P.Msg) returns (ok: bool, dspreq: bool)
      requires Valid() && k.Valid() && Inv(k.g, k.View()) && {SPdqQ(i), RPdqQ(i)} <= k.wqs
      modifies b, b.p_pdqmb, k.s`tcb, k.s`ready_primap, k.s`p_schedtsk, k.s.links, k.h, k.h.tmevt_heap
      ensures Valid() && k.Valid() && W.QueueOk(old(k.View()), RPdqQ(i))
      ensures (k.View(), View(), ok, dspreq) == P.SendPridata(k.g, old(k.View()), old(View()), i, m)
    {
      hide Kernel.Valid, Linked, Sorted, TimeInv, TaskTimers, Top, Wake, PriDataBuffer.Valid;
      Waiters(k.View());
      b.Counted();
      var empty := k.QueueEmpty(RPdqQ(i));
      if !empty {
        var t;
        t, dspreq := k.WakeFirst(RPdqQ(i), E_OK, Some(P.ToData(m)));
        return true, dspreq;
      } else if b.count < b.pdqcnt {
        b.EnqueuePridata(m.data, m.pri);
        return true, false;
      }
      ok, dspreq := false, false;
    }

    /** The message that dequeue_pridata takes; there is room afterwards. */
    method TakeBest() returns (m: P.Msg)
      requires Valid() && b.count > 0
      modifies b, b.p_pdqmb
      ensures old(b.arr) != [] && m == old(b.arr)[P.Best(old(b.arr))] && Valid() && b.count < b.pdqcnt
      ensures b.arr == P.Without(old(b.arr), P.Best(old(b.arr)))
    {
      hide PriDataBuffer.Valid;
      b.Counted();
      var data, datapri := b.DequeuePridata();
      b.Counted();
      m := P.Msg(data, datapri);
    }

    /** receive_pridata. */
    method ReceivePridata(k: Kernel) returns (ok: bool, m: P.Msg, dspreq: bool)
      requires Valid() && k.Valid() && Inv(k.g, k.View()) && {SPdqQ(i), RPdqQ(i)} <= k.wqs
      modifies b, b.p_pdqmb, k.s`tcb, k.s`ready_primap, k.s`p_schedtsk, k.s.links, k.h, k.h.tmevt_heap
      ensures Valid() && k.Valid() && W.QueueOk(old(k.View()), SPdqQ(i))
      ensures (k.View(), View(), ok, m, dspreq) == P.ReceivePridata(k.g, old(k.View()), old(View()), i)
    {
      hide Kernel.Valid, Linked, Sorted, TimeInv, TaskTimers, Top, Wake, PriDataBuffer.Valid;
      Waiters(k.View());
      var empty := k.QueueEmpty(SPdqQ(i));
      b.Counted();
      if b.count > 0 {
        m := TakeBest();
        dspreq := false;
        if !empty {
          var t := k.FirstOf(SPdqQ(i));
          var x := P.MsgIn(k.s.tcb[t].wdata);
          b.EnqueuePridata(x.data, x.pri);
          t, dspreq := k.WakeFirst(SPdqQ(i), E_OK, None);
        }
        return true, m, dspreq;
      } else if !empty {
        var t := k.FirstOf(SPdqQ(i));
        m := P.MsgIn(k.s.tcb[t].wdata);
        t, dspreq := k.WakeFirst(SPdqQ(i), E_OK, None);
        return true, m, dspreq;
      }
      ok, m, dspreq := false, P.Msg(0, 0), false;
    }

    /** snd_pdq, tsnd_pdq, psnd_pdq and ipsnd_pdq. */
    method SndPdq(k: Kernel, m: P.Msg, p: Patience) returns (ercd: ER)
      requires Valid() && k.Valid() && Inv(k.g, k.View()) && {SPdqQ(i), RPdqQ(i)} <= k.wqs && T.TmoType(p)
      modifies b, b.p_pdqmb, k.s, k.s.links, k.h, k.h.tmevt_heap
      ensures Valid() && k.Valid() && T.RunsTask(old(k.View())) && W.QueueOk(old(k.View()), RPdqQ(i))
      ensures (k.View(), View(), ercd) == P.SndPdq(k.g, old(k.View()), old(View()), i, m, p)
    {
      hide Kernel.Valid, PriDataBuffer.Valid, Linked, Sorted, TimeInv, TaskTimers, P.SendPridata, Block, Top;
      Waiters(k.View());
      if !(if p.Polling? then k.nest > 0 || k.s.p_runtsk.Some? else k.nest == 0 && k.s.p_runtsk.Some? && k.s.dspflg) {
        return E_CTX;
      }
      if !T.TmoOk(p) || !(1 <= m.pri <= maxdpri) {
        return E_PAR;
      }
      SendFails(k.g, k.View(), View(), m);
      var ok, dspreq := SendPridata(k, m);
      if ok {
        k.Settle(dspreq);
        return E_OK;
      } else if p.Polling? || p.tmo == TMO_POL {
        return E_TMOUT;
      }
      k.Sleep(Obj(SPdqQ(i)), P.ToData(m), T.TimerOf(p));
      ercd := BLOCKED;
    }

    lemma SendFails(g: Config, c: Core, d: P.Pdq, m: P.Msg)
      requires W.QueueOk(c, RPdqQ(i))
      ensures var (c', d', ok, req) := P.SendPridata(g, c, d, i, m); !ok ==> c' == c && d' == d
    {
    }

    lemma ReceiveFails(g: Config, c: Core, d: P.Pdq)
      requires W.QueueOk(c, SPdqQ(i))
      ensures var (c', d', ok, x, req) := P.ReceivePridata(g, c, d, i); !ok ==> c' == c && d' == d
    {
    }

    /** rcv_pdq, trcv_pdq and prcv_pdq. */
    method RcvPdq(k: Kernel, p: Patience) returns (ercd: ER, m: P.Msg)
      requires Valid() && k.Valid() && Inv(k.g, k.View()) && {SPdqQ(i), RPdqQ(i)} <= k.wqs && T.TmoType(p)
      modifies b, b.p_pdqmb, k.s, k.s.links, k.h, k.h.tmevt_heap
      ensures Valid() && k.Valid() && T.RunsTask(old(k.View())) && W.QueueOk(old(k.View()), SPdqQ(i))
      ensures (k.View(), View(), ercd, m) == P.RcvPdq(k.g, old(k.View()), old(View()), i, p)
    {
      hide Kernel.Valid, PriDataBuffer.Valid, Linked, Sorted, TimeInv, TaskTimers, P.ReceivePridata, Block, Top;
      Waiters(k.View());
      if !(k.nest == 0 && k.s.p_runtsk.Some? && (p.Tmo? ==> k.s.dspflg)) {
        return E_CTX, P.Msg(0, 0);
      }
      if !T.TmoOk(p) {
        return E_PAR, P.Msg(0, 0);
      }
      ReceiveFails(k.g, k.View(), View());
      var ok, dspreq;
      ok, m, dspreq := ReceivePridata(k);
      if ok {
        k.Settle(dspreq);
        return E_OK, m;
      } else if p.Polling? || p.tmo == TMO_POL {
        return E_TMOUT, P.Msg(0, 0);
      }
      k.Sleep(Obj(RPdqQ(i)), NoData, T.TimerOf(p));
      ercd, m := BLOCKED, P.Msg(0, 0);
    }

    /** ini_pdq. */
    method IniPdq(k: Kernel) returns (ercd: ER)
      requires Valid() && k.Valid() && Inv(k.g, k.View()) && {SPdqQ(i), RPdqQ(i)} <= k.wqs
      modifies b, k.s, k.s.links, k.h, k.h.tmevt_heap
      ensures Valid() && k.Valid() && W.QueueOk(old(k.View()), SPdqQ(i))
      ensures W.QueueOk(W.WakeAll(k.g, old(k.View()), WaitQ(old(k.View()), SPdqQ(i)), E_DLT).0, RPdqQ(i))
      ensures (k.View(), View(), ercd) == P.IniPdq(k.g, old(k.View()), old(View()), i)
    {
      hide Kernel.Valid, Good, PriDataBuffer.Valid, W.WakeAll;
      ghost var c := k.View();
      W.InitTwoQueuesOk(k.g, c, SPdqQ(i), RPdqQ(i));
      W.InitWaitQueueOk(k.g, c, SPdqQ(i));
      if !(k.nest == 0 && k.s.p_runtsk.Some?) {
        return E_CTX;
      }
      var dspreq := k.InitWaitQueue(SPdqQ(i));
      var dspreq2 := k.InitWaitQueue(RPdqQ(i));
      b.Reset();
      k.Settle(dspreq || dspreq2);
      ercd := E_OK;
    }
  }
}
