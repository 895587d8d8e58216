/** Data queues on their control blocks: a ring buffer in an array, and two wait queues
    (kernel/dataqueue.c). */
module DataQueueCB {
  import opened Types
  import opened TaskQueues
  import opened Core
  import T = TaskCalls
  import W = WaitQueues
  import D = DataQueue
  import opened TaskScheduler
  import opened KernelState
  import opened Rings

  class DataBuffer {
    const dtqcnt: nat
    const p_dtqmb: array<int>
    var count: nat
    var head: nat
    var tail: nat

    ghost predicate Valid()
      reads this, p_dtqmb
    {
      && p_dtqmb.Length == dtqcnt && count <= dtqcnt
      && (if dtqcnt == 0 then head == 0 == tail else head < dtqcnt && tail == Slot(head, count, dtqcnt))
    }

    /** The data in the order of their arrival. */
    ghost function Contents(): (s: seq<int>)
      requires Valid()
      reads this, p_dtqmb
      ensures |s| == count
    {
      Run(p_dtqmb[..], head, count)
    }

    constructor (dtqcnt: nat)
      ensures Valid() && fresh(p_dtqmb) && this.dtqcnt == dtqcnt && Contents() == []
    {
      this.dtqcnt := dtqcnt;
      p_dtqmb := new int[dtqcnt];
      count, head, tail := 0, 0, 0;
    }

    /** enqueue_data. */
    method EnqueueData(data: int)
      requires Valid() && count < dtqcnt
      modifies this`count, this`tail, p_dtqmb
      ensures Valid() && Contents() == old(Contents()) + [data]
    {
      RunAppend(p_dtqmb[..], head, count, data);
      SlotNext(head, count, dtqcnt);
      p_dtqmb[tail] := data;
      count := count + 1;
      tail := tail + 1;
      if tail >= dtqcnt {
        tail := 0;
      }
    }

    /** force_enqueue_data: a full ring loses its oldest entry. */
    method ForceEnqueueData(data: int)
      requires Valid() && dtqcnt > 0
      modifies this`count, this`head, this`tail, p_dtqmb
      ensures Valid() && Contents() == D.ForceBuf(D.Dtq(old(Contents()), dtqcnt), data)
    {
      if count < dtqcnt {
        RunAppend(p_dtqmb[..], head, count, data);
        SlotNext(head, count, dtqcnt);
      } else {
        RunReplace(p_dtqmb[..], head, data);
      }
      p_dtqmb[tail] := data;
      tail := tail + 1;
      if tail >= dtqcnt {
        tail := 0;
      }
      if count < dtqcnt {
        count := count + 1;
      } else {
        head := tail;
      }
    }

    /** dequeue_data. */
    method DequeueData() returns (data: int)
      requires Valid() && count > 0
      modifies this`count, this`head
      ensures Valid() && data == old(Contents())[0] && Contents() == old(Contents())[1..]
    {
      RunDrop(p_dtqmb[..], head, count);
      data := p_dtqmb[head];
      count := count - 1;
      head := head + 1;
      if head >= dtqcnt {
        head := 0;
      }
    }

    /** The reinitialisation by ini_dtq. */
    method Reset()
      requires Valid()
      modifies this
      ensures Valid() && Contents() == []
    {
      count, head, tail := 0, 0, 0;
    }
  }

  class DTQCB {
    const i: nat
    const b: DataBuffer

    ghost predicate Valid()
      reads b, b.p_dtqmb
    {
      b.Valid()
    }

    ghost function View(): D.Dtq
      requires Valid()
      reads b, b.p_dtqmb
    {
      D.Dtq(b.Contents(), b.dtqcnt)
    }

    constructor (i: nat, dtqcnt: nat)
      ensures Valid() && fresh(b) && fresh(b.p_dtqmb) && this.i == i && View() == D.Dtq([], dtqcnt)
    {
      this.i := i;
      b := new DataBuffer(dtqcnt);
    }

    /** The first receiver or sender that waits. */
    lemma Waiters(c: Core)
      requires Linked(c.ts)
      ensures W.QueueOk(c, RDtqQ(i)) && W.QueueOk(c, SDtqQ(i))
    {
      W.WaitersAreWaiting(c, RDtqQ(i));
      W.WaitersAreWaiting(c, SDtqQ(i));
    }

    /** send_data. */
    method SendData(k: Kernel, data: int) returns (ok: bool, dspreq: bool)
      requires Valid() && k.Valid() && Inv(k.g, k.View()) && {SDtqQ(i), RDtqQ(i)} <= k.wqs
      modifies b, b.p_dtqmb, k.s`tcb, k.s`ready_primap, k.s`p_schedtsk, k.s.links, k.h, k.h.tmevt_heap
      ensures Valid() && k.Valid() && W.QueueOk(old(k.View()), RDtqQ(i))
      ensures (k.View(), View(), ok, dspreq) == D.SendData(k.g, old(k.View()), old(View()), i, data)
    {
      hide Kernel.Valid, Linked, Sorted, TimeInv, TaskTimers, Top, Wake, DataBuffer.Contents, DataBuffer.Valid;
      Waiters(k.View());
      var empty := k.QueueEmpty(RDtqQ(i));
      if !empty {
        var t;
        t, dspreq := k.WakeFirst(RDtqQ(i), E_OK, Some(MsgData(data, 0)));
        return true, dspreq;
      } else if b.count < b.dtqcnt {
        b.EnqueueData(data);
        return true, false;
      }
      ok, dspreq := false, false;
    }

    /** force_send_data. */
    method ForceSendData(k: Kernel, data: int) returns (dspreq: bool)
      requires Valid() && k.Valid() && Inv(k.g, k.View()) && {SDtqQ(i), RDtqQ(i)} <= k.wqs && b.dtqcnt > 0
      modifies b, b.p_dtqmb, k.s`tcb, k.s`ready_primap, k.s`p_schedtsk, k.s.links, k.h, k.h.tmevt_heap
      ensures Valid() && k.Valid() && W.QueueOk(old(k.View()), RDtqQ(i)) && |old(View()).buf| <= b.dtqcnt
      ensures (k.View(), View(), dspreq) == D.ForceSendData(k.g, old(k.View()), old(View()), i, data)
    {
      hide Kernel.Valid, Linked, Sorted, TimeInv, TaskTimers, Top, Wake, DataBuffer.Contents, D.ForceBuf;
      Waiters(k.View());
      var empty := k.QueueEmpty(RDtqQ(i));
      if !empty {
        var t;
        t, dspreq := k.WakeFirst(RDtqQ(i), E_OK, Some(MsgData(data, 0)));
      } else {
        b.ForceEnqueueData(data);
        dspreq := false;
      }
    }

    /** receive_data. */
    method ReceiveData(k: Kernel) returns (ok: bool, data: int, dspreq: bool)
      requires Valid() && k.Valid() && Inv(k.g, k.View()) && {SDtqQ(i), RDtqQ(i)} <= k.wqs
      modifies b, b.p_dtqmb, k.s`tcb, k.s`ready_primap, k.s`p_schedtsk, k.s.links, k.h, k.h.tmevt_heap
      ensures Valid() && k.Valid() && W.QueueOk(old(k.View()), SDtqQ(i))
      ensures (k.View(), View(), ok, data, dspreq) == D.ReceiveData(k.g, old(k.View()), old(View()), i)
    {
      hide Kernel.Valid, Linked, Sorted, TimeInv, TaskTimers, Top, Wake, DataBuffer.Contents;
      Waiters(k.View());
      var empty := k.QueueEmpty(SDtqQ(i));
      if b.count > 0 {
        data := b.DequeueData();
        dspreq := false;
        if !empty {
          var t := k.FirstOf(SDtqQ(i));
          b.EnqueueData(D.MsgOf(k.s.tcb[t].wdata));
          t, dspreq := k.WakeFirst(SDtqQ(i), E_OK, None);
        }
        return true, data, dspreq;
      } else if !empty {
        var t := k.FirstOf(SDtqQ(i));
        data := D.MsgOf(k.s.tcb[t].wdata);
        t, dspreq := k.WakeFirst(SDtqQ(i), E_OK, None);
        return true, data, dspreq;
      }
      ok, data, dspreq := false, 0, false;
    }

    /** snd_dtq, tsnd_dtq, psnd_dtq and ipsnd_dtq. */
    method SndDtq(k: Kernel, data: int, p: Patience) returns (ercd: ER)
      requires Valid() && k.Valid() && Inv(k.g, k.View()) && {SDtqQ(i), RDtqQ(i)} <= k.wqs && T.TmoType(p)
      modifies b, b.p_dtqmb, k.s, k.s.links, k.h, k.h.tmevt_heap
      ensures Valid() && k.Valid() && T.RunsTask(old(k.View())) && W.QueueOk(old(k.View()), RDtqQ(i))
      ensures (k.View(), View(), ercd) == D.SndDtq(k.g, old(k.View()), old(View()), i, data, p)
    {
      hide Kernel.Valid, DataBuffer.Valid, Linked, Sorted, TimeInv, TaskTimers, D.SendData, Block, Top;
      Waiters(k.View());
      if !(if p.Polling? then k.nest > 0 || k.s.p_runtsk.Some? else k.nest == 0 && k.s.p_runtsk.Some? && k.s.dspflg) {
        return E_CTX;
      }
      if !T.TmoOk(p) {
        return E_PAR;
      }
      SendFails(k.g, k.View(), View(), data);
      var ok, dspreq := SendData(k, data);
      if ok {
        k.Settle(dspreq);
        return E_OK;
      } else if p.Polling? || p.tmo == TMO_POL {
        return E_TMOUT;
      }
      k.Sleep(Obj(SDtqQ(i)), MsgData(data, 0), T.TimerOf(p));
      ercd := BLOCKED;
    }

    lemma SendFails(g: Config, c: Core, d: D.Dtq, data: int)
      requires W.QueueOk(c, RDtqQ(i))
      ensures var (c', d', ok, req) := D.SendData(g, c, d, i, data); !ok ==> c' == c && d' == d
    {
    }

    lemma ReceiveFails(g: Config, c: Core, d: D.Dtq)
      requires W.QueueOk(c, SDtqQ(i))
      ensures var (c', d', ok, x, req) := D.ReceiveData(g, c, d, i); !ok ==> c' == c && d' == d
    {
    }

    /** fsnd_dtq and ifsnd_dtq. */
    method FsndDtq(k: Kernel, data: int) returns (ercd: ER)
      requires Valid() && k.Valid() && Inv(k.g, k.View()) && {SDtqQ(i), RDtqQ(i)} <= k.wqs
      modifies b, b.p_dtqmb, k.s, k.s.links, k.h, k.h.tmevt_heap
      ensures Valid() && k.Valid() && W.QueueOk(old(k.View()), RDtqQ(i)) && |old(View()).buf| <= b.dtqcnt
      ensures (k.View(), View(), ercd) == D.FsndDtq(k.g, old(k.View()), old(View()), i, data)
    {
      hide Kernel.Valid, Linked, Sorted, TimeInv, TaskTimers, D.ForceSendData, Top;
      Waiters(k.View());
      if !(k.nest > 0 || k.s.p_runtsk.Some?) {
        return E_CTX;
      }
      if b.dtqcnt == 0 {
        return E_ILUSE;
      }
      var dspreq := ForceSendData(k, data);
      k.Settle(dspreq);
      ercd := E_OK;
    }

    /** rcv_dtq, trcv_dtq and prcv_dtq. */
    method RcvDtq(k: Kernel, p: Patience) returns (ercd: ER, data: int)
      requires Valid() && k.Valid() && Inv(k.g, k.View()) && {SDtqQ(i), RDtqQ(i)} <= k.wqs && T.TmoType(p)
      modifies b, b.p_dtqmb, k.s, k.s.links, k.h, k.h.tmevt_heap
      ensures Valid() && k.Valid() && T.RunsTask(old(k.View())) && W.QueueOk(old(k.View()), SDtqQ(i))
      ensures (k.View(), View(), ercd, data) == D.RcvDtq(k.g, old(k.View()), old(View()), i, p)
    {
      hide Kernel.Valid, DataBuffer.Valid, Linked, Sorted, TimeInv, TaskTimers, D.ReceiveData, Block, Top;
      Waiters(k.View());
      if !(k.nest == 0 && k.s.p_runtsk.Some? && (p.Tmo? ==> k.s.dspflg)) {
        return E_CTX, 0;
      }
      if !T.TmoOk(p) {
        return E_PAR, 0;
      }
      ReceiveFails(k.g, k.View(), View());
      var ok, dspreq;
      ok, data, dspreq := ReceiveData(k);
      if ok {
        k.Settle(dspreq);
        return E_OK, data;
      } else if p.Polling? || p.tmo == TMO_POL {
        return E_TMOUT, 0;
      }
      k.Sleep(Obj(RDtqQ(i)), NoData, T.TimerOf(p));
      ercd, data := BLOCKED, 0;
    }

    /** ini_dtq. */
    method IniDtq(k: Kernel) returns (ercd: ER)
      requires Valid() && k.Valid() && Inv(k.g, k.View()) && {SDtqQ(i), RDtqQ(i)} <= k.wqs
      modifies b, k.s, k.s.links, k.h, k.h.tmevt_heap
      ensures Valid() && k.Valid() && W.QueueOk(old(k.View()), SDtqQ(i))
      ensures W.QueueOk(W.WakeAll(k.g, old(k.View()), WaitQ(old(k.View()), SDtqQ(i)), E_DLT).0, RDtqQ(i))
      ensures (k.View(), View(), ercd) == D.IniDtq(k.g, old(k.View()), old(View()), i)
    {
      hide Kernel.Valid, Good, DataBuffer.Valid, W.WakeAll;
      ghost var c := k.View();
      W.InitTwoQueuesOk(k.g, c, SDtqQ(i), RDtqQ(i));
      W.InitWaitQueueOk(k.g, c, SDtqQ(i));
      if !(k.nest == 0 && k.s.p_runtsk.Some?) {
        return E_CTX;
      }
      var dspreq := k.InitWaitQueue(SDtqQ(i));
      var dspreq2 := k.InitWaitQueue(RDtqQ(i));
      b.Reset();
      k.Settle(dspreq || dspreq2);
      ercd := E_OK;
    }
  }
}
