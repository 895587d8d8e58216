/** Cyclic and alarm handlers on the variables of the kernel (kernel/cyclic.c, kernel/alarm.c). */
module Handlers {
  import opened Types
  import opened SystemClock
  import opened TaskQueues
  import opened HeapNodes
  import opened TaskScheduler
  import opened TimeEventHeap
  import opened Core
  import opened CoreProofs
  import T = TaskCalls
  import C = TimeCalls
  import opened KernelState

  lemma Blocks(g: Config, c: Core)
    requires TimersInv(g, c)
    ensures forall i: nat :: i < |g.cyc| ==> CycBlk(i) in AllBlks(g) && (CycBlk(i) in c.tm <==> c.cyc[i].sta)
    ensures forall i: nat :: i < g.nalm ==> AlmBlk(i) in AllBlks(g) && (AlmBlk(i) in c.tm <==> c.alm[i])
  {
  }

  /** tmevtb_enqueue_cyc, with the history of the handler. */
  method EnqueueCyc(k: Kernel, i: nat, evttim: nat, ghost time: int, ghost t0: int, ghost runs: nat)
    requires k.Valid() && i < |k.cyc| && CycBlk(i) in AllBlks(k.g) && CycBlk(i) !in k.h.ev
    requires evttim == Low(time) && k.h.clk.min <= time < k.h.clk.min + EVTTIM_MOD
    modifies k`cyccb, k`cyc, k.h, k.h.tmevt_heap
    ensures k.Valid() && k.View() == C.EnqueueCyc(old(k.View()), i, time, t0, runs)
  {
    hide Scheduler.Valid, Heap.Valid;
    k.h.Insert(CycBlk(i), evttim, CallCychdr(i), Ev(time, CallCychdr(i), k.h.clk.ticks, 0));
    k.cyccb := k.cyccb[i := CYCCB(true, evttim)];
    k.cyc := k.cyc[i := Cyc(true, time, t0, runs)];
  }

  /** tmevtb_dequeue. */
  method Dequeue(k: Kernel, b: Blk)
    requires k.Valid() && b in k.h.ev
    modifies k.h, k.h.tmevt_heap
    ensures k.Valid() && k.View() == old(k.View()).(tm := old(k.View()).tm - {b})
  {
    hide Scheduler.Valid, Heap.Valid, Kernel.BlocksOk, Kernel.CycOk;
    k.h.Delete(b);
  }

  /** base_time, in 32 bits. */
  method BaseTime(k: Kernel) returns (base_time: nat)
    requires k.Valid()
    ensures base_time == Low(Base(k.h.clk))
  {
    hide Scheduler.Valid, Kernel.BlocksOk, Kernel.CycOk, Heap.Holds, Fits;
    LowAdd(k.h.clk.nxt, if k.h.next_subtime > 0 then 1 else 0);
    base_time := (k.h.next_time + if k.h.next_subtime > 0 then 1 else 0) % EVTTIM_MOD;
  }

  method IsStarted(k: Kernel, i: nat) returns (sta: bool)
    requires k.Valid() && i < |k.cyc|
    ensures i < |k.cyccb| && sta == k.cyc[i].sta && k.cyccb[i].evttim == Low(k.cyc[i].evttim)
  {
    hide Scheduler.Valid, Heap.Valid, Kernel.BlocksOk;
    sta := k.cyccb[i].cycsta;
  }

  /** sta_cyc. */
  method StaCyc(k: Kernel, i: nat) returns (ercd: ER)
    requires k.Valid() && Inv(k.g, k.View()) && C.IsCyc(k.g, k.View(), i)
    modifies k`cyccb, k`cyc, k.h, k.h.tmevt_heap
    ensures k.Valid() && (k.View(), ercd) == C.StaCyc(k.g, old(k.View()), i)
  {
    hide Kernel.Valid, Linked, Sorted, TimersInv, ClockInv;
    if !(k.nest == 0 && k.s.p_runtsk.Some?) {
      return E_CTX;
    }
    Blocks(k.g, k.View());
    ghost var c := k.View();
    var sta := IsStarted(k, i);
    if sta {
      Dequeue(k, CycBlk(i));
    } else {
      assert c.tm - {CycBlk(i)} == c.tm;
    }
    var base_time := BaseTime(k);
    ghost var time := Base(c.clk) + k.g.cyc[i].cycphs;
    RelTimeInRange(k.g, c.clk, c.drain.Some?, k.g.cyc[i].cycphs);
    LowAdd(Base(c.clk), k.g.cyc[i].cycphs);
    EnqueueCyc(k, i, (base_time + k.g.cyc[i].cycphs) % EVTTIM_MOD, time, time, 0);
    ercd := E_OK;
  }

  /** stp_cyc. */
  method StpCyc(k: Kernel, i: nat) returns (ercd: ER)
    requires k.Valid() && Inv(k.g, k.View()) && C.IsCyc(k.g, k.View(), i)
    modifies k`cyccb, k`cyc, k.h, k.h.tmevt_heap
    ensures k.Valid() && (k.View(), ercd) == C.StpCyc(k.g, old(k.View()), i)
  {
    hide Kernel.Valid, Linked, Sorted, TimersInv, ClockInv;
    if !(k.nest == 0 && k.s.p_runtsk.Some?) {
      return E_CTX;
    }
    Blocks(k.g, k.View());
    ghost var c := k.View();
    var sta := IsStarted(k, i);
    if sta {
      SetStopped(k, i);
      Dequeue(k, CycBlk(i));
    } else {
      assert c.tm - {CycBlk(i)} == c.tm && c.cyc[i := c.cyc[i].(sta := false)] == c.cyc;
    }
    ercd := E_OK;
  }

  method SetStopped(k: Kernel, i: nat)
    requires k.Valid() && i < |k.cyc|
    modifies k`cyccb, k`cyc
    ensures k.Valid() && k.View() == old(k.View()).(cyc := old(k.cyc)[i := old(k.cyc)[i].(sta := false)])
  {
    hide Scheduler.Valid, Heap.Valid, Kernel.BlocksOk;
    k.cyccb := k.cyccb[i := k.cyccb[i].(cycsta := false)];
    k.cyc := k.cyc[i := k.cyc[i].(sta := false)];
  }

  method SetAlm(k: Kernel, i: nat, sta: bool)
    requires k.Valid() && i < |k.almsta|
    modifies k`almsta
    ensures k.Valid() && k.View() == old(k.View()).(alm := old(k.View()).alm[i := sta])
  {
    hide Scheduler.Valid, Heap.Valid, Kernel.BlocksOk;
    k.almsta := k.almsta[i := sta];
  }

  /** sta_alm and ista_alm. */
  method StaAlm(k: Kernel, i: nat, almtim: nat) returns (ercd: ER)
    requires k.Valid() && Inv(k.g, k.View()) && i < |k.almsta|
    modifies k`almsta, k.h, k.h.tmevt_heap
    ensures k.Valid() && (k.View(), ercd) == C.StaAlm(old(k.View()), i, almtim)
  {
    hide Kernel.Valid, Linked, Sorted, TimersInv, ClockInv;
    if !(k.nest > 0 || k.s.p_runtsk.Some?) {
      return E_CTX;
    }
    if almtim > TMAX_RELTIM {
      return E_PAR;
    }
    AlarmBlock(k.g, k.View(), i);
    ghost var c := k.View();
    if k.almsta[i] {
      Dequeue(k, AlmBlk(i));
      assert c.alm[i := true] == c.alm;
    } else {
      SetAlm(k, i, true);
      assert c.tm - {AlmBlk(i)} == c.tm;
    }
    k.TmevtbEnqueue(AlmBlk(i), almtim, CallAlmhdr(i));
    ghost var e := RelEvent(c.clk, CallAlmhdr(i), almtim);
    assert (c.tm - {AlmBlk(i)})[AlmBlk(i) := e] == c.tm[AlmBlk(i) := e];
    ercd := E_OK;
  }

  lemma AlarmBlock(g: Config, c: Core, i: nat)
    requires TimersInv(g, c) && i < |c.alm|
    ensures AlmBlk(i) in AllBlks(g) && (AlmBlk(i) in c.tm <==> c.alm[i])
  {
    Blocks(g, c);
  }

  /** stp_alm and istp_alm. */
  method StpAlm(k: Kernel, i: nat) returns (ercd: ER)
    requires k.Valid() && Inv(k.g, k.View()) && i < |k.almsta|
    modifies k`almsta, k.h, k.h.tmevt_heap
    ensures k.Valid() && (k.View(), ercd) == C.StpAlm(old(k.View()), i)
  {
    hide Kernel.Valid, Linked, Sorted, TimersInv, ClockInv;
    if !(k.nest > 0 || k.s.p_runtsk.Some?) {
      return E_CTX;
    }
    AlarmBlock(k.g, k.View(), i);
    ghost var c := k.View();
    if k.almsta[i] {
      SetAlm(k, i, false);
      Dequeue(k, AlmBlk(i));
    } else {
      assert c.tm - {AlmBlk(i)} == c.tm && c.alm[i := false] == c.alm;
    }
    ercd := E_OK;
  }
}
