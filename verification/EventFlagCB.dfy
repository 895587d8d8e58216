/** Event flags on their control blocks (kernel/eventflag.c). */
module EventFlagCB {
  import opened Types
  import opened Seqs
  import opened TaskQueues
  import opened Links
  import opened Core
  import opened CoreProofs
  import T = TaskCalls
  import opened WaitQueues
  import F = EventFlag
  import opened TaskScheduler
  import opened TimeEventHeap
  import K = KernelState

  /** What is left of a scan, from a link of the wait queue on. */
  ghost predicate Scanning(g: Config, c0: Core, f0: F.Flg, q0: seq<Tid>, c: Core, f: F.Flg, s: seq<Tid>, dspreq: bool) {
    && TasksIn(c0, q0) && F.FlagWaiters(c, s) && Good(g, c)
    && var (c', f', req) := F.Scan(g, c, f, s); F.Scan(g, c0, f0, q0) == (c', f', dspreq || req)
  }

  /** A step past a waiter whose condition does not hold. */
  lemma SkipOne(g: Config, c0: Core, f0: F.Flg, q0: seq<Tid>, c: Core, f: F.Flg, s: seq<Tid>, dspreq: bool)
    requires Scanning(g, c0, f0, q0, c, f, s, dspreq) && s != [] && !F.CondOf(f.ptn, DataOf(c, s[0]))
    ensures Scanning(g, c0, f0, q0, c, f, s[1..], dspreq)
  {
  }

  /** A waiter whose condition holds is released; under TA_CLR that ends the scan. */
  lemma TakeOne(g: Config, c0: Core, f0: F.Flg, q0: seq<Tid>, c: Core, f: F.Flg, s: seq<Tid>, dspreq: bool)
    requires Scanning(g, c0, f0, q0, c, f, s, dspreq) && s != [] && F.CondOf(f.ptn, DataOf(c, s[0]))
    ensures s[0] < |c.ts.tcb|
    ensures var c1 := Wake(g, c, s[0], E_OK, F.Handed(DataOf(c, s[0]), f.ptn));
            if f.clr then F.Scan(g, c0, f0, q0) == (c1, F.AfterMatch(f), dspreq || Req(c, c1)) && Good(g, c1)
            else Scanning(g, c0, f0, q0, c1, f, s[1..], dspreq || Req(c, c1))
  {
    WakeGood(g, c, s[0], E_OK, F.Handed(DataOf(c, s[0]), f.ptn));
  }

  /** Taking the task at position j from a queue moves the rest up by one. */
  lemma QueueWithout(g: Config, c: Core, wq: WQ, j: nat, d: WData)
    requires Linked(c.ts) && j < |WaitQ(c, wq)|
    ensures On(c.ts.q, Wait(wq), WaitQ(c, wq)[j]) && WaitQ(c, wq)[j] < |c.ts.tcb|
    ensures var q' := WaitQ(Wake(g, c, WaitQ(c, wq)[j], E_OK, d), wq);
            q' == WaitQ(c, wq)[..j] + WaitQ(c, wq)[j + 1..] && q'[j..] == WaitQ(c, wq)[j..][1..]
  {
    WaitersAreWaiting(c, wq);
    var q := WaitQ(c, wq);
    assert q[j] in q;
    RemoveAt(q, j);
  }

  /** At the end of the queue the scan is over. */
  lemma ScanEnds(g: Config, c0: Core, f0: F.Flg, q0: seq<Tid>, c: Core, f: F.Flg, dspreq: bool)
    requires Scanning(g, c0, f0, q0, c, f, [], dspreq)
    ensures F.Scan(g, c0, f0, q0) == (c, f, dspreq)
  {
  }

  lemma ScanStarts(g: Config, c: Core, f: F.Flg, i: nat)
    requires Good(g, c) && F.FlagWaiters(c, WaitQ(c, FlgQ(i)))
    ensures Scanning(g, c, f, WaitQ(c, FlgQ(i)), c, f, WaitQ(c, FlgQ(i))[0..], false)
  {
    assert WaitQ(c, FlgQ(i))[0..] == WaitQ(c, FlgQ(i));
  }

  /** What a round of the scan finds. */
  lemma ScannedTask(g: Config, c0: Core, f0: F.Flg, q0: seq<Tid>, c: Core, f: F.Flg, s: seq<Tid>, dspreq: bool)
    requires Scanning(g, c0, f0, q0, c, f, s, dspreq)
    ensures Linked(c.ts) && TaskTimers(c.ts.tcb, c.tm)
    ensures s != [] ==> s[0] < |c.ts.tcb| && c.ts.tcb[s[0]].wdata.FlgData?
  {
  }

  class FLGCB {
    const i: nat
    const iflgptn: bv32
    const clr: bool
    const wmul: bool
    var flgptn: bv32

    ghost function View(): F.Flg
      reads this
    {
      F.Flg(flgptn, iflgptn, clr, wmul)
    }

    constructor (i: nat, iflgptn: bv32, clr: bool, wmul: bool)
      ensures this.i == i && View() == F.Flg(iflgptn, iflgptn, clr, wmul)
    {
      this.i, this.iflgptn, this.clr, this.wmul := i, iflgptn, clr, wmul;
      flgptn := iflgptn;
    }

    /** check_flg_cond. */
    method CheckFlgCond(waiptn: bv32, orw: bool) returns (r: bool, ptn: bv32)
      modifies this
      ensures r == F.Cond(old(flgptn), waiptn, orw) && (r ==> ptn == old(flgptn))
      ensures View() == if r then F.AfterMatch(old(View())) else old(View())
      ensures !clr ==> View() == old(View())
    {
      if if orw then flgptn & waiptn != 0 else flgptn & waiptn == waiptn {
        ptn := flgptn;
        if clr {
          flgptn := 0;
        }
        return true, ptn;
      }
      r, ptn := false, 0;
    }

    /** A waiter of the scan whose link is cell j of the queue. */
    method NextOf(k: K.Kernel, p: Link, ghost j: nat) returns (t: Tid, next: Link)
      requires k.Valid() && Linked(k.View().ts) && j < |WaitQ(k.View(), FlgQ(i))|
      requires p == Cell(Wait(FlgQ(i)), WaitQ(k.View(), FlgQ(i)), j)
      ensures t == WaitQ(k.View(), FlgQ(i))[j] < |k.s.tcb|
      ensures next == Cell(Wait(FlgQ(i)), WaitQ(k.View(), FlgQ(i)), j + 1)
    {
      hide Scheduler.CacheOk, Heap.Valid, K.Kernel.BlocksOk, K.Kernel.CycOk;
      K.QueuedWaits(k.View(), FlgQ(i), WaitQ(k.View(), FlgQ(i))[j]);
      k.s.links.NextCell(Wait(FlgQ(i)), j);
      t := p.t;
      next := k.s.links.p_next[p];
    }

    method FirstLink(k: K.Kernel) returns (p: Link)
      requires k.Valid() && FlgQ(i) in k.wqs
      ensures p == Cell(Wait(FlgQ(i)), WaitQ(k.View(), FlgQ(i)), 0)
    {
      hide Scheduler.CacheOk, Heap.Valid, K.Kernel.BlocksOk, K.Kernel.CycOk, ReadyByPriority;
      assert k.s.HasHead(Wait(FlgQ(i)));
      p := k.s.links.p_next[Head(Wait(FlgQ(i)))];
    }

    method Raise(setptn: bv32)
      modifies this
      ensures View() == F.Raised(old(View()), setptn)
    {
      hide F.Or;
      flgptn := F.Or(flgptn, setptn);
    }

    /** set_flg and iset_flg. */
    method SetFlg(k: K.Kernel, setptn: bv32) returns (ercd: ER)
      requires k.Valid() && Inv(k.g, k.View()) && FlgQ(i) in k.wqs && F.FlgInv(k.View(), View(), i)
      modifies this, k.s, k.s.links, k.h, k.h.tmevt_heap
      ensures k.Valid() && QueueOk(old(k.View()), FlgQ(i))
      ensures (k.View(), View(), ercd) == F.SetFlg(k.g, old(k.View()), old(View()), i, setptn)
    {
      hide K.Kernel.Valid, Linked, Sorted, TimeInv, TimersInv, F.FlgInv, F.FlagWaiters, F.Scan, F.Raised;
      F.WaitersAreFlagWaiters(k.View(), View(), i);
      if !(k.nest > 0 || k.s.p_runtsk.Some?) {
        return E_CTX;
      }
      Raise(setptn);
      var dspreq := Scan(k);
      k.Settle(dspreq);
      ercd := E_OK;
    }

    /** One waiter of the scan: it is released if its condition holds. */
    method Try(k: K.Kernel, t: Tid) returns (r: bool, req: bool)
      requires k.Valid() && Linked(k.View().ts) && TaskTimers(k.View().ts.tcb, k.View().tm)
      requires On(k.View().ts.q, Wait(FlgQ(i)), t) && t < |k.s.tcb| && k.s.tcb[t].wdata.FlgData?
      modifies this, k.s`tcb, k.s`ready_primap, k.s`p_schedtsk, k.s.links, k.h, k.h.tmevt_heap
      ensures k.Valid() && r == F.CondOf(old(flgptn), DataOf(old(k.View()), t))
      ensures r ==> k.View() == Wake(k.g, old(k.View()), t, E_OK, F.Handed(DataOf(old(k.View()), t), old(flgptn)))
      ensures r ==> View() == F.AfterMatch(old(View())) && (req <==> Req(old(k.View()), k.View()))
      ensures !r ==> k.View() == old(k.View())
      ensures !r || !clr ==> View() == old(View())
    {
      hide K.Kernel.Valid, Wake, Linked, TaskTimers, F.Cond, F.AfterMatch, On, Top;
      var d := k.s.tcb[t].wdata;
      var ptn;
      r, ptn := CheckFlgCond(d.waiptn, d.orw);
      req := false;
      if r {
        req := k.WakeWaiter(FlgQ(i), t, d.(flgptn := ptn));
      }
    }

    /** The loop of set_flg: one pass over the queue, which unlinks tasks while it walks. */
    method Scan(k: K.Kernel) returns (dspreq: bool)
      requires k.Valid() && Good(k.g, k.View()) && FlgQ(i) in k.wqs && F.FlagWaiters(k.View(), WaitQ(k.View(), FlgQ(i)))
      modifies this, k.s`tcb, k.s`ready_primap, k.s`p_schedtsk, k.s.links, k.h, k.h.tmevt_heap
      ensures k.Valid()
      ensures (k.View(), View(), dspreq) == F.Scan(k.g, old(k.View()), old(View()), WaitQ(old(k.View()), FlgQ(i)))
    {
      hide K.Kernel.Valid, Good, F.Scan, Wake, Scanning, Linked, TaskTimers, F.FlagWaiters, F.Cond, F.AfterMatch;
      ghost var c0, f0, q0 := k.View(), View(), WaitQ(k.View(), FlgQ(i));
      dspreq := false;
      ghost var j := 0;
      ScanStarts(k.g, c0, f0, i);
      var p := FirstLink(k);
      while p != Head(Wait(FlgQ(i)))
        invariant k.Valid() && j <= |WaitQ(k.View(), FlgQ(i))| && p == Cell(Wait(FlgQ(i)), WaitQ(k.View(), FlgQ(i)), j)
        invariant Scanning(k.g, c0, f0, q0, k.View(), View(), WaitQ(k.View(), FlgQ(i))[j..], dspreq)
        decreases |WaitQ(k.View(), FlgQ(i))| - j
      {
        ghost var c, f, q := k.View(), View(), WaitQ(k.View(), FlgQ(i));
        ScannedTask(k.g, c0, f0, q0, c, f, q[j..], dspreq);
        assert q[j..][0] == q[j] && q[j..][1..] == q[j + 1..];
        var t;
        t, p := NextOf(k, p, j);
        ghost var d := F.Handed(k.s.tcb[t].wdata, f.ptn);
        QueueWithout(k.g, c, FlgQ(i), j, d);
        var r, req := Try(k, t);
        if r {
          TakeOne(k.g, c0, f0, q0, c, f, q[j..], dspreq);
          if req {
            dspreq := true;
          }
          if clr {
            return;
          }
        } else {
          SkipOne(k.g, c0, f0, q0, c, f, q[j..], dspreq);
          j := j + 1;
        }
      }
      assert WaitQ(k.View(), FlgQ(i))[j..] == [];
      ScanEnds(k.g, c0, f0, q0, k.View(), View(), dspreq);
    }

    /** clr_flg. */
    method ClrFlg(k: K.Kernel, clrptn: bv32) returns (ercd: ER)
      modifies this
      ensures (k.View(), View(), ercd) == F.ClrFlg(old(k.View()), old(View()), clrptn)
    {
      if !(k.nest == 0 && k.s.p_runtsk.Some?) {
        return E_CTX;
      }
      flgptn := flgptn & clrptn;
      ercd := E_OK;
    }

    /** wai_flg, pol_flg and twai_flg. */
    method WaiFlg(k: K.Kernel, waiptn: bv32, orw: bool, p: Patience) returns (ercd: ER, ptn: bv32)
      requires k.Valid() && Inv(k.g, k.View()) && FlgQ(i) in k.wqs && T.TmoType(p)
      modifies this, k.s, k.s.links, k.h, k.h.tmevt_heap
      ensures k.Valid() && T.RunsTask(old(k.View()))
      ensures (k.View(), View(), ercd, ptn) == F.WaiFlg(k.g, old(k.View()), old(View()), i, waiptn, orw, p)
    {
      hide K.Kernel.Valid, Good, Block, F.Cond, F.AfterMatch;
      if !(k.nest == 0 && k.s.p_runtsk.Some? && (p.Tmo? ==> k.s.dspflg)) {
        return E_CTX, 0;
      }
      if waiptn == 0 || !T.TmoOk(p) {
        return E_PAR, 0;
      }
      var empty := k.QueueEmpty(FlgQ(i));
      if !wmul && !empty {
        return E_ILUSE, 0;
      }
      var r;
      r, ptn := CheckFlgCond(waiptn, orw);
      if r {
        return E_OK, ptn;
      } else if p.Polling? || p.tmo == TMO_POL {
        return E_TMOUT, 0;
      }
      k.Sleep(Obj(FlgQ(i)), FlgData(waiptn, orw, 0), T.TimerOf(p));
      ercd, ptn := BLOCKED, 0;
    }

    /** ini_flg. */
    method IniFlg(k: K.Kernel) returns (ercd: ER)
      requires k.Valid() && Inv(k.g, k.View()) && FlgQ(i) in k.wqs
      modifies this, k.s, k.s.links, k.h, k.h.tmevt_heap
      ensures k.Valid() && QueueOk(old(k.View()), FlgQ(i))
      ensures (k.View(), View(), ercd) == F.IniFlg(k.g, old(k.View()), old(View()), i)
    {
      hide K.Kernel.Valid, Good;
      K.GoodQueue(k.g, k.View(), FlgQ(i));
      if !(k.nest == 0 && k.s.p_runtsk.Some?) {
        return E_CTX;
      }
      var dspreq := k.InitWaitQueue(FlgQ(i));
      flgptn := iflgptn;
      k.Settle(dspreq);
      ercd := E_OK;
    }
  }
}
