/**
  The locked stretches of signal_time on the variables of the kernel: its beginning, one callback of its
  loop, its end.  WholeTick puts them together.
 */
module SignalTime {
  import opened Types
  import opened SystemClock
  import opened TaskQueues
  import opened HeapNodes
  import opened TaskScheduler
  import opened TimeEventHeap
  import opened Core
  import opened CoreProofs
  import T = TaskCalls
  import opened TaskCallProofs
  import opened TimeCalls
  import C = TimeCalls
  import opened TimeCallProofs
  import opened DrainProofs
  import opened System
  import opened KernelState
  import TaskManage
  import TaskSync
  import SysManage
  import Handlers

  /** A call names existing tasks and handlers. */
  predicate ArgsOk(g: Config, op: TaskOp) {
    match op
    case Slp_(p) => p.Tmo? && T.TmoType(p)
    case Ext => true case Dly_(_) => true case Rot(_) => true case Dis => true case Ena => true case Ipm(_) => true
    case StartCyc(i) => i < |g.cyc|
    case StopCyc(i) => i < |g.cyc|
    case StartAlm(i, _) => i < g.nalm
    case StopAlm(i) => i < g.nalm
    case _ => op.t < |g.ipri|
  }

  lemma ArgsExist(g: Config, c: Core, op: TaskOp)
    requires Inv(g, c) && ArgsOk(g, op)
    ensures TaskArgs(g, c, op)
  {
  }

  /** Any service call: the routines of the kernel refine the transitions. */
  method Perform(k: Kernel, op: TaskOp)
    requires k.Valid() && Inv(k.g, k.View()) && ArgsOk(k.g, op)
    modifies k, k.s, k.s.links, k.h, k.h.tmevt_heap
    ensures k.Valid() && TaskArgs(k.g, old(k.View()), op) && k.View() == TaskStep(k.g, old(k.View()), op)
  {
    hide Kernel.Valid, Good;
    ArgsExist(k.g, k.View(), op);
    match op {
      case Act(t) => var _ := TaskManage.ActTsk(k, t);
      case CanAct_(t) => var _, _ := TaskManage.CanAct(k, t);
      case Ext => var _ := TaskManage.ExtTsk(k);
      case Ter(t) => var _ := TaskManage.TerTsk(k, t);
      case Chg(t, pri) => var _ := TaskManage.ChgPri(k, t, pri);
      case Slp_(p) => var _ := TaskSync.SlpTsk(k, p);
      case Wup(t) => var _ := TaskSync.WupTsk(k, t);
      case CanWup_(t) => var _, _ := TaskSync.CanWup(k, t);
      case Rel(t) => var _ := TaskSync.RelWai(k, t);
      case Sus(t) => var _ := TaskSync.SusTsk(k, t);
      case Rsm(t) => var _ := TaskSync.RsmTsk(k, t);
      case Dly_(d) => var _ := TaskSync.DlyTsk(k, d);
      case Rot(pri) => var _ := SysManage.RotRdq(k, pri);
      case Dis => var _ := SysManage.DisDsp(k);
      case Ena => var _ := SysManage.EnaDsp(k);
      case Ipm(e) => var _ := SysManage.ChgIpm(k, e);
      case StartCyc(i) => var _ := Handlers.StaCyc(k, i);
      case StopCyc(i) => var _ := Handlers.StpCyc(k, i);
      case StartAlm(i, time) => var _ := Handlers.StaAlm(k, i, time);
      case StopAlm(i) => var _ := Handlers.StpAlm(k, i);
    }
  }

  /** Takes the block at the root from the heap; the log of the tick grows by it. */
  method TakeTop(k: Kernel) returns (ghost b: Blk, cb: Callback)
    requires k.Valid() && k.h.last_index > 0
    modifies k`fired, k.h, k.h.tmevt_heap
    ensures k.Valid() && b in old(k.h.ev) && cb == old(k.h.ev)[b].cb
    ensures forall x :: x in old(k.h.ev) ==> old(k.h.ev)[b].time <= old(k.h.ev)[x].time
    ensures var c := old(k.View()); k.View() == c.(tm := c.tm - {b}, fired := c.fired + [Fired(b, c.tm[b].time)])
  {
    hide Scheduler.Valid, Heap.Valid, Kernel.BlocksOk, Kernel.CycOk;
    var top;
    top, cb := k.h.TopBlock();
    b := top;
    k.fired := k.fired + [Fired(b, k.h.ev[b].time)];
    k.h.DeleteTop(b);
  }

  /** call_cychdr up to the call of the handler. */
  method CallCyc(k: Kernel, i: nat)
    requires k.Valid() && C.IsCyc(k.g, k.View(), i) && CycBlk(i) in AllBlks(k.g) && CycBlk(i) !in k.h.ev
    requires k.h.clk.min <= k.cyc[i].evttim + k.g.cyc[i].cyctim < k.h.clk.min + EVTTIM_MOD
    modifies k`cyccb, k`cyc, k.h, k.h.tmevt_heap
    ensures k.Valid() && k.View() == C.Call(k.g, old(k.View()), CallCychdr(i))
  {
    hide Kernel.Valid;
    var _ := Handlers.IsStarted(k, i);
    ghost var y := k.cyc[i];
    LowAdd(y.evttim, k.g.cyc[i].cyctim);
    Handlers.EnqueueCyc(k, i, (k.cyccb[i].evttim + k.g.cyc[i].cyctim) % EVTTIM_MOD, y.evttim + k.g.cyc[i].cyctim, y.t0,
      y.runs + 1);
  }

  /** What the callback of a due event finds. */
  lemma Callee(g: Config, c: Core, b: Blk)
    requires Inv(g, c) && MayFire(c, b)
    ensures CallbackArgOk(g, c, c.tm[b].cb)
    ensures match c.tm[b].cb
            case WaitTmout(t) => b == TaskBlk(t) && c.ts.tcb[t].tstat.Waiting?
            case WaitTmoutOk(t) => b == TaskBlk(t) && c.ts.tcb[t].tstat.Waiting? && c.ts.tcb[t].tstat.why.Dly?
            case CallCychdr(i) =>
              && b == CycBlk(i) && CycBlk(i) in AllBlks(g)
              && c.clk.min <= c.cyc[i].evttim + g.cyc[i].cyctim < c.clk.min + EVTTIM_MOD
            case CallAlmhdr(i) => b == AlmBlk(i)
  {
    CallbackArg(g, c, b);
    ClockBounds(g, c.clk, true);
    assert EvOk(g, c.clk, b, c.tm[b]);
  }

  /** tmevtb_delete_top and the callback, up to where it unlocks the CPU. */
  method CallBack(k: Kernel) returns (ghost b: Blk)
    requires k.Valid() && Inv(k.g, k.View()) && k.drain == Some(k.nest) && k.h.last_index > 0
             && exists x :: IsDue(k.View(), x)
    modifies k`fired, k`cyc, k`cyccb, k`almsta, k.s, k.s.links, k.h, k.h.tmevt_heap
    ensures k.Valid() && MayFire(old(k.View()), b) && CallbackArgOk(k.g, old(k.View()), old(k.View()).tm[b].cb)
    ensures k.View() == Fire(k.g, old(k.View()), b)
  {
    hide Kernel.Valid, Linked, Sorted, ClockInv, Top, Wake, TaskTimers, EvTimes, CycTimers, FiredInOrder;
    ghost var c := k.View();
    var cb;
    b, cb := TakeTop(k);
    Callee(k.g, c, b);
    match cb {
      case WaitTmout(t) => k.WaitTmout(t);
      case WaitTmoutOk(t) => k.WaitTmoutOk(t);
      case CallCychdr(i) => CallCyc(k, i);
      case CallAlmhdr(i) => Handlers.SetAlm(k, i, false);
    }
  }

  /** tmevt_lefttim: exact, for every registered event. */
  method TmevtLefttim(k: Kernel, b: Blk) returns (left: nat)
    requires k.Valid() && Inv(k.g, k.View()) && b in k.h.ev
    ensures left == LeftTim(k.View(), b)
  {
    hide Scheduler.Valid, Heap.Valid, Kernel.BlocksOk, Kernel.CycOk, Inv, Low;
    LeftInRange(k.g, k.View(), b);
    left := k.h.LeftTim(b);
  }

  lemma LeftInRange(g: Config, c: Core, b: Blk)
    requires Inv(g, c) && b in c.tm
    ensures c.clk.min <= Base(c.clk) < c.clk.min + EVTTIM_MOD
    ensures c.tm[b].time > c.clk.nxt ==> Low(c.tm[b].time - Base(c.clk)) == c.tm[b].time - Base(c.clk)
  {
    hide Linked, Sorted, TimersInv;
    RelTimeInRange(g, c.clk, c.drain.Some?, 0);
    LeftTimExact(g, c, b);
  }

  lemma NextInRange(g: Config, c: Core)
    requires Inv(g, c) && c.drain.None?
    ensures Advance(g, c.clk).nxt < c.clk.min + EVTTIM_MOD
  {
    AdvanceInv(g, c.clk);
    ClockBounds(g, Advance(g, c.clk), true);
  }

  /** The first half of signal_time. */
  method BeginTick(k: Kernel)
    requires k.Valid() && Inv(k.g, k.View()) && MayTick(k.View())
    modifies k`drain, k`fired, k.h
    ensures k.Valid() && k.View() == TickBegin(k.g, old(k.View()))
  {
    hide Scheduler.Valid, Heap.Valid, Kernel.CycOk, Linked, Sorted, TimersInv;
    NextInRange(k.g, k.View());
    k.h.Tick(k.g);
    k.drain, k.fired := Some(k.nest), [];
  }

  lemma AllAhead(g: Config, c: Core)
    requires Inv(g, c) && MayEnd(c)
    ensures forall b :: b in c.tm ==> c.clk.cur < c.tm[b].time < c.clk.cur + EVTTIM_MOD
  {
    ClockBounds(g, c.clk, true);
    forall b | b in c.tm ensures c.tm[b].time < c.clk.cur + EVTTIM_MOD { assert EvOk(g, c.clk, b, c.tm[b]); }
  }

  /** The last lines of signal_time. */
  method FinishTick(k: Kernel)
    requires k.Valid() && Inv(k.g, k.View()) && MayEnd(k.View())
    modifies k`drain, k.h
    ensures k.Valid() && k.View() == TickEnd(old(k.View()))
  {
    hide Scheduler.Valid, Heap.Valid, Kernel.CycOk, Linked, Sorted, TimersInv;
    AllAhead(k.g, k.View());
    k.h.EndTick();
    k.drain := None;
  }

  method IsDueNow(k: Kernel) returns (due: bool)
    requires k.Valid() && Inv(k.g, k.View()) && k.drain == Some(k.nest)
    ensures due <==> exists x :: IsDue(k.View(), x)
    ensures if due then k.h.last_index > 0 else MayEnd(k.View())
  {
    hide Scheduler.Valid, Heap.Valid, Kernel.CycOk, Linked, Sorted, TimersInv;
    due := k.h.TopIsDue();
    if due {
      ghost var x :| x in k.h.ev && k.h.ev[x].time <= k.h.clk.cur;
      assert IsDue(k.View(), x);
    } else {
      forall x | x in k.h.ev ensures k.h.ev[x].time > k.h.clk.cur {}
    }
  }
}
