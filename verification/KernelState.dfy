/**
  The variables of the kernel in their own form -- pointers, bitmap, cache, heap, 32-bit times -- and
  the routines of task.c, wait.c and wait.h that every service call is built from.  View() is the
  state they stand for; every routine is proved to change it as the transitions of Core say.
 */
module KernelState {
  import opened Types
  import opened Seqs
  import opened TaskQueues
  import opened SystemClock
  import opened HeapNodes
  import opened TimeEventHeap
  import opened ReadyBitmap
  import opened TaskScheduler
  import opened Core
  import opened CoreProofs
  import opened TaskCalls
  import opened WaitQueues
  import opened DrainProofs

  /** Task t, whose link is in no queue, goes to the queue that its control block calls for. */
  function Enter(g: Config, c: Core, t: Tid): Core
    requires t < |c.ts.tcb|
  {
    c.(ts := Place(g, c.ts, t, c.ts.tcb[t]))
  }

  /** Task t leaves the queue it is in. */
  function Leave(c: Core, t: Tid): Core
    requires t < |c.ts.tcb|
  {
    c.(ts := c.ts.(q := Unlink(c.ts, t)))
  }

  /** The link of t is in no queue. */
  ghost predicate Loose(q: map<QId, seq<Tid>>, t: Tid) { forall h :: !On(q, h, t) }

  /** Every move of a task is: out of its queue, new control block, into its new queue. */
  lemma MoveInSteps(g: Config, c: Core, t: Tid, b: TCB)
    requires t < |c.ts.tcb|
    ensures SetTask(g, c, t, b) == Enter(g, Mark(Leave(c, t), t, b), t)
  {
    assert c.ts.tcb[t := b][t := b] == c.ts.tcb[t := b];
  }

  lemma LeaveLoose(c: Core, t: Tid)
    requires Linked(c.ts) && t < |c.ts.tcb|
    ensures Loose(Leave(c, t).ts.q, t)
  {
    UnlinkLinks(c.ts, t);
  }

  lemma HomelessLoose(c: Core, t: Tid)
    requires Linked(c.ts) && t < |c.ts.tcb| && Home(c.ts.tcb[t]).None?
    ensures Leave(c, t) == c && Loose(c.ts.q, t) && c.ts.tcb[t].priority < TNUM_TPRI
  {
    LeaveLoose(c, t);
  }

  lemma AtHome(c: Core, t: Tid)
    requires Linked(c.ts) && t < |c.ts.tcb| && Home(c.ts.tcb[t]).Some?
    ensures On(c.ts.q, Home(c.ts.tcb[t]).value, t) && c.ts.tcb[t].priority < TNUM_TPRI
  {
    assert Belongs(c.ts.tcb, Home(c.ts.tcb[t]).value, t);
  }

  /** A task without home stays where it is. */
  lemma EnterNowhere(g: Config, c: Core, t: Tid)
    requires t < |c.ts.tcb| && Home(c.ts.tcb[t]).None?
    ensures Enter(g, c, t) == c
  {
    assert c.ts.tcb[t := c.ts.tcb[t]] == c.ts.tcb;
  }

  /** The end of the wait of a task that has been taken from its queue. */
  function Resumed(g: Config, c: Core, t: Tid, code: ER): Core
    requires t < |c.ts.tcb|
  {
    Enter(g, Mark(c, t, Woken(c.ts.tcb[t], code, c.ts.tcb[t].wdata)), t).(tm := c.tm - {TaskBlk(t)})
  }

  /** Data handed over in the wait-information block of a task. */
  function Handed(c: Core, t: Tid, d: WData): Core
    requires t < |c.ts.tcb|
  {
    Mark(c, t, c.ts.tcb[t].(wdata := d))
  }

  lemma WakeInSteps(g: Config, c: Core, t: Tid, code: ER, d: WData)
    requires t < |c.ts.tcb|
    ensures Wake(g, c, t, code, d) == Resumed(g, Handed(Leave(c, t), t, d), t, code)
  {
    var b := c.ts.tcb[t];
    MoveInSteps(g, c, t, Woken(b, code, d));
    assert c.ts.tcb[t := b.(wdata := d)][t := Woken(b, code, d)] == c.ts.tcb[t := Woken(b, code, d)];
  }

  /** The timer of task t, as its wait-information block tells. */
  ghost predicate TimerKnown(c: Core, t: Tid) {
    t < |c.ts.tcb| && c.ts.tcb[t].winfo.Timer? && (c.ts.tcb[t].winfo.timed <==> TaskBlk(t) in c.tm)
  }

  lemma WaiterTimer(c: Core, t: Tid)
    requires TaskTimers(c.ts.tcb, c.tm) && t < |c.ts.tcb| && c.ts.tcb[t].tstat.Waiting?
    ensures TimerKnown(c, t)
  {
    assert WaitInfoOk(c.ts.tcb[t]);
    assert TaskBlk(t) in c.tm <==> TimedWait(c.ts.tcb, t);
  }

  /** A waiting task that leaves its queue. */
  lemma LeaveWaiting(c: Core, t: Tid)
    requires Linked(c.ts) && t < |c.ts.tcb| && c.ts.tcb[t].tstat.Waiting?
    ensures Loose(Leave(c, t).ts.q, t) && c.ts.tcb[t].priority < TNUM_TPRI && TopOf(Leave(c, t)) == TopOf(c)
  {
    hide Top, Loose;
    LeaveLoose(c, t);
    TopFrame(c.ts.q, Leave(c, t).ts.q);
  }

  /** Waking a task without handing it anything. */
  lemma WakeQuietly(g: Config, c: Core, t: Tid, code: ER)
    requires Linked(c.ts) && t < |c.ts.tcb| && c.ts.tcb[t].tstat.Waiting?
    ensures Wake(g, c, t, code, c.ts.tcb[t].wdata) == Resumed(g, Leave(c, t), t, code) && Loose(Leave(c, t).ts.q, t)
    ensures c.ts.tcb[t].priority < TNUM_TPRI && TopOf(Leave(c, t)) == TopOf(c)
  {
    hide Linked, Top, Loose, Unlink;
    LeaveWaiting(c, t);
    WakeInSteps(g, c, t, code, c.ts.tcb[t].wdata);
    assert c.ts.tcb[t := c.ts.tcb[t]] == c.ts.tcb;
  }

  /** The first task of a wait queue. */
  lemma FirstWaiter(c: Core, wq: WQ)
    requires Linked(c.ts) && WaitQ(c, wq) != []
    ensures var t := WaitQ(c, wq)[0];
            && t < |c.ts.tcb| && c.ts.tcb[t].priority < TNUM_TPRI && c.ts.tcb[t].tstat.Waiting?
            && c.ts.q[Wait(wq) := WaitQ(c, wq)[1..]] == Unlink(c.ts, t)
  {
    var t := WaitQ(c, wq)[0];
    assert On(c.ts.q, Wait(wq), t);
    assert Belongs(c.ts.tcb, Wait(wq), t);
    var s := WaitQ(c, wq);
    RemoveAt(s, 0);
    assert s[..0] + s[1..] == s[1..];
  }

  lemma GoodQueue(g: Config, c: Core, wq: WQ)
    requires Good(g, c)
    ensures QueueOk(c, wq)
  {
    WaitersAreWaiting(c, wq);
  }

  /** One round of init_wait_queue. */
  lemma FirstWokenGood(g: Config, c: Core, wq: WQ, code: ER)
    requires Good(g, c) && WaitQ(c, wq) != []
    ensures QueueOk(c, wq) && WaitQ(c, wq)[0] < |c.ts.tcb| && Linked(c.ts) && TaskTimers(c.ts.tcb, c.tm)
    ensures var t := WaitQ(c, wq)[0]; var c1 := Wake(g, c, t, code, c.ts.tcb[t].wdata);
            && Good(g, c1) && WaitQ(c1, wq) == WaitQ(c, wq)[1..] && QueueOk(c1, wq)
  {
    var t := WaitQ(c, wq)[0];
    WaitersAreWaiting(c, wq);
    assert t in WaitQ(c, wq);
    WakeGood(g, c, t, code, c.ts.tcb[t].wdata);
    WakeHead(g, c, wq, code, c.ts.tcb[t].wdata);
    WaitersAreWaiting(Wake(g, c, t, code, c.ts.tcb[t].wdata), wq);
  }

  /** The wait-information block gets a timer, or none. */
  function Armed(c: Core, t: Tid, timer: Option<nat>, cb: Callback): Core
    requires t < |c.ts.tcb|
  {
    Mark(c, t, c.ts.tcb[t].(winfo := Timer(timer.Some?)))
      .(tm := if timer.Some? then c.tm[TaskBlk(t) := RelEvent(c.clk, cb, timer.value)] else c.tm)
  }

  lemma NotReadyTask(c: Core, t: Tid)
    requires Linked(c.ts) && t < |c.ts.tcb| && !c.ts.tcb[t].tstat.Runnable?
    ensures forall p: nat :: p < TNUM_TPRI ==> !On(c.ts.q, Ready(p), t)
  {
    forall p: nat | p < TNUM_TPRI ensures !On(c.ts.q, Ready(p), t) {
      assert On(c.ts.q, Ready(p), t) <==> Belongs(c.ts.tcb, Ready(p), t);
    }
  }

  lemma RequeuedTasks(c: Core, wq: WQ, t: Tid)
    requires Linked(c.ts)
    ensures forall u: Tid :: u in Remove(WaitQ(c, wq), t) ==> u < |c.ts.tcb|
  {
    WaitersAreWaiting(c, wq);
    RemoveMembers(WaitQ(c, wq), t);
  }

  lemma MarkedLinked(g: Config, c: Core, t: Tid)
    requires Linked(c.ts) && Sorted(g, c.ts) && t < |c.ts.tcb|
    ensures Linked(Mark(c, t, c.ts.tcb[t].(actque := false)).ts)
  {
    assert Belongs(c.ts.tcb, Ready(0), t) ==> c.ts.tcb[t].priority < TNUM_TPRI;
    MarkLinked(g, c.ts, t, c.ts.tcb[t].(actque := false));
  }

  /** The steps of a termination. */
  lemma TerminateInSteps(g: Config, c: Core, t: Tid)
    requires Linked(c.ts) && t < |c.ts.tcb| && t < |g.ipri|
    ensures Terminate(g, c, t) == Mark(Leave(c, t), t, Initial(g, c.ts.tcb[t], t)).(tm := c.tm - {TaskBlk(t)})
    ensures Loose(Leave(c, t).ts.q, t)
  {
    LeaveLoose(c, t);
    MoveInSteps(g, c, t, Initial(g, c.ts.tcb[t], t));
    EnterNowhere(g, Mark(Leave(c, t), t, Initial(g, c.ts.tcb[t], t)), t);
  }

  /** The steps by which a task goes to sleep, and that each of them can be taken. */
  lemma SleepInSteps(g: Config, c: Core, why: Why, d: WData, timer: Option<nat>)
    requires Inv(g, c) && MayBlock(c) && BlockArgs(why, timer)
    ensures c.run.value < |c.ts.tcb|
    ensures var t := c.run.value;
            var c1 := Mark(c, t, c.ts.tcb[t].(tstat := Waiting(why, false), wdata := d));
            var c2 := Armed(NotReady(c1, t), t, timer, CallbackOf(t, why));
            && On(c.ts.q, Ready(c.ts.tcb[t].priority), t) && c.ts.tcb[t].priority < TNUM_TPRI && TaskBlk(t) !in c.tm
            && Loose(c2.ts.q, t)
            && (forall wq :: TasksIn(c2, WaitQ(c2, wq)))
            && Block(g, c, why, d, timer) == Dispatch(Enter(g, c2, t))
            && (!why.Obj? ==> Enter(g, c2, t) == c2)
  {
    var t := c.run.value;
    var b := c.ts.tcb[t].(tstat := Waiting(why, false), winfo := Timer(timer.Some?), wdata := d);
    AtHome(c, t);
    NotTimed(g, c, t);
    LeaveLoose(c, t);
    MoveInSteps(g, c, t, b);
    var c1 := Mark(c, t, c.ts.tcb[t].(tstat := Waiting(why, false), wdata := d));
    var c2 := Armed(NotReady(c1, t), t, timer, CallbackOf(t, why));
    assert c.ts.tcb[t := c1.ts.tcb[t]][t := b] == c.ts.tcb[t := b];
    forall wq ensures TasksIn(c2, WaitQ(c2, wq)) {
      assert WaitQ(c2, wq) == WaitQ(c, wq);
      WaitersAreWaiting(c, wq);
    }
  }

  lemma QueuedWaits(c: Core, wq: WQ, t: Tid)
    requires Linked(c.ts) && On(c.ts.q, Wait(wq), t)
    ensures t < |c.ts.tcb| && c.ts.tcb[t].tstat.Waiting? && c.ts.tcb[t].priority < TNUM_TPRI
  {
    assert Belongs(c.ts.tcb, Wait(wq), t);
  }

  /** Handing data to a task and taking it from its queue, in either order. */
  lemma DataStays(c: Core, t: Tid, d: WData)
    requires Linked(c.ts) && t < |c.ts.tcb|
    ensures Linked(Handed(c, t, d).ts) && Leave(Handed(c, t, d), t) == Handed(Leave(c, t), t, d)
  {
    var c' := Handed(c, t, d);
    forall h, u ensures On(c'.ts.q, h, u) <==> Belongs(c'.ts.tcb, h, u) {
      assert On(c.ts.q, h, u) <==> Belongs(c.ts.tcb, h, u);
    }
  }

  /** Every relative time fits into the 32-bit comparison. */
  lemma RelTimeInRange(g: Config, k: Clock, draining: bool, rel: nat)
    requires ValidConfig(g) && ClockInv(g, k, draining) && rel <= TMAX_RELTIM
    ensures k.min <= Base(k) + rel < k.min + EVTTIM_MOD
  {
    ClockBounds(g, k, draining);
  }

  /** Task t leaves the ready queue of its priority. */
  function NotReady(c: Core, t: Tid): Core
    requires t < |c.ts.tcb|
  {
    var r := Ready(c.ts.tcb[t].priority);
    c.(ts := c.ts.(q := c.ts.q[r := Remove(At(c.ts.q, r), t)]))
  }

  /** The array of the heap has room for every block. */
  lemma {:induction false} BlocksCounted(s: seq<Blk>)
    ensures |set b | b in s| <= |s|
  {
    if s != [] {
      BlocksCounted(s[1..]);
      assert (set b | b in s) == {s[0]} + (set b | b in s[1..]);
    }
  }

  /** There are never more events than tasks, cyclic handlers and alarms: the heap has a node for each. */
  lemma EventsFit(g: Config, c: Core)
    requires Good(g, c)
    ensures |c.tm| <= |g.ipri| + |g.cyc| + g.nalm
  {
    forall b | b in c.tm ensures b in AllBlks(g) { Registered(g, c, b); }
    SubsetSize(c.tm.Keys, set b | b in AllBlks(g));
    BlocksCounted(AllBlks(g));
  }

  lemma MarkTwice(c: Core, t: Tid, b: TCB, b': TCB)
    requires t < |c.ts.tcb|
    ensures Mark(Mark(c, t, b), t, b') == Mark(c, t, b')
  {
    assert c.ts.tcb[t := b][t := b'] == c.ts.tcb[t := b'];
  }

  /** The part of a cyclic handler's control block that changes; evttim has 32 bits. */
  datatype CYCCB = CYCCB(cycsta: bool, evttim: nat)

  class Kernel {
    const g: Config
    const s: Scheduler
    const h: Heap
    var nest: nat
    var cyccb: seq<CYCCB>
    var almsta: seq<bool>
    /** History, and the headers of all wait queues of the objects. */
    ghost var cyc: seq<Cyc>
    ghost var drain: Option<nat>
    ghost var fired: seq<Fired>
    const wqs: set<WQ>

    ghost function View(): Core
      reads this, s, s.links, h
    {
      Core(Tasks(s.tcb, s.links.q), h.ev, s.p_runtsk, Flags(s.reqflg, s.ipmflg, s.disdsp, s.dspflg), nest, drain,
           fired, h.clk, cyc, almsta)
    }

    /** Every time event block that may be registered is one the heap has room for. */
    ghost predicate BlocksOk()
    {
      && (forall b :: b in AllBlks(g) ==> b in h.blks)
      && h.ticNume == g.ticNume && h.ticDeno == g.ticDeno
    }

    ghost predicate CycOk()
      reads this`cyccb, this`cyc
    {
      |cyccb| == |cyc| && forall i :: 0 <= i < |cyc| ==> cyccb[i] == CYCCB(cyc[i].sta, Low(cyc[i].evttim))
    }

    ghost predicate Valid()
      reads this, s, s.links, h, h.tmevt_heap
    {
      && s.Valid() && h.Valid() && BlocksOk() && CycOk()
      && (forall wq :: wq in wqs ==> s.HasHead(Wait(wq)))
    }

    /** All variables as the startup module leaves them before the initialisation functions run. */
    constructor (g: Config, wqs: set<WQ>, tcb: seq<TCB>)
      requires ValidConfig(g) && |tcb| == |g.ipri|
      ensures Valid() && fresh(s) && fresh(s.links) && fresh(h) && fresh(h.tmevt_heap)
      ensures this.g == g && this.wqs == wqs
      ensures View() == Core(Tasks(tcb, map x | x in Headers(wqs) :: []), map[], None,
                             Flags(false, true, false, true), 0, None, [], InitClock(g),
                             seq(|g.cyc|, i => Cyc(false, 0, 0, 0)), seq(g.nalm, i => false))
    {
      hide Scheduler.Valid, Heap.Valid;
      this.g, this.wqs := g, wqs;
      BlocksCounted(AllBlks(g));
      s := new Scheduler(tcb, Headers(wqs));
      h := new Heap(g, set b | b in AllBlks(g), |g.ipri| + |g.cyc| + g.nalm);
      nest, drain, fired := 0, None, [];
      cyccb, cyc := seq(|g.cyc|, i => CYCCB(false, 0)), seq(|g.cyc|, i => Cyc(false, 0, 0, 0));
      almsta := seq(g.nalm, i => false);
    }

    // ----- task.c -----

    /** An assignment to fields of a control block. */
    method SetTcb(t: Tid, b: TCB)
      requires Valid() && t < |s.tcb| && b.priority == s.tcb[t].priority
      modifies s`tcb
      ensures Valid() && View() == Mark(old(View()), t, b)
    {
      hide Scheduler.Valid, Heap.Valid, BlocksOk, CycOk;
      s.SetTcb(t, b);
    }

    /** make_runnable, for a task in state RUNNABLE that is in no queue yet. */
    method MakeRunnable(t: Tid) returns (req: bool)
      requires Valid() && t < |s.tcb| && s.tcb[t].tstat.Runnable? && s.tcb[t].priority < TNUM_TPRI
               && Loose(s.links.q, t)
      modifies s`ready_primap, s`p_schedtsk, s.links
      ensures Valid() && View() == Enter(g, old(View()), t) && (req <==> Req(old(View()), View()))
    {
      hide Scheduler.Valid, Heap.Valid, BlocksOk, CycOk, Top;
      req := s.MakeRunnable(t);
      assert s.tcb[t := s.tcb[t]] == s.tcb;
    }

    /** make_non_runnable; the state of the task may have been changed already. */
    method MakeNonRunnable(t: Tid) returns (req: bool)
      requires Valid() && t < |s.tcb| && s.tcb[t].priority < TNUM_TPRI && On(View().ts.q, Ready(s.tcb[t].priority), t)
      modifies s`ready_primap, s`p_schedtsk, s.links
      ensures Valid() && View() == NotReady(old(View()), t) && (req <==> Req(old(View()), View()))
    {
      hide Scheduler.Valid, Heap.Valid, BlocksOk, CycOk, Top;
      req := s.MakeNonRunnable(t);
    }

    /** dispatch(): assembly code that saves one context and restores another. */
    method DispatchTask()
      requires Valid()
      modifies s`p_runtsk
      ensures Valid() && View() == Dispatch(old(View()))
    {
      hide Scheduler.QueuesOk, Agrees, Top, Heap.Valid, BlocksOk, CycOk;
      s.p_runtsk := s.p_schedtsk;
    }

    /** ext_tsk leaves the dispatch-disabled state and resets the interrupt priority mask. */
    method AllowDispatch()
      requires Valid()
      modifies s`disdsp, s`ipmflg, s`dspflg
      ensures Valid() && View() == old(View()).(fl := Flags(s.reqflg, true, false, true))
    {
      hide Scheduler.QueuesOk, Agrees, Top, Heap.Valid, BlocksOk, CycOk;
      if s.disdsp {
        s.disdsp := false;
      }
      if !s.ipmflg {
        s.ipmflg := true;
      }
      s.dspflg := true;
    }

    /** What every service call does about a dispatch request: dispatch() in a task, reqflg in an
        interrupt handler. */
    method Settle(req: bool)
      requires Valid()
      modifies s`p_runtsk, s`reqflg
      ensures Valid() && View() == Finish(old(View()), req)
    {
      hide Scheduler.QueuesOk, Agrees, Top, Heap.Valid, BlocksOk, CycOk;
      if req {
        if nest == 0 {
          DispatchTask();
        } else {
          s.reqflg := true;
        }
      }
    }

    // ----- wait.h, wait.c -----

    /** make_non_wait. */
    method MakeNonWait(t: Tid) returns (req: bool)
      requires Valid() && t < |s.tcb| && s.tcb[t].tstat.Waiting? && s.tcb[t].priority < TNUM_TPRI && Loose(s.links.q, t)
      modifies s`tcb, s`ready_primap, s`p_schedtsk, s.links
      ensures Valid() && (req <==> Req(old(View()), View()))
      ensures var b := old(s.tcb)[t];
              View() == Enter(g, Mark(old(View()), t, b.(tstat := if b.tstat.susp then Suspended else Runnable)), t)
    {
      hide Scheduler.Valid, Heap.Valid, BlocksOk, CycOk, Top, Valid;
      var b := s.tcb[t];
      if !b.tstat.susp {
        SetTcb(t, b.(tstat := Runnable));
        req := MakeRunnable(t);
      } else {
        SetTcb(t, b.(tstat := Suspended));
        EnterNowhere(g, View(), t);
        req := false;
      }
    }

    /** wait_dequeue_tmevtb. */
    method WaitDequeueTmevtb(t: Tid)
      requires Valid() && TimerKnown(View(), t)
      modifies h, h.tmevt_heap
      ensures Valid() && View() == old(View()).(tm := old(View()).tm - {TaskBlk(t)})
    {
      hide Scheduler.Valid, Heap.Valid, BlocksOk, CycOk;
      if s.tcb[t].winfo.timed {
        h.Delete(TaskBlk(t));
      } else {
        assert h.ev - {TaskBlk(t)} == h.ev;
      }
    }

    /** Common end of all functions that end a wait: the return code replaces the timer in the
        wait-information block, and the task becomes runnable unless it is suspended. */
    method EndWait(t: Tid, code: ER) returns (req: bool)
      requires Valid() && t < |s.tcb| && s.tcb[t].tstat.Waiting? && s.tcb[t].priority < TNUM_TPRI && Loose(s.links.q, t)
      modifies s`tcb, s`ready_primap, s`p_schedtsk, s.links
      ensures Valid() && (req <==> Req(old(View()), View()))
      ensures View() == Resumed(g, old(View()), t, code).(tm := old(View()).tm)
    {
      hide Valid, Top, Place;
      var b := s.tcb[t];
      MarkTwice(View(), t, b.(winfo := Wercd(code)), Woken(b, code, b.wdata));
      SetTcb(t, b.(winfo := Wercd(code)));
      req := MakeNonWait(t);
    }

    /** wait_complete, for a task that has left its wait queue. */
    method WaitComplete(t: Tid) returns (req: bool)
      requires Valid() && TimerKnown(View(), t) && s.tcb[t].tstat.Waiting? && s.tcb[t].priority < TNUM_TPRI
               && Loose(s.links.q, t)
      modifies s`tcb, s`ready_primap, s`p_schedtsk, s.links, h, h.tmevt_heap
      ensures Valid() && View() == Resumed(g, old(View()), t, E_OK) && (req <==> Req(old(View()), View()))
    {
      hide Valid, Top, Place;
      WaitDequeueTmevtb(t);
      req := EndWait(t, E_OK);
    }

    /** wait_dequeue_wobj. */
    method WaitDequeueWobj(t: Tid)
      requires Valid() && Linked(View().ts) && t < |s.tcb| && s.tcb[t].tstat.Waiting?
      modifies s.links
      ensures Valid() && View() == Leave(old(View()), t) && Loose(s.links.q, t)
    {
      hide Scheduler.Valid, Heap.Valid, BlocksOk, CycOk, Top, Linked;
      LeaveLoose(View(), t);
      if s.tcb[t].tstat.why.Obj? {
        AtHome(View(), t);
        s.WaitDelete(t, s.tcb[t].tstat.why.wq);
      }
    }

    /** wait_release. */
    method WaitRelease(t: Tid) returns (req: bool)
      requires Valid() && Linked(View().ts) && TimerKnown(View(), t) && s.tcb[t].tstat.Waiting?
      modifies s`tcb, s`ready_primap, s`p_schedtsk, s.links, h, h.tmevt_heap
      ensures Valid() && (req <==> Req(old(View()), View()))
      ensures View() == Wake(g, old(View()), t, E_RLWAI, old(s.tcb)[t].wdata)
    {
      hide Valid, Top, Place, Linked, Loose, Unlink;
      ghost var c := View();
      WakeQuietly(g, c, t, E_RLWAI);
      WaitDequeueWobj(t);
      WaitDequeueTmevtb(t);
      req := EndWait(t, E_RLWAI);
    }

    /** wait_tmout; the time event block has been taken from the heap before it is called back. */
    method WaitTmout(t: Tid)
      requires Valid() && Linked(View().ts) && t < |s.tcb| && s.tcb[t].tstat.Waiting? && nest > 0 && TaskBlk(t) !in h.ev
      modifies s`tcb, s`ready_primap, s`p_schedtsk, s`reqflg, s.links
      ensures Valid()
      ensures var c := old(View()); var c1 := Wake(g, c, t, E_TMOUT, c.ts.tcb[t].wdata);
              View() == Finish(c1, Req(c, c1))
    {
      hide Valid, Top, Place, Linked, Loose, Unlink;
      ghost var c := View();
      WakeQuietly(g, c, t, E_TMOUT);
      assert c.tm - {TaskBlk(t)} == c.tm;
      WaitDequeueWobj(t);
      var req := EndWait(t, E_TMOUT);
      if req {
        SetReqflg();
      }
    }

    /** wait_tmout_ok, the callback of dly_tsk. */
    method WaitTmoutOk(t: Tid)
      requires Valid() && Linked(View().ts) && t < |s.tcb| && s.tcb[t].tstat.Waiting? && nest > 0 && TaskBlk(t) !in h.ev
      requires s.tcb[t].tstat.why.Dly?
      modifies s`tcb, s`ready_primap, s`p_schedtsk, s`reqflg, s.links
      ensures Valid()
      ensures var c := old(View()); var c1 := Wake(g, c, t, E_OK, c.ts.tcb[t].wdata); View() == Finish(c1, Req(c, c1))
    {
      hide Valid, Top, Place, Linked, Loose;
      ghost var c := View();
      WakeQuietly(g, c, t, E_OK);
      HomelessLoose(c, t);
      assert c.tm - {TaskBlk(t)} == c.tm;
      var req := EndWait(t, E_OK);
      if req {
        SetReqflg();
      }
    }

    method SetReqflg()
      requires Valid()
      modifies s`reqflg
      ensures Valid() && View() == old(View()).(fl := old(View()).fl.(reqflg := true))
    {
      hide Scheduler.QueuesOk, Agrees, Top, Heap.Valid, BlocksOk, CycOk;
      s.reqflg := true;
    }

    /** queue_delete_next of a wait queue. */
    method DeleteNext(wq: WQ) returns (t: Tid)
      requires Valid() && Linked(View().ts) && WaitQ(View(), wq) != []
      modifies s.links
      ensures Valid() && t == WaitQ(old(View()), wq)[0] < |s.tcb| && View() == Leave(old(View()), t)
    {
      hide Scheduler.Valid, Heap.Valid, BlocksOk, CycOk, Top, Linked;
      FirstWaiter(View(), wq);
      t := s.WaitDeleteNext(wq);
    }

    /** Takes the first task from a wait queue, hands it data if there are any, and ends its wait. */
    method WakeFirst(wq: WQ, code: ER, d: Option<WData>) returns (t: Tid, req: bool)
      requires Valid() && Linked(View().ts) && TaskTimers(View().ts.tcb, View().tm) && WaitQ(View(), wq) != []
      modifies s`tcb, s`ready_primap, s`p_schedtsk, s.links, h, h.tmevt_heap
      ensures Valid() && t == WaitQ(old(View()), wq)[0] < |old(s.tcb)| && (req <==> Req(old(View()), View()))
      ensures View() == Wake(g, old(View()), t, code, if d.Some? then d.value else old(s.tcb)[t].wdata)
    {
      hide Valid, Top, Place, Linked, Loose, TaskTimers, Unlink;
      ghost var c := View();
      FirstWaiter(c, wq);
      WaiterTimer(c, WaitQ(c, wq)[0]);
      LeaveWaiting(c, WaitQ(c, wq)[0]);
      t := DeleteNext(wq);
      var w := if d.Some? then d.value else s.tcb[t].wdata;
      WakeInSteps(g, c, t, code, w);
      req := HandAndEnd(t, code, w);
    }

    /** Hands data to a task that has left its queue, and ends its wait. */
    method HandAndEnd(t: Tid, code: ER, w: WData) returns (req: bool)
      requires Valid() && TimerKnown(View(), t) && s.tcb[t].tstat.Waiting? && s.tcb[t].priority < TNUM_TPRI
               && Loose(s.links.q, t)
      modifies s`tcb, s`ready_primap, s`p_schedtsk, s.links, h, h.tmevt_heap
      ensures Valid() && View() == Resumed(g, Handed(old(View()), t, w), t, code) && (req <==> Req(old(View()), View()))
    {
      hide Valid, Top, Place, Loose;
      SetTcb(t, s.tcb[t].(wdata := w));
      WaitDequeueTmevtb(t);
      req := EndWait(t, code);
    }

    /** Takes a task from the wait queue it is in, hands it data and ends its wait. */
    method WakeWaiter(wq: WQ, t: Tid, d: WData) returns (req: bool)
      requires Valid() && Linked(View().ts) && TaskTimers(View().ts.tcb, View().tm) && On(View().ts.q, Wait(wq), t)
      modifies s`tcb, s`ready_primap, s`p_schedtsk, s.links, h, h.tmevt_heap
      ensures Valid() && t < |old(s.tcb)| && (req <==> Req(old(View()), View()))
      ensures View() == Wake(g, old(View()), t, E_OK, d)
    {
      hide Valid, Top, Place, Linked, Loose, TaskTimers, Unlink;
      ghost var c := View();
      QueuedWaits(c, wq, t);
      WaiterTimer(c, t);
      LeaveWaiting(c, t);
      WakeInSteps(g, c, t, E_OK, d);
      SetTcb(t, s.tcb[t].(wdata := d));
      DataStays(c, t, d);
      WaitDequeueWobj(t);
      WaitDequeueTmevtb(t);
      req := EndWait(t, E_OK);
    }

    /** init_wait_queue. */
    method InitWaitQueue(wq: WQ) returns (dspreq: bool)
      requires Valid() && Good(g, View()) && wq in wqs
      modifies s`tcb, s`ready_primap, s`p_schedtsk, s.links, h, h.tmevt_heap
      ensures QueueOk(old(View()), wq) && Valid()
      ensures (View(), dspreq) == WakeAll(g, old(View()), WaitQ(old(View()), wq), E_DLT)
    {
      hide Valid, Good, Top, Wake, Home;
      dspreq := false;
      ghost var c := View();
      InitWaitQueueOk(g, c, wq);
      var empty := QueueEmpty(wq);
      while !empty
        invariant Valid() && Good(g, View()) && QueueOk(View(), wq) && empty == (WaitQ(View(), wq) == [])
        invariant var (c', req) := WakeAll(g, View(), WaitQ(View(), wq), E_DLT);
                  WakeAll(g, c, WaitQ(c, wq), E_DLT) == (c', dspreq || req)
        decreases |WaitQ(View(), wq)|
      {
        ghost var c1 := View();
        FirstWokenGood(g, c1, wq, E_DLT);
        var t, req := WakeFirst(wq, E_DLT, None);
        if req {
          dspreq := true;
        }
        empty := QueueEmpty(wq);
      }
    }

    /** queue_empty of a wait queue. */
    method QueueEmpty(wq: WQ) returns (r: bool)
      requires Valid() && wq in wqs
      ensures r <==> WaitQ(View(), wq) == []
    {
      assert s.HasHead(Wait(wq));
      r := s.links.Empty(Wait(wq));
    }

    /** The first task of a wait queue. */
    method FirstOf(wq: WQ) returns (t: Tid)
      requires Valid() && Linked(View().ts) && WaitQ(View(), wq) != []
      ensures t == WaitQ(View(), wq)[0] < |s.tcb|
    {
      hide Scheduler.CacheOk, Heap.Valid, BlocksOk, CycOk;
      FirstWaiter(View(), wq);
      t := s.links.First(Wait(wq));
    }

    // ----- going to sleep -----

    /** make_wait and make_wait_tmout, and the corresponding lines of dly_tsk: the running task, whose
        state has been set, leaves the ready queue; its wait-information block gets the timer. */
    method MakeWait(t: Tid, timer: Option<nat>, cb: Callback)
      requires Valid() && s.p_runtsk == Some(t) && t < |s.tcb| == |g.ipri|
      requires s.tcb[t].priority < TNUM_TPRI && On(s.links.q, Ready(s.tcb[t].priority), t) && TaskBlk(t) !in h.ev
      requires ValidConfig(g) && ClockInv(g, h.clk, drain.Some?) && (timer.Some? ==> timer.value <= TMAX_RELTIM)
      modifies s`tcb, s`ready_primap, s`p_schedtsk, s.links, h, h.tmevt_heap
      ensures Valid() && View() == Armed(NotReady(old(View()), t), t, timer, cb)
    {
      hide Valid, Top, ClockInv, On, Remove;
      var _ := MakeNonRunnable(t);
      SetTcb(t, s.tcb[t].(winfo := Timer(timer.Some?)));
      if timer.Some? {
        TmevtbEnqueue(TaskBlk(t), timer.value, cb);
      }
    }

    /** tmevtb_enqueue. */
    method TmevtbEnqueue(b: Blk, rel: nat, cb: Callback)
      requires Valid() && b in AllBlks(g) && b !in h.ev && ValidConfig(g) && rel <= TMAX_RELTIM
      requires ClockInv(g, h.clk, drain.Some?)
      modifies h, h.tmevt_heap
      ensures Valid() && View() == old(View()).(tm := old(View()).tm[b := RelEvent(h.clk, cb, rel)])
    {
      hide Scheduler.Valid, Heap.Valid, CycOk;
      RelTimeInRange(g, h.clk, drain.Some?, rel);
      h.Enqueue(b, rel, cb);
    }

    /** wobj_queue_insert: the running task is queued at the object it waits for. */
    method WobjQueueInsert(wq: WQ)
      requires Valid() && wq in wqs && s.p_runtsk.Some? && s.p_runtsk.value < |s.tcb|
      requires Home(s.tcb[s.p_runtsk.value]) == Some(Wait(wq)) && Loose(s.links.q, s.p_runtsk.value)
      requires TasksIn(View(), WaitQ(View(), wq))
      modifies s.links
      ensures Valid() && View() == Enter(g, old(View()), s.p_runtsk.value)
    {
      hide Scheduler.QueuesOk, Agrees, Top, Heap.Valid, BlocksOk, CycOk;
      var t := s.p_runtsk.value;
      assert s.tcb[t := s.tcb[t]] == s.tcb;
      assert s.HasHead(Wait(wq));
      s.WaitInsert(wq, t, Tpri(g, wq));
    }

    /** How every blocking service call ends: the running task records what it waits for, leaves the
        ready queue, starts its timer, is queued at the object, and another task is dispatched. */
    method Sleep(why: Why, d: WData, timer: Option<nat>)
      requires Valid() && Inv(g, View()) && MayBlock(View()) && BlockArgs(why, timer)
      requires why.Obj? ==> why.wq in wqs
      modifies s`tcb, s`ready_primap, s`p_schedtsk, s`p_runtsk, s.links, h, h.tmevt_heap
      ensures RunsTask(old(View())) && Valid() && View() == Block(g, old(View()), why, d, timer)
    {
      hide Valid, Top, Linked, TimersInv, ClockInv, Sorted;
      ghost var c := View();
      var t := s.p_runtsk.value;
      SleepInSteps(g, c, why, d, timer);
      SetTcb(t, s.tcb[t].(tstat := Waiting(why, false), wdata := d));
      MakeWait(t, timer, CallbackOf(t, why));
      if why.Obj? {
        WobjQueueInsert(why.wq);
      }
      DispatchTask();
    }

    // ----- task.c, continued -----

    /** make_active. */
    method MakeActive(t: Tid) returns (req: bool)
      requires Valid() && Linked(View().ts) && t < |s.tcb| && s.tcb[t].tstat in {Dormant, Suspended}
      modifies s`tcb, s`ready_primap, s`p_schedtsk, s.links
      ensures Valid() && View() == Activate(g, old(View()), t) && (req <==> Req(old(View()), View()))
    {
      hide Valid, Top, Linked, Place, Unlink, Loose;
      ghost var c := View();
      HomelessLoose(c, t);
      MoveInSteps(g, c, t, c.ts.tcb[t].(tstat := Runnable));
      SetTcb(t, s.tcb[t].(tstat := Runnable));
      req := MakeRunnable(t);
    }

    /** change_priority. */
    method SetPriority(t: Tid, newpri: nat) returns (req: bool)
      requires Valid() && Linked(View().ts) && t < |s.tcb| && newpri < TNUM_TPRI
      modifies s`tcb, s`ready_primap, s`p_schedtsk, s.links
      ensures Valid() && View() == ChangePriority(g, old(View()), t, newpri) && (req <==> Req(old(View()), View()))
    {
      hide Scheduler.Valid, Heap.Valid, BlocksOk, CycOk, Top, Linked;
      ghost var c := View();
      if s.tcb[t].tstat.Runnable? {
        AtHome(c, t);
        req := s.ChangeReadyPriority(t, newpri);
      } else {
        MoveInSteps(g, c, t, c.ts.tcb[t].(priority := newpri));
        ChangePriorityIdle(t, newpri);
        req := false;
      }
    }

    /** change_priority of a task that is not runnable; wobj_change_priority. */
    method ChangePriorityIdle(t: Tid, newpri: nat)
      requires Valid() && Linked(View().ts) && t < |s.tcb| && newpri < TNUM_TPRI && !s.tcb[t].tstat.Runnable?
      modifies s`tcb, s.links
      ensures Valid() && View() == ChangePriority(g, old(View()), t, newpri) && TopOf(View()) == TopOf(old(View()))
    {
      hide Scheduler.QueuesOk, Agrees, Top, Heap.Valid, BlocksOk, CycOk, Linked, InsertPri, Remove;
      ghost var c := View();
      NotReadyTask(c, t);
      s.SetPriority(t, newpri);
      var b := s.tcb[t];
      if b.tstat.Waiting? && b.tstat.why.Obj? && Tpri(g, b.tstat.why.wq) {
        AtHome(c, t);
        RequeuedTasks(c, b.tstat.why.wq, t);
        assert WaitQ(View(), b.tstat.why.wq) == WaitQ(c, b.tstat.why.wq);
        WobjChangePriority(b.tstat.why.wq, t);
      }
    }

    /** wobj_change_priority of an object with TA_TPRI. */
    method WobjChangePriority(wq: WQ, t: Tid)
      requires Valid() && t < |s.tcb| && On(s.links.q, Wait(wq), t)
      requires forall u: Tid :: u in Remove(WaitQ(View(), wq), t) ==> u < |s.tcb|
      modifies s.links
      ensures Valid() && TopOf(View()) == TopOf(old(View()))
      ensures var c := old(View()); var q := InsertPri(c.ts.tcb, Remove(WaitQ(c, wq), t), t);
              View() == c.(ts := c.ts.(q := c.ts.q[Wait(wq) := q]))
    {
      hide Scheduler.QueuesOk, Agrees, Top, Heap.Valid, BlocksOk, CycOk, InsertPri, Remove;
      ghost var q := s.links.q;
      s.WaitDelete(t, wq);
      assert At(s.links.q, Wait(wq)) == Remove(At(q, Wait(wq)), t);
      s.WaitInsert(wq, t, true);
      TopFrame(q, s.links.q);
    }

    /** rotate_ready_queue. */
    method RotateQueue(pri: nat) returns (req: bool)
      requires Valid() && pri < TNUM_TPRI
      modifies s`p_schedtsk, s.links
      ensures Valid() && View() == old(View()).(ts := Rotate(old(View()).ts, pri))
              && (req <==> Req(old(View()), View()))
    {
      hide Scheduler.Valid, Heap.Valid, BlocksOk, CycOk, Top;
      req := s.RotateReadyQueue(pri);
    }

    /** make_dormant. */
    method MakeDormant(t: Tid)
      requires Valid() && t < |s.tcb| == |g.ipri| && forall p: nat :: p < TNUM_TPRI ==> !On(s.links.q, Ready(p), t)
      modifies s`tcb
      ensures Valid() && View() == Mark(old(View()), t, Initial(g, old(s.tcb)[t], t))
    {
      hide Scheduler.QueuesOk, Agrees, Top, Heap.Valid, BlocksOk, CycOk;
      var b := s.tcb[t].(tstat := Dormant, wupque := false);
      SetTcb(t, b);
      assert s.tcb[t := b.(priority := g.ipri[t])] == old(s.tcb)[t := Initial(g, old(s.tcb)[t], t)];
      s.SetPriority(t, g.ipri[t]);
    }

    /** A queued activation request starts a terminated task again. */
    method Restart(t: Tid) returns (req: bool)
      requires Valid() && Linked(View().ts) && Sorted(g, View().ts) && t < |s.tcb| && s.tcb[t].tstat.Dormant?
      modifies s`tcb, s`ready_primap, s`p_schedtsk, s.links
      ensures Valid() && View() == Reactivate(g, old(View()), t) && (req <==> Req(old(View()), View()))
    {
      hide Valid, Top, Linked, Sorted, SetTask, Home, Unlink, Place;
      req := false;
      if s.tcb[t].actque {
        MarkedLinked(g, View(), t);
        SetTcb(t, s.tcb[t].(actque := false));
        req := MakeActive(t);
      }
    }
  }
}
