/**
  signal_time (kernel/time_event.c) on the variables of the whole kernel, with interrupts and the service
  calls of handlers, on whatever object, wherever it unlocks the CPU.  What it does is proved to be a run
  of the state machine of System, and exact.
 */
module WholeTick {
  import opened Types
  import opened Core
  import T = TaskCalls
  import opened TaskCallProofs
  import opened TimeCalls
  import opened TimeCallProofs
  import opened DrainProofs
  import opened System
  import opened SystemProofs
  import opened TickRuns
  import opened WholeKernel
  import opened KernelState
  import Locked = SignalTime

  /** What may happen while the CPU is unlocked during a tick: service calls of the handler in
      progress, the entry of an interrupt handler and its exit. */
  datatype Event = Svc(op: Op) | In | Out

  predicate EventOk(w: Whole, e: Event) { e.Svc? ==> w.Names(e.op) }

  predicate WindowOk(w: Whole, es: seq<Event>) { forall i :: 0 <= i < |es| ==> EventOk(w, es[i]) }

  /** The state in the middle of a tick. */
  ghost predicate MidTick(g: Config, s: Sys, lev: nat) {
    SysInv(g, s) && s.c.drain == Some(lev) && s.c.nest >= lev
  }

  /** A step of a handler or of an interrupt within the tick. */
  predicate Aside(s: Sys, lev: nat, op: Op) {
    !op.OnKernel? || op.kop == Enter || (op.kop == Exit && s.c.nest > lev)
  }

  /** Such steps do not end the tick and do not add to its work. */
  lemma AsideStep(g: Config, s: Sys, lev: nat, op: Op)
    requires MidTick(g, s, lev) && May(g, s, op) && Aside(s, lev, op)
    ensures MidTick(g, Step(g, s, op), lev) && Work(g, Step(g, s, op).c) <= Work(g, s.c)
  {
    hide ObjectsInv, Inv, Work;
    StepKeepsInv(g, s, op);
    StepWork(g, s, op);
    if !op.OnKernel? { CallStepOk(g, s, op); }
  }

  /** The run from state s0 up to now, a tick that has begun. */
  ghost predicate Stretch(g: Config, s0: Sys, tr: seq<Sys>, ops: seq<Op>, s: Sys, lev: nat) {
    && IsRun(g, tr, ops) && |ops| > 0 && ops[0] == OnKernel(Begin) && AllInner(ops, 1, |ops|)
    && tr[0] == s0 && tr[|ops|] == s && MidTick(g, s, lev)
  }

  lemma RunOn(g: Config, tr: seq<Sys>, ops: seq<Op>, op: Op)
    requires IsRun(g, tr, ops) && May(g, tr[|ops|], op)
    ensures IsRun(g, tr + [Step(g, tr[|ops|], op)], ops + [op])
  {
    hide May, Step;
    var tr', ops' := tr + [Step(g, tr[|ops|], op)], ops + [op];
    forall j | 0 <= j < |ops'| ensures May(g, tr'[j], ops'[j]) && tr'[j + 1] == Step(g, tr'[j], ops'[j]) {
      if j < |ops| { assert tr[j + 1] == Step(g, tr[j], ops[j]); }
    }
  }

  lemma StretchOn(g: Config, s0: Sys, tr: seq<Sys>, ops: seq<Op>, s: Sys, op: Op, lev: nat)
    requires Stretch(g, s0, tr, ops, s, lev) && May(g, s, op) && Inner(op) && MidTick(g, Step(g, s, op), lev)
    ensures Stretch(g, s0, tr + [Step(g, s, op)], ops + [op], Step(g, s, op), lev)
  {
    hide MidTick, May, Step, Inner;
    RunOn(g, tr, ops, op);
    assert (ops + [op])[|ops|] == op;
  }

  lemma StretchFrom(g: Config, s: Sys, lev: nat)
    requires SysInv(g, s) && MayTick(s.c) && s.c.nest == lev
    ensures May(g, s, OnKernel(Begin))
    ensures var s' := Step(g, s, OnKernel(Begin)); Stretch(g, s, [s, s'], [OnKernel(Begin)], s', lev)
  {
    hide ObjectsInv, Good, DispInv;
    StepKeepsInv(g, s, OnKernel(Begin));
  }

  /** Either nothing has happened or one step. */
  ghost predicate Advances(g: Config, s: Sys, done: seq<Op>, s': Sys, lev: nat) {
    && |done| <= 1
    && if done == [] then s' == s else May(g, s, done[0]) && Aside(s, lev, done[0]) && s' == Step(g, s, done[0])
  }

  /** One event of a window. */
  method Happen(w: Whole, lev: nat, e: Event) returns (ghost done: seq<Op>)
    requires w.Valid() && SysInv(w.k.g, w.View()) && w.k.drain == Some(lev) && EventOk(w, e)
    modifies w.k, w.k.s, w.k.s.links, w.k.h, w.k.h.tmevt_heap, w.sem, w.flg
    modifies set d | d in w.dtq :: d.b, set d | d in w.dtq :: d.b.p_dtqmb
    modifies set d | d in w.pdq :: d.b, set d | d in w.pdq :: d.b.p_pdqmb
    modifies w.mpf, set m | m in w.mpf :: m.p_mpfmb
    ensures w.Valid() && Advances(w.k.g, old(w.View()), done, w.View(), lev)
    ensures e.Out? && old(w.k.nest) > lev ==> w.k.nest < old(w.k.nest)
  {
    hide Whole.Valid, SysInv, May, Step;
    done := [];
    match e {
      case Svc(op) =>
        w.Do(op);
        done := [op];
      case In =>
        w.DoEnter();
        done := [OnKernel(Enter)];
      case Out =>
        if w.k.nest > lev {
          w.DoExit();
          done := [OnKernel(Exit)];
        }
    }
  }

  lemma StretchMore(g: Config, s0: Sys, tr: seq<Sys>, ops: seq<Op>, s: Sys, done: seq<Op>, s': Sys, lev: nat)
    requires Stretch(g, s0, tr, ops, s, lev) && Advances(g, s, done, s', lev)
    ensures MidTick(g, s', lev) && Work(g, s'.c) <= Work(g, s.c)
    ensures Stretch(g, s0, if done == [] then tr else tr + [s'], ops + done, s', lev)
  {
    hide MidTick, IsRun, May, Step, Work;
    if done == [] {
      assert ops + done == ops;
    } else {
      AsideStep(g, s, lev, done[0]);
      StretchOn(g, s0, tr, ops, s, done[0], lev);
      assert ops + done == ops + [done[0]];
    }
  }

  /** The run goes on by one event. */
  method GoOn(w: Whole, lev: nat, e: Event, ghost s0: Sys, ghost tr0: seq<Sys>, ghost ops0: seq<Op>)
      returns (ghost tr: seq<Sys>, ghost ops: seq<Op>)
    requires w.Valid() && Stretch(w.k.g, s0, tr0, ops0, w.View(), lev) && EventOk(w, e)
    modifies w.k, w.k.s, w.k.s.links, w.k.h, w.k.h.tmevt_heap, w.sem, w.flg
    modifies set d | d in w.dtq :: d.b, set d | d in w.dtq :: d.b.p_dtqmb
    modifies set d | d in w.pdq :: d.b, set d | d in w.pdq :: d.b.p_pdqmb
    modifies w.mpf, set m | m in w.mpf :: m.p_mpfmb
    ensures w.Valid() && Stretch(w.k.g, s0, tr, ops, w.View(), lev)
    ensures w.k.nest >= lev && Work(w.k.g, w.View().c) <= old(Work(w.k.g, w.View().c))
    ensures e.Out? && old(w.k.nest) > lev ==> w.k.nest < old(w.k.nest)
  {
    hide Whole.Valid, SysInv, IsRun, AllInner, Work, May, Step;
    ghost var s := w.View();
    ghost var done := Happen(w, lev, e);
    StretchMore(w.k.g, s0, tr0, ops0, s, done, w.View(), lev);
    tr, ops := if done == [] then tr0 else tr0 + [w.View()], ops0 + done;
  }

  /** The CPU is unlocked for a while, and locked again by the handler at nesting level lev. */
  method Window(w: Whole, lev: nat, es: seq<Event>, ghost s0: Sys, ghost tr0: seq<Sys>, ghost ops0: seq<Op>)
      returns (ghost tr: seq<Sys>, ghost ops: seq<Op>)
    requires w.Valid() && Stretch(w.k.g, s0, tr0, ops0, w.View(), lev)
    requires w.k.nest >= lev && WindowOk(w, es)
    modifies w.k, w.k.s, w.k.s.links, w.k.h, w.k.h.tmevt_heap, w.sem, w.flg
    modifies set d | d in w.dtq :: d.b, set d | d in w.dtq :: d.b.p_dtqmb
    modifies set d | d in w.pdq :: d.b, set d | d in w.pdq :: d.b.p_pdqmb
    modifies w.mpf, set m | m in w.mpf :: m.p_mpfmb
    ensures w.Valid() && Stretch(w.k.g, s0, tr, ops, w.View(), lev) && w.k.nest == lev
    ensures Work(w.k.g, w.View().c) <= old(Work(w.k.g, w.View().c))
  {
    hide Whole.Valid, Whole.View, Stretch, Work;
    tr, ops := tr0, ops0;
    for i := 0 to |es|
      invariant w.Valid() && Stretch(w.k.g, s0, tr, ops, w.View(), lev) && w.k.nest >= lev
      invariant Work(w.k.g, w.View().c) <= old(Work(w.k.g, w.View().c))
    {
      tr, ops := GoOn(w, lev, es[i], s0, tr, ops);
    }
    while w.k.nest > lev
      invariant w.Valid() && Stretch(w.k.g, s0, tr, ops, w.View(), lev) && w.k.nest >= lev
      invariant Work(w.k.g, w.View().c) <= old(Work(w.k.g, w.View().c))
      decreases w.k.nest
    {
      tr, ops := GoOn(w, lev, Out, s0, tr, ops);
    }
  }

  /** What can be seen in the middle of a tick. */
  lemma Middle(w: Whole, s0: Sys, tr: seq<Sys>, ops: seq<Op>, lev: nat)
    requires w.Valid() && Stretch(w.k.g, s0, tr, ops, w.View(), lev)
    ensures SysInv(w.k.g, w.View()) && w.k.Valid() && w.View().c == w.k.View() && Inv(w.k.g, w.k.View())
            && w.k.drain == Some(lev)
  {
    hide Whole.Numbered, Whole.Separate, Whole.DtqsOk, Whole.PdqsOk, Whole.MpfsOk, Inv, ObjectsInv, Kernel.Valid, IsRun;
  }

  lemma Fired1(g: Config, s0: Sys, tr: seq<Sys>, ops: seq<Op>, s: Sys, b: Blk, lev: nat)
    requires Stretch(g, s0, tr, ops, s, lev) && s.c.nest == lev && May(g, s, OnKernel(FireTop(b)))
    ensures var s' := Step(g, s, OnKernel(FireTop(b)));
            Stretch(g, s0, tr + [s'], ops + [OnKernel(FireTop(b))], s', lev) && Work(g, s'.c) < Work(g, s.c)
  {
    hide Inv, ObjectsInv, Fire, MayFire, Work, IsRun;
    FireReduces(g, s.c, b);
    FireOk(g, s.c, b);
    StepKeepsInv(g, s, OnKernel(FireTop(b)));
    StretchOn(g, s0, tr, ops, s, OnKernel(FireTop(b)), lev);
  }

  /** What the loop test says. */
  ghost predicate Test(c: Core, last: nat, due: bool) {
    if due then last > 0 && exists x :: IsDue(c, x) else MayEnd(c)
  }

  lemma TestIs(c: Core, last: nat, due: bool)
    requires if due then last > 0 && exists x :: IsDue(c, x) else MayEnd(c)
    ensures Test(c, last, due)
  {
  }

  /** One round of the loop: the callback of the earliest event, and what happens while it has unlocked
      the CPU. */
  method Round(w: Whole, lev: nat, es: seq<Event>, ghost s0: Sys, ghost tr0: seq<Sys>, ghost ops0: seq<Op>)
      returns (ghost tr: seq<Sys>, ghost ops: seq<Op>)
    requires w.Valid() && Stretch(w.k.g, s0, tr0, ops0, w.View(), lev) && w.k.nest == lev
    requires w.k.Valid() && Test(w.k.View(), w.k.h.last_index, true) && WindowOk(w, es)
    modifies w.k, w.k.s, w.k.s.links, w.k.h, w.k.h.tmevt_heap, w.sem, w.flg
    modifies set d | d in w.dtq :: d.b, set d | d in w.dtq :: d.b.p_dtqmb
    modifies set d | d in w.pdq :: d.b, set d | d in w.pdq :: d.b.p_pdqmb
    modifies w.mpf, set m | m in w.mpf :: m.p_mpfmb
    ensures w.Valid() && Stretch(w.k.g, s0, tr, ops, w.View(), lev) && w.k.nest == lev
    ensures Work(w.k.g, w.View().c) < old(Work(w.k.g, w.View().c))
  {
    hide Whole.Valid, Stretch, Work, IsDue, SysInv, May, Step, EventOk, Inv, Kernel.Valid;
    Middle(w, s0, tr0, ops0, lev);
    ghost var s := w.View();
    ghost var b := w.DoFire();
    Fired1(w.k.g, s0, tr0, ops0, s, b, lev);
    tr, ops := Window(w, lev, es, s0, tr0 + [w.View()], ops0 + [OnKernel(FireTop(b))]);
  }

  /** A window of the script, or none. */
  function WindowAt(windows: seq<seq<Event>>, n: nat): seq<Event> { if n < |windows| then windows[n] else [] }

  lemma AnyWindowOk(w: Whole, windows: seq<seq<Event>>)
    requires forall n :: 0 <= n < |windows| ==> WindowOk(w, windows[n])
    ensures forall n: nat :: WindowOk(w, WindowAt(windows, n))
  {
  }

  lemma TickDone(g: Config, s0: Sys, tr: seq<Sys>, ops: seq<Op>, s: Sys, lev: nat)
    requires SysInv(g, s0) && Stretch(g, s0, tr, ops, s, lev) && May(g, s, OnKernel(End))
    ensures var s' := Step(g, s, OnKernel(End)); var tr', ops' := tr + [s'], ops + [OnKernel(End)];
            && SysInv(g, s') && IsRun(g, tr', ops') && IsTick(ops') && tr'[0] == s0 && tr'[|ops'|] == s'
            && Exact(tr', ops')
            && forall x :: x in s'.c.tm ==> s'.c.tm[x].time > s'.c.clk.cur
  {
    hide SysInv, May, Step, Exact;
    StepKeepsInv(g, s, OnKernel(End));
    RunOn(g, tr, ops, OnKernel(End));
    TickExact(g, tr + [Step(g, s, OnKernel(End))], ops + [OnKernel(End)]);
  }

  /** The first half of signal_time. */
  method Start(w: Whole, lev: nat) returns (ghost tr: seq<Sys>, ghost ops: seq<Op>)
    requires w.Valid() && SysInv(w.k.g, w.View()) && MayTick(w.k.View()) && w.k.nest == lev
    modifies w.k`drain, w.k`fired, w.k.h
    ensures w.Valid() && Stretch(w.k.g, old(w.View()), tr, ops, w.View(), lev) && w.k.nest == lev
  {
    hide Whole.Valid, Stretch, SysInv, May, Step;
    ghost var s0 := w.View();
    StretchFrom(w.k.g, s0, lev);
    w.DoBegin();
    tr, ops := [s0, w.View()], [OnKernel(Begin)];
  }

  /** Its loop test. */
  method IsDueNow(w: Whole, lev: nat, ghost s0: Sys, ghost tr: seq<Sys>, ghost ops: seq<Op>) returns (due: bool)
    requires w.Valid() && Stretch(w.k.g, s0, tr, ops, w.View(), lev) && w.k.nest == lev
    ensures w.k.Valid()
    ensures Test(w.k.View(), w.k.h.last_index, due)
  {
    hide *;
    Middle(w, s0, tr, ops, lev);
    due := Locked.IsDueNow(w.k);
    TestIs(w.k.View(), w.k.h.last_index, due);
  }

  /** Its end. */
  method Finish(w: Whole, lev: nat, ghost s0: Sys, ghost tr0: seq<Sys>, ghost ops0: seq<Op>)
      returns (ghost tr: seq<Sys>, ghost ops: seq<Op>)
    requires w.Valid() && SysInv(w.k.g, s0) && Stretch(w.k.g, s0, tr0, ops0, w.View(), lev) && w.k.nest == lev
    requires w.k.Valid() && Test(w.k.View(), w.k.h.last_index, false)
    modifies w.k`drain, w.k.h
    ensures w.Valid() && SysInv(w.k.g, w.View()) && w.k.nest == lev && TickRun(w.k.g, s0, tr, ops, w.View())
  {
    hide Whole.Valid, Stretch, SysInv, Kernel.Valid, Inv, Exact, May, Step;
    Middle(w, s0, tr0, ops0, lev);
    ghost var s := w.View();
    w.DoEnd();
    TickDone(w.k.g, s0, tr0, ops0, s, lev);
    tr, ops := tr0 + [w.View()], ops0 + [OnKernel(End)];
  }

  /** The run is a whole tick from s to s', and exact: exactly the events that were due have fired, each
      once and at its time, but for those that a service call took back; and nothing due is left. */
  ghost predicate TickRun(g: Config, s: Sys, tr: seq<Sys>, ops: seq<Op>, s': Sys) {
    && IsRun(g, tr, ops) && IsTick(ops) && tr[0] == s && tr[|ops|] == s' && Exact(tr, ops)
    && forall x :: x in s'.c.tm ==> s'.c.tm[x].time > s'.c.clk.cur
  }

  /** signal_time, called by an interrupt handler; windows says what happens whenever the CPU is
      unlocked, after the n-th callback.  It terminates, whatever happens, and what has happened when
      it returns is an exact run of the state machine: the beginning of a tick, callbacks and steps of
      handlers, and the end of the tick. */
  method SignalTime(w: Whole, windows: seq<seq<Event>>) returns (ghost tr: seq<Sys>, ghost ops: seq<Op>)
    requires w.Valid() && SysInv(w.k.g, w.View()) && MayTick(w.k.View())
    requires forall n :: 0 <= n < |windows| ==> WindowOk(w, windows[n])
    modifies w.k, w.k.s, w.k.s.links, w.k.h, w.k.h.tmevt_heap, w.sem, w.flg
    modifies set d | d in w.dtq :: d.b, set d | d in w.dtq :: d.b.p_dtqmb
    modifies set d | d in w.pdq :: d.b, set d | d in w.pdq :: d.b.p_pdqmb
    modifies w.mpf, set m | m in w.mpf :: m.p_mpfmb
    ensures w.Valid() && SysInv(w.k.g, w.View()) && w.k.nest == old(w.k.nest)
    ensures TickRun(w.k.g, old(w.View()), tr, ops, w.View())
  {
    hide *;
    AnyWindowOk(w, windows);
    ghost var s0 := w.View();
    var level := w.k.nest;
    tr, ops := Start(w, level);
    var n := 0;
    var due := IsDueNow(w, level, s0, tr, ops);
    while due
      invariant w.Valid() && Stretch(w.k.g, s0, tr, ops, w.View(), level) && w.k.nest == level
      invariant w.k.Valid() && Test(w.k.View(), w.k.h.last_index, due)
      decreases Work(w.k.g, w.View().c)
    {
      tr, ops := Round(w, level, WindowAt(windows, n), s0, tr, ops);
      n := n + 1;
      due := IsDueNow(w, level, s0, tr, ops);
    }
    tr, ops := Finish(w, level, s0, tr, ops);
  }
}
