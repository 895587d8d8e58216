/** What one tick makes happen, whatever the handlers that it calls, other interrupt handlers and the
    tasks' timeouts do meanwhile: each event that is due fires exactly once, at its own time, unless a
    service call takes it back before. */
module TickRuns {
  import opened Types
  import opened TaskQueues
  import opened SystemClock
  import opened Core
  import opened CoreProofs
  import opened TaskCalls
  import opened TaskCallProofs
  import opened TimeCalls
  import opened TimeCallProofs
  import opened DrainProofs
  import opened System
  import opened SystemProofs
  import opened StepFrames

  /** A step between the beginning and the end of a tick. */
  predicate Inner(op: Op) { op != OnKernel(Begin) && op != OnKernel(End) }

  predicate AllInner(ops: seq<Op>, m: nat, n: nat)
    requires n <= |ops|
  {
    forall k :: m <= k < n ==> Inner(ops[k])
  }

  /** The steps of one tick, from its beginning to its end. */
  predicate IsTick(ops: seq<Op>) {
    |ops| >= 2 && ops[0] == OnKernel(Begin) && ops[|ops| - 1] == OnKernel(End) && AllInner(ops, 1, |ops| - 1)
  }

  // ----- nothing else fires -----

  /** f is the event that was queued in tm, or a repetition of it. */
  ghost predicate Stems(tm: map<Blk, Ev>, b: Blk, time: int) {
    b in tm && tm[b].time <= time && (!b.CycBlk? ==> time == tm[b].time)
  }

  /** How the log of a tick and the events still due go back to the events tm queued when it began: all
      of them stem from there, and no time of a block comes twice. */
  ghost predicate Traced(tm: map<Blk, Ev>, c: Core) {
    && (forall x :: IsDue(c, x) ==> Stems(tm, x, c.tm[x].time))
    && (forall f :: f in c.fired ==> Stems(tm, f.b, f.time) && f.time <= c.clk.cur)
    && (forall f :: f in c.fired && IsDue(c, f.b) ==> f.b.CycBlk? && f.time < c.tm[f.b].time)
    && OnceEach(c.fired)
  }

  /** No block fires twice, but for cyclic handlers, which do so at later and later times. */
  ghost predicate OnceEach(fired: seq<Fired>) {
    forall i, j :: 0 <= i < j < |fired| && fired[i].b == fired[j].b ==>
                     fired[i].b.CycBlk? && fired[i].time < fired[j].time
  }

  lemma TracedQuiet(tm: map<Blk, Ev>, c: Core, c': Core)
    requires Traced(tm, c) && Late(c, c') && c'.fired == c.fired && c'.clk == c.clk
    ensures Traced(tm, c')
  {
    forall x | IsDue(c', x) ensures IsDue(c, x) && c.tm[x].time == c'.tm[x].time {}
  }

  lemma TracedFire(g: Config, tm: map<Blk, Ev>, c: Core, b: Blk)
    requires Inv(g, c) && Traced(tm, c) && MayFire(c, b) && CallbackArgOk(g, c, c.tm[b].cb)
    ensures Traced(tm, Fire(g, c, b))
  {
    hide Inv, Fire;
    FireOk(g, c, b);
    FiredTimers(g, c, b);
    var c', f := Fire(g, c, b), Fired(b, c.tm[b].time);
    assert IsDue(c, b);
    forall x | IsDue(c', x) ensures Stems(tm, x, c'.tm[x].time) { if x != b { assert IsDue(c, x); } }
    forall h | h in c'.fired ensures Stems(tm, h.b, h.time) && h.time <= c.clk.cur { assert h in c.fired || h == f; }
    forall h | h in c'.fired && IsDue(c', h.b) ensures h.b.CycBlk? && h.time < c'.tm[h.b].time {
      assert h in c.fired || h == f;
      if h.b != b { assert IsDue(c, h.b); }
    }
    forall i, j | 0 <= i < j < |c'.fired| && c'.fired[i].b == c'.fired[j].b
      ensures c'.fired[i].b.CycBlk? && c'.fired[i].time < c'.fired[j].time
    {
      assert c'.fired[i] in c.fired;
    }
  }

  lemma TracedStep(g: Config, tm: map<Blk, Ev>, s: Sys, op: Op)
    requires SysInv(g, s) && May(g, s, op) && Inner(op) && Traced(tm, s.c)
    ensures Traced(tm, Step(g, s, op).c) && Step(g, s, op).c.clk == s.c.clk
  {
    hide Inv, ObjectsInv, Traced, Fire, MayFire;
    if !op.OnKernel? {
      CallStepOk(g, s, op);
      TracedQuiet(tm, s.c, Step(g, s, op).c);
    } else {
      match op.kop
      case FireTop(b) => FireOk(g, s.c, b); TracedFire(g, tm, s.c, b);
      case Enter => TracedQuiet(tm, s.c, Step(g, s, op).c);
      case Exit => TracedQuiet(tm, s.c, Step(g, s, op).c);
    }
  }

  lemma {:induction false} TracedRun(g: Config, tr: seq<Sys>, ops: seq<Op>, n: nat)
    requires IsRun(g, tr, ops) && SysInv(g, tr[0]) && 1 <= n <= |ops|
    requires ops[0] == OnKernel(Begin) && AllInner(ops, 1, n)
    ensures Traced(tr[0].c.tm, tr[n].c) && tr[n].c.clk == Advance(g, tr[0].c.clk)
  {
    hide SysInv, Traced, Inner;
    assert May(g, tr[n - 1], ops[n - 1]) && tr[n - 1 + 1] == Step(g, tr[n - 1], ops[n - 1]);
    if n == 1 {
      TracedBegin(g, tr[0]);
    } else {
      hide May, Step;
      TracedRun(g, tr, ops, n - 1);
      RunsKeepInv(g, tr, ops, n - 1);
      TracedStep(g, tr[0].c.tm, tr[n - 1], ops[n - 1]);
    }
  }

  lemma TracedBegin(g: Config, s: Sys)
    requires May(g, s, OnKernel(Begin))
    ensures var c := Step(g, s, OnKernel(Begin)).c; Traced(s.c.tm, c) && c.clk == Advance(g, s.c.clk)
  {
  }

  // ----- nothing is forgotten -----

  /** Event e of block x is queued. */
  ghost predicate Queued(c: Core, x: Blk, e: Ev) { x in c.tm && c.tm[x] == e }

  /** Step k of the run is a service call that takes the event back. */
  ghost predicate TakenBack(tr: seq<Sys>, ops: seq<Op>, k: nat, x: Blk, e: Ev)
    requires k < |ops| && |tr| == |ops| + 1
  {
    Queued(tr[k].c, x, e) && !Queued(tr[k + 1].c, x, e) && Stopped(ops[k], x, tr[k + 1].c.tm)
  }

  /** A step other than the end of a tick keeps an event, fires it, or takes it back. */
  lemma FateStep(g: Config, s: Sys, op: Op, x: Blk, e: Ev)
    requires SysInv(g, s) && May(g, s, op) && Inner(op) && Queued(s.c, x, e)
    ensures var c' := Step(g, s, op).c;
            Queued(c', x, e) || Fired(x, e.time) in c'.fired || (!Queued(c', x, e) && Stopped(op, x, c'.tm))
  {
    hide Inv, ObjectsInv, Fire, MayFire;
    if !op.OnKernel? {
      CallFrame(g, s, op);
    } else {
      match op.kop
      case FireTop(b) => FireOk(g, s.c, b); FiredTimers(g, s.c, b);
      case Enter =>
      case Exit =>
    }
  }

  lemma LogGrows(g: Config, s: Sys, op: Op, f: Fired)
    requires SysInv(g, s) && May(g, s, op) && Inner(op) && f in s.c.fired
    ensures f in Step(g, s, op).c.fired
  {
    hide Inv, ObjectsInv, Fire, MayFire;
    if !op.OnKernel? {
      CallStepOk(g, s, op);
    } else {
      match op.kop
      case FireTop(b) => FireOk(g, s.c, b);
      case Enter =>
      case Exit =>
    }
  }

  /** The fate of an event that is queued at any moment of a tick: later in the tick it is still queued,
      or it has fired at its time, or a service call has taken it back. */
  lemma {:induction false} EventFate(g: Config, tr: seq<Sys>, ops: seq<Op>, m: nat, n: nat, x: Blk, e: Ev)
    requires IsRun(g, tr, ops) && SysInv(g, tr[0]) && m <= n <= |ops| && AllInner(ops, m, n) && Queued(tr[m].c, x, e)
    ensures || Queued(tr[n].c, x, e) || Fired(x, e.time) in tr[n].c.fired
            || exists k :: m <= k < n && TakenBack(tr, ops, k, x, e)
  {
    hide SysInv, Queued, Stopped, Inner, May, Step;
    if n > m {
      EventFate(g, tr, ops, m, n - 1, x, e);
      RunsKeepInv(g, tr, ops, n - 1);
      assert tr[n - 1 + 1] == Step(g, tr[n - 1], ops[n - 1]);
      if Fired(x, e.time) in tr[n - 1].c.fired {
        LogGrows(g, tr[n - 1], ops[n - 1], Fired(x, e.time));
      } else if Queued(tr[n - 1].c, x, e) {
        FateStep(g, tr[n - 1], ops[n - 1], x, e);
        assert Queued(tr[n].c, x, e) || Fired(x, e.time) in tr[n].c.fired || TakenBack(tr, ops, n - 1, x, e);
      }
    }
  }

  // ----- the whole tick -----

  /** What happens in a tick is exact: what fires was queued when the tick began and is due, at its own
      time, or, for a cyclic handler, is one of its repetitions, each of them once; and what was queued
      and is due has fired, unless a service call took it back, and what is not due stays. */
  ghost predicate Exact(tr: seq<Sys>, ops: seq<Op>)
    requires |tr| == |ops| + 1
  {
    var tm, c := tr[0].c.tm, tr[|ops|].c;
    && (forall f :: f in c.fired ==> Stems(tm, f.b, f.time) && f.time <= c.clk.cur)
    && OnceEach(c.fired)
    && (forall x :: x in tm ==>
          || (if tm[x].time <= c.clk.cur then Fired(x, tm[x].time) in c.fired else Queued(c, x, tm[x]))
          || exists k :: 0 <= k < |ops| && TakenBack(tr, ops, k, x, tm[x]))
  }

  lemma TickExact(g: Config, tr: seq<Sys>, ops: seq<Op>)
    requires IsRun(g, tr, ops) && SysInv(g, tr[0]) && IsTick(ops)
    ensures Exact(tr, ops) && tr[|ops|].c.clk.cur == Advance(g, tr[0].c.clk).cur
    ensures forall x :: x in tr[|ops|].c.tm ==> tr[|ops|].c.tm[x].time > tr[|ops|].c.clk.cur
  {
    hide SysInv, Stopped, Inner, Advance;
    var n := |ops| - 1;
    var tm, c := tr[0].c.tm, tr[n].c;
    TracedRun(g, tr, ops, n);
    LastStep(g, tr, ops);
    assert May(g, tr[0], ops[0]) && tr[0 + 1] == Step(g, tr[0], ops[0]);
    forall x | x in tm
      ensures || (if tm[x].time <= c.clk.cur then Fired(x, tm[x].time) in c.fired else Queued(c, x, tm[x]))
              || exists k :: 0 <= k < n && TakenBack(tr, ops, k, x, tm[x])
    {
      EventFate(g, tr, ops, 1, n, x, tm[x]);
    }
  }

  /** A cyclic handler that has been called in a tick is called again in it if its next time is due as
      well, unless it is stopped or started anew before. */
  lemma CyclicRepeats(g: Config, tr: seq<Sys>, ops: seq<Op>, k: nat, i: nat)
    requires IsRun(g, tr, ops) && SysInv(g, tr[0]) && IsTick(ops) && k < |ops| && ops[k] == OnKernel(FireTop(CycBlk(i)))
    ensures i < |g.cyc| && CycBlk(i) in tr[k].c.tm && CycBlk(i) in tr[k + 1].c.tm
    ensures var e := tr[k + 1].c.tm[CycBlk(i)];
            && e.time == tr[k].c.tm[CycBlk(i)].time + g.cyc[i].cyctim
            && (e.time <= tr[|ops|].c.clk.cur ==>
                  || Fired(CycBlk(i), e.time) in tr[|ops|].c.fired
                  || exists j :: k < j < |ops| && TakenBack(tr, ops, j, CycBlk(i), e))
  {
    hide SysInv, Stopped, Inner, May, Step;
    RunsKeepInv(g, tr, ops, k);
    assert May(g, tr[k], ops[k]) && tr[k + 1] == Step(g, tr[k], ops[k]);
    CyclicNext(g, tr[k], i);
    EventFate(g, tr, ops, k + 1, |ops| - 1, CycBlk(i), tr[k + 1].c.tm[CycBlk(i)]);
    LastStep(g, tr, ops);
  }

  /** The last step of a tick ends it: nothing that is due is left, and the log stays. */
  lemma LastStep(g: Config, tr: seq<Sys>, ops: seq<Op>)
    requires IsRun(g, tr, ops) && IsTick(ops)
    ensures var c, c' := tr[|ops| - 1].c, tr[|ops|].c;
            && c'.fired == c.fired && c'.tm == c.tm && c'.clk.cur == c.clk.cur
            && forall x :: x in c.tm ==> c.tm[x].time > c.clk.cur
  {
    hide AllInner;
    var n := |ops| - 1;
    assert May(g, tr[n], ops[n]) && tr[n + 1] == Step(g, tr[n], ops[n]);
  }

  lemma CyclicNext(g: Config, s: Sys, i: nat)
    requires SysInv(g, s) && May(g, s, OnKernel(FireTop(CycBlk(i))))
    ensures i < |g.cyc| && CycBlk(i) in s.c.tm
    ensures var c' := Step(g, s, OnKernel(FireTop(CycBlk(i)))).c;
            CycBlk(i) in c'.tm && c'.tm[CycBlk(i)].time == s.c.tm[CycBlk(i)].time + g.cyc[i].cyctim
  {
  }
}
