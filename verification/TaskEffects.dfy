/** What the task service calls do, told by what can be observed -- control blocks, queues, timers, the
    processor -- and not by the transitions they are composed of. */
module TaskEffects {
  import opened Types
  import opened Seqs
  import opened TaskQueues
  import opened SystemClock
  import opened Core
  import opened CoreProofs
  import opened TaskCalls
  import opened TaskCallProofs
  import opened WaitQueues
  import opened CallLaws

  // ----- the words -----

  /** The dispatcher: in a task with dispatching allowed the scheduled task runs; a handler asks for a dispatch
      exactly if the scheduled task has changed; otherwise nothing happens. */
  ghost predicate Settled(c: Core, c': Core) {
    && c'.nest == c.nest && c'.drain == c.drain && c'.fired == c.fired && c'.clk == c.clk
    && c'.cyc == c.cyc && c'.alm == c.alm
    && c'.run == (if c.nest == 0 && c.fl.dspflg then TopOf(c') else c.run)
    && c'.fl.reqflg == (c.fl.reqflg || (c.nest > 0 && c.fl.dspflg && TopOf(c') != TopOf(c)))
    && c'.fl == c.fl.(reqflg := c'.fl.reqflg)
  }

  /** Task t has control block b; the others keep theirs, and their order in every queue. */
  ghost predicate Moves(c: Core, c': Core, t: Tid, b: TCB) {
    && t < |c.ts.tcb| && c'.ts.tcb == c.ts.tcb[t := b]
    && forall h :: Remove(At(c'.ts.q, h), t) == Remove(At(c.ts.q, h), t)
  }

  /** Task t has control block b; nothing else has changed. */
  ghost predicate Stays(c: Core, c': Core, t: Tid, b: TCB) {
    && t < |c.ts.tcb| && c'.ts.tcb == c.ts.tcb[t := b] && c'.ts.q == c.ts.q
    && c'.tm == c.tm && c'.run == c.run && c'.fl == c.fl && c'.nest == c.nest
  }

  /** Task t is the last of its priority. */
  ghost predicate LastReady(ts: Tasks, t: Tid) {
    && t < |ts.tcb|
    && var s := At(ts.q, Ready(ts.tcb[t].priority)); s != [] && s[|s| - 1] == t
  }

  /** The wait of task t ends with this code and these data, and its timer with it. */
  ghost predicate Ends(c: Core, c': Core, t: Tid, code: ER, d: WData) {
    && t < |c.ts.tcb| && c.ts.tcb[t].tstat.Waiting?
    && var b, susp := c.ts.tcb[t], c.ts.tcb[t].tstat.susp;
    && Moves(c, c', t, TCB(if susp then Suspended else Runnable, b.priority, b.actque, b.wupque, Wercd(code), d))
    && (!susp ==> LastReady(c'.ts, t))
    && c'.tm == c.tm - {TaskBlk(t)} && TaskBlk(t) !in c'.tm && Settled(c, c')
  }

  /** Where a queue takes in task t: at the end, or, if the queue is in the order of priorities, behind all
      of at least its priority and before all others. */
  ghost predicate JoinsAt(g: Config, tcb: seq<TCB>, wq: WQ, q: seq<Tid>, q': seq<Tid>, t: Tid, k: nat) {
    && t < |tcb| && k <= |q| && q' == q[..k] + [t] + q[k..]
    && if !Tpri(g, wq) then k == |q|
       else && (forall j :: 0 <= j < k ==> q[j] < |tcb| && tcb[q[j]].priority <= tcb[t].priority)
            && (forall j :: k <= j < |q| ==> q[j] < |tcb| && tcb[t].priority < tcb[q[j]].priority)
  }

  ghost predicate Joins(g: Config, c: Core, c': Core, wq: WQ, t: Tid) {
    exists k: nat :: JoinsAt(g, c'.ts.tcb, wq, WaitQ(c, wq), WaitQ(c', wq), t, k)
  }

  /** The running task waits for why, holding d, with a timer for tmo ms if tmo is positive. */
  ghost predicate Sleeps(g: Config, c: Core, c': Core, why: Why, d: WData, tmo: int) {
    && c.run.Some? && c.run.value < |c.ts.tcb|
    && var t, b := c.run.value, c.ts.tcb[c.run.value];
    && Moves(c, c', t, TCB(Waiting(why, false), b.priority, b.actque, b.wupque, Timer(tmo > 0), d))
    && (why.Obj? ==> t !in WaitQ(c, why.wq) && Joins(g, c, c', why.wq, t))
    && TaskBlk(t) !in c.tm && c'.run != Some(t) && Settled(c, c')
    && if tmo > 0
       then c'.tm == c.tm[TaskBlk(t) := Ev(Base(c.clk) + tmo, WaitTmout(t), c.clk.ticks, tmo)]
       else c'.tm == c.tm
  }

  /** The rule of all calls that may wait: may says whether the caller may call at all, ready whether it can
      have at once what it asks for. */
  function Outcome(may: bool, p: Patience, ready: bool): ER {
    if !may then E_CTX
    else if p.Tmo? && p.tmo < -1 then E_PAR
    else if ready then E_OK
    else if p.Polling? || p.tmo == 0 then E_TMOUT
    else BLOCKED
  }

  // ----- the transitions -----

  lemma FinishSettles(c: Core, c1: Core)
    requires DispInv(c) && c1 == c.(ts := c1.ts, tm := c1.tm)
    ensures Settled(c, Finish(c1, Req(c, c1)))
  {
  }

  lemma SetTaskMoves(g: Config, c: Core, t: Tid, b: TCB)
    requires Linked(c.ts) && t < |c.ts.tcb|
    ensures Moves(c, SetTask(g, c, t, b), t, b)
    ensures b.tstat.Runnable? ==> LastReady(SetTask(g, c, t, b).ts, t)
  {
    hide Linked, Remove;
    forall h ensures Remove(At(SetTask(g, c, t, b).ts.q, h), t) == Remove(At(c.ts.q, h), t) {
      OthersKeepOrder(g, c.ts, t, b, h);
    }
  }

  lemma WakeEnds(g: Config, c: Core, t: Tid, code: ER, d: WData)
    requires Inv(g, c) && t < |c.ts.tcb| && c.ts.tcb[t].tstat.Waiting?
    ensures var c1 := Wake(g, c, t, code, d); Ends(c, Finish(c1, Req(c, c1)), t, code, d)
  {
    hide Sorted, TimersInv, TimeInv, Linked, Rehome, Top, Remove, DispInv;
    SetTaskMoves(g, c, t, Woken(c.ts.tcb[t], code, d));
    FinishSettles(c, Wake(g, c, t, code, d));
  }

  lemma BlockJoins(g: Config, c: Core, wq: WQ, d: WData, timer: Option<nat>)
    requires Inv(g, c) && MayBlock(c)
    ensures c.run.value < |c.ts.tcb| && c.run.value !in WaitQ(c, wq)
    ensures Joins(g, c, Block(g, c, Obj(wq), d, timer), wq, c.run.value)
  {
    hide Block, TimersInv, TimeInv, Linked, Remove, SortedBy;
    HasQueue(g, c, wq);
    WaitersAreWaiting(c, wq);
    BlockQueues(g, c, wq, d, timer);
    var t, c', q := c.run.value, Block(g, c, Obj(wq), d, timer), WaitQ(c, wq);
    BlockPriorities(g, c, wq, d, timer);
    if Tpri(g, wq) {
      assert ByPriority(g, Wait(wq));
      forall j | 0 <= j < |q| ensures q[j] < |c.ts.tcb| && q[j] != t { assert q[j] in q; }
      SortedFrame(c.ts.tcb, c'.ts.tcb, q);
      PriPosSplits(c'.ts.tcb, q, Prio(c'.ts.tcb, t));
      assert JoinsAt(g, c'.ts.tcb, wq, q, WaitQ(c', wq), t, PriPos(c'.ts.tcb, q, Prio(c'.ts.tcb, t)));
    } else {
      assert q[..|q|] + [t] + q[|q|..] == q + [t];
      assert JoinsAt(g, c'.ts.tcb, wq, q, WaitQ(c', wq), t, |q|);
    }
  }

  lemma BlockPriorities(g: Config, c: Core, wq: WQ, d: WData, timer: Option<nat>)
    requires c.run.Some? && c.run.value < |c.ts.tcb|
    ensures var c' := Block(g, c, Obj(wq), d, timer);
            && |c'.ts.tcb| == |c.ts.tcb|
            && forall u :: 0 <= u < |c.ts.tcb| ==> c'.ts.tcb[u].priority == c.ts.tcb[u].priority
  {
  }

  lemma BlockMoves(g: Config, c: Core, why: Why, d: WData, timer: Option<nat>)
    requires Inv(g, c) && MayBlock(c)
    ensures RunsTask(c) && TaskBlk(c.run.value) !in c.tm
    ensures var t, b := c.run.value, c.ts.tcb[c.run.value];
            Moves(c, Block(g, c, why, d, timer), t,
                  TCB(Waiting(why, false), b.priority, b.actque, b.wupque, Timer(timer.Some?), d))
  {
    hide Sorted, TimeInv, CycTimers, AlmTimers, Linked, Rehome, Remove;
    NotTimed(g, c, c.run.value);
    var b := c.ts.tcb[c.run.value].(tstat := Waiting(why, false), winfo := Timer(timer.Some?), wdata := d);
    SetTaskMoves(g, c, c.run.value, b);
  }

  lemma BlockSettles(g: Config, c: Core, why: Why, d: WData, timer: Option<nat>)
    requires Inv(g, c) && MayBlock(c) && RunsTask(c)
    ensures var t, c' := c.run.value, Block(g, c, why, d, timer);
            && Settled(c, c')
            && c'.tm == if timer.None? then c.tm
                        else c.tm[TaskBlk(t) := Ev(Base(c.clk) + timer.value,
                                                   if why.Dly? then WaitTmoutOk(t) else WaitTmout(t),
                                                   c.clk.ticks, timer.value)]
  {
    hide Good, Rehome, Top;
  }

  lemma SleeperIsOut(g: Config, c: Core, why: Why, d: WData, timer: Option<nat>)
    requires Inv(g, c) && MayBlock(c) && BlockArgs(why, timer) && RunsTask(c)
    ensures Block(g, c, why, d, timer).run != Some(c.run.value)
  {
    hide Good, Block, Remove;
    var c' := Block(g, c, why, d, timer);
    BlockInv(g, c, why, d, timer);
    BlockMoves(g, c, why, d, timer);
    RunnerRunnable(g, c');
  }

  lemma RunnerRunnable(g: Config, c: Core)
    requires Inv(g, c)
    ensures c.run.Some? ==> IsRunnable(c, c.run.value)
  {
  }

  lemma BlockSleeps(g: Config, c: Core, why: Why, d: WData, p: Patience)
    requires Inv(g, c) && MayBlock(c) && p.Tmo? && p.tmo <= TMAX_RELTIM && !why.Dly?
    ensures c.run.value < |c.ts.tcb| && Sleeps(g, c, Block(g, c, why, d, TimerOf(p)), why, d, p.tmo)
  {
    hide Inv, Block, Moves, Settled, Joins;
    BlockMoves(g, c, why, d, TimerOf(p));
    BlockSettles(g, c, why, d, TimerOf(p));
    SleeperIsOut(g, c, why, d, TimerOf(p));
    if why.Obj? { BlockJoins(g, c, why.wq, d, TimerOf(p)); }
  }

  // ----- task_manage.c -----

  /** A dormant task starts behind the others of its priority; for another one the activation is queued,
      once. */
  lemma ActTskDoes(g: Config, c: Core, t: Tid)
    requires Inv(g, c) && IsTask(c, t) && Live(c)
    ensures var (c', er) := ActTsk(g, c, t); var b := c.ts.tcb[t];
            if b.tstat.Dormant? then
              && er == E_OK && Moves(c, c', t, b.(tstat := Runnable)) && LastReady(c'.ts, t)
              && c'.tm == c.tm && Settled(c, c')
            else er == (if b.actque then E_QOVR else E_OK) && Stays(c, c', t, b.(actque := true))
  {
    hide Linked, Sorted, TimersInv, TimeInv, DispInv, Rehome, Remove, LastReady, Top;
    SetTaskMoves(g, c, t, c.ts.tcb[t].(tstat := Runnable));
    FinishSettles(c, Activate(g, c, t));
  }

  /** The number of queued activations, which are cancelled. */
  lemma CanActDoes(g: Config, c: Core, t: Tid)
    requires IsTask(c, t) && InTask(c)
    ensures var (c', er, n) := CanAct(g, c, t); var b := c.ts.tcb[t];
            er == E_OK && n == (if b.actque then 1 else 0) && Stays(c, c', t, b.(actque := false))
  {
  }

  /** How a task ends: with its initial priority, no queued wakeup and no timer; and if its activation was
      queued, it starts again, behind the others of that priority. */
  ghost predicate Terminated(g: Config, c: Core, c': Core, t: Tid) {
    && t < |c.ts.tcb| && t < |g.ipri|
    && var b, again := c.ts.tcb[t], c.ts.tcb[t].actque;
    && Moves(c, c', t, TCB(if again then Runnable else Dormant, g.ipri[t], false, false, b.winfo, b.wdata))
    && (again ==> LastReady(c'.ts, t))
    && c'.tm == c.tm - {TaskBlk(t)} && TaskBlk(t) !in c'.tm
  }

  lemma EndsWell(g: Config, c: Core, t: Tid)
    requires ValidConfig(g) && Good(g, c) && IsTask(c, t)
    ensures Terminated(g, c, Reactivate(g, Terminate(g, c, t), t), t)
  {
    hide Sorted, TimersInv, TimeInv, Rehome, Remove, Linked, LastReady;
    var c1 := Terminate(g, c, t);
    SetTaskMoves(g, c, t, Initial(g, c.ts.tcb[t], t));
    TerminateGood(g, c, t);
    if c.ts.tcb[t].actque {
      var c2 := Mark(c1, t, c1.ts.tcb[t].(actque := false));
      MarkGood(g, c1, t, c1.ts.tcb[t].(actque := false));
      SetTaskMoves(g, c2, t, c2.ts.tcb[t].(tstat := Runnable));
    }
  }

  lemma TerTskDoes(g: Config, c: Core, t: Tid)
    requires Inv(g, c) && IsTask(c, t) && InTask(c)
    ensures var (c', er) := TerTsk(g, c, t);
            if c.run == Some(t) then er == E_ILUSE && c' == c
            else if c.ts.tcb[t].tstat.Dormant? then er == E_OBJ && c' == c
            else er == E_OK && Terminated(g, c, c', t) && Settled(c, c')
  {
    hide Linked, Sorted, TimersInv, TimeInv, Terminate, Reactivate, Terminated, Top;
    if c.run != Some(t) && !c.ts.tcb[t].tstat.Dormant? {
      EndsWell(g, c, t);
      TerTskDiscardsFalse(g, c, t);
      TerminateQuiet(g, c, t);
      var c1 := Terminate(g, c, t);
      var c2 := Reactivate(g, c1, t);
      FinishTerminated(g, c, c2, t, Req(c1, c2));
    }
  }

  lemma FinishTerminated(g: Config, c: Core, c2: Core, t: Tid, req: bool)
    requires Terminated(g, c, c2, t)
    ensures Terminated(g, c, Finish(c2, req), t)
  {
  }

  lemma TerminateQuiet(g: Config, c: Core, t: Tid)
    requires IsTask(c, t) && t < |g.ipri|
    ensures IsTask(Terminate(g, c, t), t)
    ensures var c1 := Terminate(g, c, t);
            var c2 := Reactivate(g, c1, t);
            c1 == c.(ts := c1.ts, tm := c1.tm) && c2 == c.(ts := c2.ts, tm := c2.tm)
  {
  }

  /** The running task ends, and dispatching is enabled again in every respect. */
  lemma ExtTskDoes(g: Config, c: Core)
    requires Inv(g, c) && InTask(c)
    ensures RunsTask(c)
    ensures var (c', er) := ExtTsk(g, c);
            && er == BLOCKED && Terminated(g, c, c', c.run.value)
            && c'.fl == Flags(false, true, false, true) && c'.run == TopOf(c')
            && c' == c.(ts := c'.ts, tm := c'.tm, run := c'.run, fl := c'.fl)
  {
    hide Linked, Sorted, TimersInv, Terminate, Reactivate, Remove, Top;
    var c0 := c.(fl := Flags(c.fl.reqflg, true, false, true));
    GoodFrame(g, c, c0);
    EndsWell(g, c0, c.run.value);
    TerminateQuiet(g, c0, c.run.value);
  }

  predicate Queues(b: TCB) { b.tstat.Waiting? && b.tstat.why.Obj? }

  /** Task t takes a new place in the queue in which it waits, if its order is that of priorities. */
  ghost predicate Rejoins(g: Config, ts: Tasks, ts': Tasks, t: Tid, wq: WQ) {
    var q, q' := At(ts.q, Wait(wq)), At(ts'.q, Wait(wq));
    if Tpri(g, wq) then exists k: nat :: JoinsAt(g, ts'.tcb, wq, Remove(q, t), q', t, k) else q' == q
  }

  /** The task gets the priority, TPRI_INI meaning its initial one; runnable it is the last of it, and on a
      TA_TPRI queue it moves to the place of its new priority. */
  lemma ChgPriDoes(g: Config, c: Core, t: Tid, tskpri: int)
    requires Inv(g, c) && InTask(c) && IsTask(c, t) && |c.ts.tcb| == |g.ipri| && 0 <= tskpri <= TNUM_TPRI
    ensures var (c', er) := ChgPri(g, c, t, tskpri);
            if c.ts.tcb[t].tstat.Dormant? then er == E_OBJ && c' == c
            else
              && er == E_OK && c'.tm == c.tm && Settled(c, c')
              && Moves(c, c', t, c.ts.tcb[t].(priority := if tskpri == 0 then g.ipri[t] else tskpri - 1))
              && (c.ts.tcb[t].tstat.Runnable? ==> LastReady(c'.ts, t))
              && (Queues(c.ts.tcb[t]) ==> Rejoins(g, c.ts, c'.ts, t, c.ts.tcb[t].tstat.why.wq))
  {
    hide Sorted, TimersInv, TimeInv, DispInv, Rehome, Remove, LastReady, Top, Rejoins, Linked;
    if !c.ts.tcb[t].tstat.Dormant? {
      var pri := if tskpri == 0 then g.ipri[t] else tskpri - 1;
      var b := c.ts.tcb[t].(priority := pri);
      SetTaskMoves(g, c, t, b);
      FinishSettles(c, ChangePriority(g, c, t, pri));
      if Queues(b) { if Tpri(g, b.tstat.why.wq) { RequeuedAt(g, c, t, b); } else { InPlace(g, c, t, b); } }
    }
  }

  lemma InPlace(g: Config, c: Core, t: Tid, b: TCB)
    requires t < |c.ts.tcb| && Queues(b) && !Tpri(g, b.tstat.why.wq)
    ensures Moves(c, Mark(c, t, b), t, b) && Rejoins(g, c.ts, Mark(c, t, b).ts, t, b.tstat.why.wq)
  {
  }

  lemma Requeued(g: Config, c: Core, t: Tid, b: TCB, wq: WQ)
    requires t < |c.ts.tcb| && Home(b) == Some(Wait(wq)) == Home(c.ts.tcb[t]) && Tpri(g, wq)
    ensures var c' := SetTask(g, c, t, b);
            c'.ts.tcb == c.ts.tcb[t := b] && WaitQ(c', wq) == InsertPri(c'.ts.tcb, Remove(WaitQ(c, wq), t), t)
  {
  }

  /** Where a task with a new priority goes in the queue in which it waits. */
  lemma RequeuedAt(g: Config, c: Core, t: Tid, b: TCB)
    requires Good(g, c) && t < |c.ts.tcb| && b == c.ts.tcb[t].(priority := b.priority)
    requires b.tstat.Waiting? && b.tstat.why.Obj? && Tpri(g, b.tstat.why.wq)
    ensures Rejoins(g, c.ts, SetTask(g, c, t, b).ts, t, b.tstat.why.wq)
  {
    hide TimersInv, TimeInv, Remove, SetTask;
    var wq := b.tstat.why.wq;
    var q, q0, c' := Remove(WaitQ(c, wq), t), WaitQ(c, wq), SetTask(g, c, t, b);
    Requeued(g, c, t, b, wq);
    WaitersAreWaiting(c, wq);
    RemoveMembers(q0, t);
    assert ByPriority(g, Wait(wq));
    RemoveSorted(c.ts.tcb, q0, t);
    forall j | 0 <= j < |q| ensures q[j] < |c.ts.tcb| && q[j] != t { assert q[j] in q; }
    SortedFrame(c.ts.tcb, c'.ts.tcb, q);
    PriPosSplits(c'.ts.tcb, q, b.priority);
    assert JoinsAt(g, c'.ts.tcb, wq, q, WaitQ(c', wq), t, PriPos(c'.ts.tcb, q, b.priority));
  }

  // ----- task_sync.c -----

  /** A queued wakeup is taken; otherwise the caller sleeps, for the time it says. */
  lemma SlpTskDoes(g: Config, c: Core, p: Patience)
    requires Inv(g, c) && p.Tmo? && TmoType(p)
    ensures RunsTask(c)
    ensures var (c', er) := SlpTsk(g, c, p); var early := c.run.Some? && c.ts.tcb[c.run.value].wupque;
            && er == Outcome(MayBlock(c), p, early)
            && (er == E_OK ==> Stays(c, c', c.run.value, c.ts.tcb[c.run.value].(wupque := false)))
            && (er == BLOCKED ==> Sleeps(g, c, c', Slp, NoData, p.tmo))
            && (er != E_OK && er != BLOCKED ==> c' == c)
  {
    hide Good, DispInv, Block, Sleeps;
    HasRun(g, c);
    if MayBlock(c) { BlockSleeps(g, c, Slp, NoData, p); }
  }

  lemma HasRun(g: Config, c: Core)
    requires Inv(g, c)
    ensures RunsTask(c)
  {
  }

  /** A sleeping task wakes up; for another one the wakeup is queued, once. */
  lemma WupTskDoes(g: Config, c: Core, t: Tid)
    requires Inv(g, c) && IsTask(c, t) && Live(c)
    ensures var (c', er) := WupTsk(g, c, t); var b := c.ts.tcb[t];
            if b.tstat.Dormant? then er == E_OBJ && c' == c
            else if b.tstat.Waiting? && b.tstat.why.Slp? then er == E_OK && Ends(c, c', t, E_OK, b.wdata)
            else er == (if b.wupque then E_QOVR else E_OK) && Stays(c, c', t, b.(wupque := true))
  {
    hide Good, DispInv, Wake, Ends;
    if c.ts.tcb[t].tstat.Waiting? { WakeEnds(g, c, t, E_OK, c.ts.tcb[t].wdata); }
  }

  lemma CanWupDoes(g: Config, c: Core, t: Tid)
    requires IsTask(c, t) && InTask(c) && !c.ts.tcb[t].tstat.Dormant?
    ensures var (c', er, n) := CanWup(g, c, t); var b := c.ts.tcb[t];
            er == E_OK && n == (if b.wupque then 1 else 0) && Stays(c, c', t, b.(wupque := false))
  {
  }

  /** Any wait ends with E_RLWAI. */
  lemma RelWaiDoes(g: Config, c: Core, t: Tid)
    requires Inv(g, c) && IsTask(c, t) && Live(c)
    ensures var (c', er) := RelWai(g, c, t); var b := c.ts.tcb[t];
            if b.tstat.Waiting? then er == E_OK && Ends(c, c', t, E_RLWAI, b.wdata) else er == E_OBJ && c' == c
  {
    hide Good, DispInv, Wake, Ends;
    if c.ts.tcb[t].tstat.Waiting? { WakeEnds(g, c, t, E_RLWAI, c.ts.tcb[t].wdata); }
  }

  /** A runnable task leaves the ready queue, a waiting one goes on waiting. */
  lemma SusTskDoes(g: Config, c: Core, t: Tid)
    requires Inv(g, c) && IsTask(c, t) && InTask(c) && (c.run == Some(t) ==> c.fl.dspflg)
    ensures var (c', er) := SusTsk(g, c, t); var b := c.ts.tcb[t];
            match b.tstat
            case Dormant => er == E_OBJ && c' == c
            case Suspended => er == E_QOVR && c' == c
            case Runnable =>
              er == E_OK && Moves(c, c', t, b.(tstat := Suspended)) && c'.tm == c.tm && Settled(c, c')
            case Waiting(why, susp) =>
              er == (if susp then E_QOVR else E_OK) && Stays(c, c', t, b.(tstat := Waiting(why, true)))
  {
    hide Linked, Sorted, TimersInv, TimeInv, DispInv, Rehome, Remove, Top;
    SetTaskMoves(g, c, t, c.ts.tcb[t].(tstat := Suspended));
    FinishSettles(c, SetTask(g, c, t, c.ts.tcb[t].(tstat := Suspended)));
  }

  /** A suspended task is runnable again, behind the others of its priority. */
  lemma RsmTskDoes(g: Config, c: Core, t: Tid)
    requires Inv(g, c) && IsTask(c, t) && InTask(c)
    ensures var (c', er) := RsmTsk(g, c, t); var b := c.ts.tcb[t];
            match b.tstat
            case Suspended =>
              && er == E_OK && Moves(c, c', t, b.(tstat := Runnable)) && LastReady(c'.ts, t)
              && c'.tm == c.tm && Settled(c, c')
            case Waiting(why, susp) =>
              er == (if susp then E_OK else E_OBJ) && Stays(c, c', t, b.(tstat := Waiting(why, false)))
            case _ => er == E_OBJ && c' == c
  {
    hide Linked, Sorted, TimersInv, TimeInv, DispInv, Rehome, Remove, LastReady, Top;
    SetTaskMoves(g, c, t, c.ts.tcb[t].(tstat := Runnable));
    FinishSettles(c, Activate(g, c, t));
  }

  /** The delay is registered for exactly the time asked for, and its end will be reported as E_OK. */
  lemma DlyTskDoes(g: Config, c: Core, dlytim: nat)
    requires Inv(g, c) && MayBlock(c)
    ensures RunsTask(c)
    ensures var (c', er) := DlyTsk(g, c, dlytim); var t := c.run.value; var b := c.ts.tcb[t];
            if dlytim > TMAX_RELTIM then er == E_PAR && c' == c
            else
              && er == BLOCKED && c'.run != Some(t) && Settled(c, c') && TaskBlk(t) !in c.tm
              && Moves(c, c', t, b.(tstat := Waiting(Dly, false), winfo := Timer(true), wdata := NoData))
              && c'.tm == c.tm[TaskBlk(t) := Ev(Base(c.clk) + dlytim, WaitTmoutOk(t), c.clk.ticks, dlytim)]
  {
    hide Inv, Block, Moves, Settled;
    BlockMoves(g, c, Dly, NoData, Some(dlytim));
    if dlytim <= TMAX_RELTIM {
      BlockSettles(g, c, Dly, NoData, Some(dlytim));
      SleeperIsOut(g, c, Dly, NoData, Some(dlytim));
    }
  }

  // ----- sys_manage.c, interrupt.c -----

  /** The ready queue of the priority asked for, that of the caller if it is TPRI_SELF, is rotated by one, and
      no other. */
  lemma RotRdqDoes(g: Config, c: Core, tskpri: int)
    requires Inv(g, c) && Live(c)
    ensures RunsTask(c)
    ensures var (c', er) := RotRdq(g, c, tskpri);
            if !((if c.nest == 0 then 0 else 1) <= tskpri <= TNUM_TPRI) then er == E_PAR && c' == c
            else
              var pri := if tskpri == 0 then c.ts.tcb[c.run.value].priority else tskpri - 1;
              var s, s' := At(c.ts.q, Ready(pri)), At(c'.ts.q, Ready(pri));
              && er == E_OK && c'.ts.tcb == c.ts.tcb && c'.tm == c.tm && Settled(c, c')
              && (if s == [] then s' == [] else s' == s[1..] + [s[0]])
              && forall h :: h != Ready(pri) ==> At(c'.ts.q, h) == At(c.ts.q, h)
  {
    hide Good, DispInv, Top;
    HasRun(g, c);
    if (if c.nest == 0 then 0 else 1) <= tskpri <= TNUM_TPRI {
      var pri := if tskpri == 0 then c.ts.tcb[c.run.value].priority else tskpri - 1;
      FinishSettles(c, c.(ts := Rotate(c.ts, pri)));
    }
  }

  /** The running task, while dispatching is allowed, is the first of its priority, and there is nobody above. */
  lemma RunnerLeads(g: Config, c: Core)
    requires Inv(g, c) && MayBlock(c)
    ensures RunsTask(c) && c.ts.tcb[c.run.value].priority < TNUM_TPRI
    ensures var p := c.ts.tcb[c.run.value].priority;
            FirstReady(c.ts.q, 0, p) && At(c.ts.q, Ready(p))[0] == c.run.value
  {
    hide Sorted, TimersInv, TimeInv;
    var p :| 0 <= p < TNUM_TPRI && FirstReady(c.ts.q, 0, p) && At(c.ts.q, Ready(p))[0] == c.run.value;
    assert On(c.ts.q, Ready(p), c.run.value);
  }

  /** With TPRI_SELF the caller gives the processor to the next task of its priority. */
  lemma RotationYields(g: Config, c: Core)
    requires Inv(g, c) && MayBlock(c)
    ensures RunsTask(c)
    ensures var t := c.run.value; var s := At(c.ts.q, Ready(c.ts.tcb[t].priority));
            s != [] && s[0] == t && (|s| > 1 ==> RotRdq(g, c, 0).0.run == Some(s[1]))
  {
    hide Inv, RotRdq, At, Top;
    RunnerLeads(g, c);
    RotRdqDoes(g, c, 0);
    var p := c.ts.tcb[c.run.value].priority;
    var s, q' := At(c.ts.q, Ready(p)), RotRdq(g, c, 0).0.ts.q;
    if |s| > 1 {
      forall p' | 0 <= p' < p ensures At(q', Ready(p')) == [] { assert At(c.ts.q, Ready(p')) == []; }
      TopIs(q', p);
    }
  }

  /** disdsp is the flag of dis_dsp and ena_dsp, ipmflg that of chg_ipm; dispatching is allowed when neither
      forbids it, and then the scheduled task runs. */
  lemma SwitchesDo(g: Config, c: Core, enaall: bool)
    requires Inv(g, c) && InTask(c)
    ensures DisDsp(c) == (c.(fl := Flags(false, c.fl.ipmflg, true, false)), E_OK)
    ensures EnaDsp(c) == (c.(fl := Flags(false, c.fl.ipmflg, false, c.fl.ipmflg),
                             run := if c.fl.ipmflg then TopOf(c) else c.run), E_OK)
    ensures ChgIpm(c, enaall) == (c.(fl := Flags(false, enaall, c.fl.disdsp, enaall && !c.fl.disdsp),
                                     run := if enaall && !c.fl.disdsp then TopOf(c) else c.run), E_OK)
  {
    hide Good, Top;
  }

  /** An interrupt after which nothing is asked for leaves no trace. */
  lemma ExitUndoesEnter(g: Config, c: Core)
    requires Inv(g, c)
    ensures MayExit(IntEnter(c)) && IntExit(IntEnter(c)) == c
  {
    hide Good, Top;
    DrainNest(g, c);
  }

  lemma DrainNest(g: Config, c: Core)
    requires Inv(g, c)
    ensures c.drain.Some? ==> c.drain.value <= c.nest
  {
  }

  /** At the exit of the outermost handler the scheduled task gets the processor, if dispatching is allowed. */
  lemma IntExitDoes(g: Config, c: Core)
    requires Inv(g, c) && MayExit(c)
    ensures var c' := IntExit(c); var last := c.nest == 1;
            && c' == c.(nest := c.nest - 1, run := c'.run, fl := c.fl.(reqflg := c.fl.reqflg && !last))
            && c'.run == if last && c.fl.dspflg then TopOf(c) else c.run
  {
    hide Good, Top;
  }

  /** Calls in the wrong context are refused and change nothing. */
  lemma WrongContext(g: Config, c: Core, t: Tid, p: Patience, n: int, d: nat)
    requires Inv(g, c) && IsTask(c, t) && p.Tmo?
    ensures RunsTask(c)
    ensures !Live(c) ==> (c, E_CTX) == ActTsk(g, c, t) == WupTsk(g, c, t) == RelWai(g, c, t) == RotRdq(g, c, n)
    ensures !InTask(c) ==> (c, E_CTX) == ExtTsk(g, c) == TerTsk(g, c, t) == ChgPri(g, c, t, n) == SusTsk(g, c, t)
                                      == RsmTsk(g, c, t) == DisDsp(c) == EnaDsp(c) == ChgIpm(c, true)
    ensures !InTask(c) ==> (c, E_CTX, 0) == CanAct(g, c, t) == CanWup(g, c, t)
    ensures !MayBlock(c) ==> (c, E_CTX) == SlpTsk(g, c, p) == DlyTsk(g, c, d)
    ensures c.run == Some(t) && !c.fl.dspflg ==> SusTsk(g, c, t) == (c, E_CTX)
  {
    hide Good;
    HasRun(g, c);
  }

  // ----- calls one after the other -----

  /** An accepted activation is not lost: a task that is activated while it is active, and then terminated,
      starts once more, and only once. */
  lemma QueuedActivationStarts(g: Config, c: Core, t: Tid)
    requires Inv(g, c) && InTask(c) && IsTask(c, t) && c.run != Some(t) && !c.ts.tcb[t].tstat.Dormant?
    ensures var c1 := ActTsk(g, c, t).0; IsTask(c1, t) && |c1.ts.tcb| == |g.ipri|
    ensures var c1 := ActTsk(g, c, t).0; var (c2, er) := TerTsk(g, c1, t);
            && er == E_OK && IsTask(c2, t) && c2.ts.tcb[t].tstat.Runnable? && LastReady(c2.ts, t)
            && !c2.ts.tcb[t].actque && c2.ts.tcb[t].priority == g.ipri[t]
  {
    hide Terminated, Settled, LastReady, ActTsk, TerTsk, Moves;
    ActTskOk(g, c, t);
    ActTskDoes(g, c, t);
    var c1 := ActTsk(g, c, t).0;
    TerTskDoes(g, c1, t);
    RestartedRunnable(g, c1, TerTsk(g, c1, t).0, t);
  }

  lemma RestartedRunnable(g: Config, c: Core, c': Core, t: Tid)
    requires Terminated(g, c, c', t) && c.ts.tcb[t].actque
    ensures IsTask(c', t) && c'.ts.tcb[t].tstat.Runnable? && LastReady(c'.ts, t)
    ensures !c'.ts.tcb[t].actque && c'.ts.tcb[t].priority == g.ipri[t]
  {
  }

  /** Suspending and resuming a runnable task puts it behind the others of its priority. */
  lemma ResumedGoesLast(g: Config, c: Core, t: Tid)
    requires Inv(g, c) && InTask(c) && IsTask(c, t) && c.ts.tcb[t].tstat.Runnable? && c.run != Some(t)
    ensures IsTask(SusTsk(g, c, t).0, t)
    ensures var c1 := SusTsk(g, c, t).0; var (c2, er) := RsmTsk(g, c1, t);
            er == E_OK && c2.ts.tcb == c.ts.tcb && LastReady(c2.ts, t)
  {
    hide LastReady, SusTsk, RsmTsk;
    SusTskOk(g, c, t);
    SusTskDoes(g, c, t);
    var c1 := SusTsk(g, c, t).0;
    StillInTask(g, c, c1);
    RsmTskDoes(g, c1, t);
    assert c.ts.tcb[t := c1.ts.tcb[t]][t := c.ts.tcb[t]] == c.ts.tcb;
  }

  /** As long as a task is left that can run, the caller of a call does not leave the processor idle. */
  lemma StillInTask(g: Config, c: Core, c': Core)
    requires Inv(g, c) && InTask(c) && Linked(c'.ts) && Settled(c, c')
    requires |c'.ts.tcb| == |c.ts.tcb| && IsRunnable(c', c.run.value)
    ensures InTask(c')
  {
    hide Good;
    TopRunnable(c'.ts);
  }
}
