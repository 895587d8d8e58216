/** Time over whole runs of the kernel, from the call that asks for it: how long a timed wait, a delay or an
    alarm takes, how often a cyclic handler has been called, and that a stopped handler is not called. */
module TimedRuns {
  import opened Types
  import opened Seqs
  import opened TaskQueues
  import opened SystemClock
  import opened Core
  import opened CoreProofs
  import opened TaskCalls
  import opened TaskCallProofs
  import opened TaskEffects
  import opened ObjectEffects
  import opened TimeCalls
  import opened TimeCallProofs
  import opened DrainProofs
  import opened WaitQueues
  import opened Semaphore
  import opened EventFlag
  import D = DataQueue
  import P = PriDataQueue
  import opened MemoryPool
  import opened System
  import opened SystemProofs
  import opened StepFrames
  import opened WaitCodes

  // ----- the calls that start and stop handlers -----

  /** (Re)started: the handler will be called cycphs ms after base_time, and at no other time. */
  lemma StaCycDoes(g: Config, c: Core, i: nat)
    requires Inv(g, c) && IsCyc(g, c, i)
    ensures var (c', er) := StaCyc(g, c, i);
            if !InTask(c) then er == E_CTX && c' == c
            else
              && er == E_OK && c'.cyc[i].sta && c'.cyc[i].t0 == Base(c.clk) + g.cyc[i].cycphs && c'.cyc[i].runs == 0
              && c'.tm == c.tm[CycBlk(i) := Ev(Base(c.clk) + g.cyc[i].cycphs, CallCychdr(i), c.clk.ticks, 0)]
              && c' == c.(tm := c'.tm, cyc := c.cyc[i := c'.cyc[i]])
  {
    hide Good, DispInv;
  }

  lemma StpCycDoes(g: Config, c: Core, i: nat)
    requires IsCyc(g, c, i)
    ensures var (c', er) := StpCyc(g, c, i);
            if !InTask(c) then er == E_CTX && c' == c
            else
              && er == E_OK && !c'.cyc[i].sta && CycBlk(i) !in c'.tm
              && c' == c.(tm := c.tm - {CycBlk(i)}, cyc := c.cyc[i := c'.cyc[i]])
  {
  }

  /** (Re)started: the alarm will go off almtim ms after base_time, whether it was started before or not. */
  lemma StaAlmDoes(c: Core, i: nat, almtim: nat)
    requires i < |c.alm|
    ensures var (c', er) := StaAlm(c, i, almtim);
            if !Live(c) then er == E_CTX && c' == c
            else if almtim > TMAX_RELTIM then er == E_PAR && c' == c
            else
              && er == E_OK && c'.alm[i]
              && c'.tm == c.tm[AlmBlk(i) := Ev(Base(c.clk) + almtim, CallAlmhdr(i), c.clk.ticks, almtim)]
              && c' == c.(tm := c'.tm, alm := c.alm[i := true])
  {
  }

  lemma StpAlmDoes(c: Core, i: nat)
    requires i < |c.alm|
    ensures var (c', er) := StpAlm(c, i);
            if !Live(c) then er == E_CTX && c' == c
            else
              && er == E_OK && !c'.alm[i] && AlmBlk(i) !in c'.tm
              && c' == c.(tm := c.tm - {AlmBlk(i)}, alm := c.alm[i := false])
  {
  }

  // ----- what a step does with an event -----

  /** An event is kept by every step, but for its own callback and the calls that take it back. */
  lemma EventStays(g: Config, s: Sys, op: Op, x: Blk)
    requires SysInv(g, s) && May(g, s, op) && x in s.c.tm
    ensures var tm' := Step(g, s, op).c.tm;
            (x in tm' && tm'[x] == s.c.tm[x]) || op == OnKernel(FireTop(x)) || Stopped(op, x, tm')
  {
    hide Inv, ObjectsInv, Fire, MayFire;
    if !op.OnKernel? {
      CallFrame(g, s, op);
    } else {
      match op.kop
      case FireTop(b) => FireOk(g, s.c, b); FiredTimers(g, s.c, b);
      case _ =>
    }
  }

  // ----- timed waits -----

  /** How long the caller of a call that may wait is ready to wait. */
  function PatienceOf(op: Op): Option<Patience> {
    match op
    case OnTask(Slp_(p)) => Some(p)
    case OnSem(_, Wai(p)) => Some(p)
    case OnFlg(_, WaiF(_, _, p)) => Some(p)
    case OnDtq(_, Snd(_, p)) => Some(p)
    case OnDtq(_, Rcv(p)) => Some(p)
    case OnPdq(_, SndP(_, p)) => Some(p)
    case OnPdq(_, RcvP(p)) => Some(p)
    case OnMpf(_, Get(p)) => Some(p)
    case _ => None
  }

  /** Task t waits, with a timer for tmo ms that the running task t of c has just asked for. */
  ghost predicate AskedFor(c: Core, c': Core, t: Tid, tmo: int) {
    && t < |c'.ts.tcb| && c'.ts.tcb[t].tstat.Waiting? && !c'.ts.tcb[t].tstat.why.Dly?
    && if tmo > 0
       then c'.tm == c.tm[TaskBlk(t) := Ev(Base(c.clk) + tmo, WaitTmout(t), c.clk.ticks, tmo)]
       else c'.tm == c.tm && TaskBlk(t) !in c.tm
  }

  /** A call that is answered at once does not make its caller wait. */
  lemma RunnerStays(g: Config, c: Core, c': Core, wq: WQ, d: WData)
    requires Inv(g, c) && c.run.Some? && (c' == c || HeadEnds(c, c', wq, d))
    ensures c.run.value < |c'.ts.tcb| && !c'.ts.tcb[c.run.value].tstat.Waiting?
  {
    hide Good, Settled, Remove;
  }

  lemma SleeperAsked(g: Config, c: Core, c': Core, why: Why, d: WData, tmo: int)
    requires Sleeps(g, c, c', why, d, tmo) && !why.Dly?
    ensures AskedFor(c, c', c.run.value, tmo)
  {
    hide Settled, Joins, Remove;
  }

  ghost predicate RunnerWaits(c: Core, c': Core) {
    c.run.Some? && c.run.value < |c'.ts.tcb| && c'.ts.tcb[c.run.value].tstat.Waiting?
  }

  lemma SlpAsks(g: Config, c: Core, p: Patience)
    requires Inv(g, c) && p.Tmo? && TmoType(p)
    ensures RunsTask(c)
    ensures var c' := SlpTsk(g, c, p).0; RunnerWaits(c, c') ==> AskedFor(c, c', c.run.value, p.tmo)
  {
    hide Good, SlpTsk, Sleeps;
    HasRun(g, c);
    SlpTskDoes(g, c, p);
    var (c', er) := SlpTsk(g, c, p);
    if er == BLOCKED { SleeperAsked(g, c, c', Slp, NoData, p.tmo); }
  }

  lemma SemAsks(g: Config, c: Core, s: Sem, i: nat, p: Patience)
    requires Inv(g, c) && p.Tmo? && TmoType(p)
    ensures RunsTask(c)
    ensures var c' := WaiSem(g, c, s, i, p).0; RunnerWaits(c, c') ==> AskedFor(c, c', c.run.value, p.tmo)
  {
    hide Inv, WaiSem, Sleeps;
    WaiSemDoes(g, c, s, i, p);
    var (c', _, er) := WaiSem(g, c, s, i, p);
    if er == BLOCKED { SleeperAsked(g, c, c', Obj(SemQ(i)), NoData, p.tmo); }
    if c.run.Some? && er != BLOCKED { RunnerStays(g, c, c', SemQ(i), NoData); }
  }

  lemma FlgAsks(g: Config, c: Core, f: Flg, i: nat, ptn: bv32, orw: bool, p: Patience)
    requires Inv(g, c) && p.Tmo? && TmoType(p)
    ensures RunsTask(c)
    ensures var c' := WaiFlg(g, c, f, i, ptn, orw, p).0; RunnerWaits(c, c') ==> AskedFor(c, c', c.run.value, p.tmo)
  {
    hide Inv, WaiFlg, Sleeps, Cond;
    WaiFlgDoes(g, c, f, i, ptn, orw, p);
    var (c', _, er, _) := WaiFlg(g, c, f, i, ptn, orw, p);
    if er == BLOCKED { SleeperAsked(g, c, c', Obj(FlgQ(i)), FlgData(ptn, orw, 0), p.tmo); }
    if c.run.Some? && er != BLOCKED { RunnerStays(g, c, c', FlgQ(i), NoData); }
  }

  lemma DtqAsks(g: Config, c: Core, d: D.Dtq, i: nat, x: int, p: Patience)
    requires Inv(g, c) && D.DtqInv(c, d, i) && p.Tmo? && TmoType(p)
    ensures RunsTask(c) && QueueOk(c, RDtqQ(i)) && QueueOk(c, SDtqQ(i))
    ensures var c' := D.SndDtq(g, c, d, i, x, p).0; RunnerWaits(c, c') ==> AskedFor(c, c', c.run.value, p.tmo)
    ensures var c' := D.RcvDtq(g, c, d, i, p).0; RunnerWaits(c, c') ==> AskedFor(c, c', c.run.value, p.tmo)
  {
    hide Inv, D.DtqInv, D.SndDtq, D.RcvDtq, Sleeps, HeadEnds;
    SndDtqDoes(g, c, d, i, x, p);
    RcvDtqDoes(g, c, d, i, p);
    var (c1, _, er1) := D.SndDtq(g, c, d, i, x, p);
    var (c2, _, er2, _) := D.RcvDtq(g, c, d, i, p);
    if er1 == BLOCKED { SleeperAsked(g, c, c1, Obj(SDtqQ(i)), MsgData(x, 0), p.tmo); }
    if er2 == BLOCKED { SleeperAsked(g, c, c2, Obj(RDtqQ(i)), NoData, p.tmo); }
    if c.run.Some? && er1 != BLOCKED { RunnerStays(g, c, c1, RDtqQ(i), MsgData(x, 0)); }
    if c.run.Some? && er2 != BLOCKED {
      var s := WaitQ(c, SDtqQ(i));
      RunnerStays(g, c, c2, SDtqQ(i), if s != [] then DataOf(c, s[0]) else NoData);
    }
  }

  lemma PdqAsks(g: Config, c: Core, d: P.Pdq, i: nat, m: P.Msg, p: Patience)
    requires Inv(g, c) && P.PdqInv(c, d, i) && p.Tmo? && TmoType(p)
    ensures RunsTask(c) && QueueOk(c, RPdqQ(i)) && QueueOk(c, SPdqQ(i))
    ensures var c' := P.SndPdq(g, c, d, i, m, p).0; RunnerWaits(c, c') ==> AskedFor(c, c', c.run.value, p.tmo)
    ensures var c' := P.RcvPdq(g, c, d, i, p).0; RunnerWaits(c, c') ==> AskedFor(c, c', c.run.value, p.tmo)
  {
    hide Inv, P.PdqInv, P.SndPdq, P.RcvPdq, Sleeps, HeadEnds, Delivers;
    SndPdqDoes(g, c, d, i, m, p);
    RcvPdqDoes(g, c, d, i, p);
    var (c1, _, er1) := P.SndPdq(g, c, d, i, m, p);
    var (c2, _, er2, _) := P.RcvPdq(g, c, d, i, p);
    if er1 == BLOCKED { SleeperAsked(g, c, c1, Obj(SPdqQ(i)), MsgData(m.data, m.pri), p.tmo); }
    if er2 == BLOCKED { SleeperAsked(g, c, c2, Obj(RPdqQ(i)), NoData, p.tmo); }
    if c.run.Some? && er1 != BLOCKED { RunnerStays(g, c, c1, RPdqQ(i), MsgData(m.data, m.pri)); }
    if c.run.Some? && er2 != BLOCKED {
      var s := WaitQ(c, SPdqQ(i));
      RunnerStays(g, c, c2, SPdqQ(i), if s != [] then DataOf(c, s[0]) else NoData);
    }
  }

  lemma MpfAsks(g: Config, c: Core, m: Mpf, i: nat, p: Patience)
    requires Inv(g, c) && MpfInv(c, m, i) && p.Tmo? && TmoType(p)
    ensures RunsTask(c)
    ensures var c' := GetMpf(g, c, m, i, p).0; RunnerWaits(c, c') ==> AskedFor(c, c', c.run.value, p.tmo)
  {
    hide Inv, MpfInv, GetMpf, Sleeps;
    GetMpfDoes(g, c, m, i, p);
    var (c', _, er, _) := GetMpf(g, c, m, i, p);
    if er == BLOCKED { SleeperAsked(g, c, c', Obj(MpfQ(i)), NoData, p.tmo); }
    if c.run.Some? && er != BLOCKED { RunnerStays(g, c, c', MpfQ(i), NoData); }
  }

  /** Whichever call it is that makes the running task wait: its timer is set for exactly the time that the
      call names. */
  lemma WaitAsks(g: Config, s: Sys, op: Op)
    requires SysInv(g, s) && May(g, s, op) && PatienceOf(op).Some? && PatienceOf(op).value.Tmo?
    requires RunnerWaits(s.c, Step(g, s, op).c)
    ensures AskedFor(s.c, Step(g, s, op).c, s.c.run.value, PatienceOf(op).value.tmo)
  {
    hide Inv, D.DtqInv, P.PdqInv, MpfInv, SemInv, FlgInv, AskedFor, RunnerWaits;
    hide SlpTsk, WaiSem, WaiFlg, D.SndDtq, D.RcvDtq, P.SndPdq, P.RcvPdq, GetMpf, WakeAll;
    match op
    case OnTask(top) => SlpAsks(g, s.c, top.p);
    case OnSem(i, sop) => SemAsks(g, s.c, s.sem[i], i, sop.p);
    case OnFlg(i, fop) => FlgAsks(g, s.c, s.flg[i], i, fop.waiptn, fop.orw, fop.p);
    case OnDtq(i, dop) => DtqAsks(g, s.c, s.dtq[i], i, if dop.Snd? then dop.x else 0, dop.p);
    case OnPdq(i, pop) => PdqAsks(g, s.c, s.pdq[i], i, if pop.SndP? then pop.m else P.Msg(0, 0), pop.p);
    case OnMpf(i, mop) => MpfAsks(g, s.c, s.mpf[i], i, mop.p);
  }

  // ----- how long a wait takes -----

  /** Event e of task t is queued, and t waits with it. */
  ghost predicate WaitsWith(s: Sys, t: Tid, e: Ev) {
    && t < |s.c.ts.tcb| && s.c.ts.tcb[t].tstat.Waiting? && s.c.ts.tcb[t].winfo == Timer(true)
    && TaskBlk(t) in s.c.tm && s.c.tm[TaskBlk(t)] == e
  }

  lemma WaitGoesOn(g: Config, s: Sys, op: Op, t: Tid, e: Ev)
    requires SysInv(g, s) && May(g, s, op) && WaitsWith(s, t, e) && WaitingIn(Step(g, s, op), t)
    ensures WaitsWith(Step(g, s, op), t, e)
  {
    hide SysInv, May, Step, EndOf;
    StepCodes(g, s, op);
    StepKeepsInv(g, s, op);
    StillTimed(g, Step(g, s, op), t);
    EventStays(g, s, op, TaskBlk(t));
    if op == OnKernel(FireTop(TaskBlk(t))) { FiredIsAwake(g, s, t); }
  }

  lemma StillTimed(g: Config, s: Sys, t: Tid)
    requires SysInv(g, s) && WaitingIn(s, t) && s.c.ts.tcb[t].winfo == Timer(true)
    ensures TaskBlk(t) in s.c.tm
  {
    assert TimedWait(s.c.ts.tcb, t);
  }

  lemma FiredIsAwake(g: Config, s: Sys, t: Tid)
    requires SysInv(g, s) && May(g, s, OnKernel(FireTop(TaskBlk(t))))
    ensures !WaitingIn(Step(g, s, OnKernel(FireTop(TaskBlk(t)))), t)
  {
    hide ObjectsInv, MayFire, Fire;
    TimedOut(g, s.c, t);
  }

  lemma TimerSet(g: Config, s: Sys, t: Tid)
    requires SysInv(g, s) && TaskBlk(t) in s.c.tm
    ensures WaitsWith(s, t, s.c.tm[TaskBlk(t)])
  {
    assert TimedWait(s.c.ts.tcb, t);
  }

  lemma {:induction false} WaitsOn(g: Config, tr: seq<Sys>, ops: seq<Op>, t: Tid, e: Ev, m: nat, n: nat)
    requires IsRun(g, tr, ops) && SysInv(g, tr[0]) && m <= n <= |ops| && WaitsWith(tr[m], t, e)
    requires forall j :: m <= j <= n ==> WaitingIn(tr[j], t)
    ensures WaitsWith(tr[n], t, e)
    decreases n
  {
    hide SysInv, May, Step, WaitsWith, WaitingIn;
    if m < n {
      WaitsOn(g, tr, ops, t, e, m, n - 1);
      RunsKeepInv(g, tr, ops, n - 1);
      assert tr[n - 1 + 1] == Step(g, tr[n - 1], ops[n - 1]);
      WaitGoesOn(g, tr[n - 1], ops[n - 1], t, e);
    }
  }

  /** From step k on task t waits, after a call that allows it to wait for tmo ms, up to the state n. */
  ghost predicate TimedSpan(tr: seq<Sys>, ops: seq<Op>, t: Tid, tmo: int, k: nat, n: nat)
    requires |tr| == |ops| + 1
  {
    && k < n <= |ops| && PatienceOf(ops[k]) == Some(Tmo(tmo)) && 0 < tmo && tr[k].c.run == Some(t)
    && forall j :: k < j <= n ==> WaitingIn(tr[j], t)
  }

  /** True time x lies between the last tick supplied and the next one.  Times in units of 1/TIC_DENO ms. */
  ghost predicate During(g: Config, s: Sys, x: real) {
    (s.c.clk.ticks * g.ticNume) as real <= x < ((s.c.clk.ticks + 1) * g.ticNume) as real
  }

  /** The nominal true time of the last tick. */
  function Now(g: Config, s: Sys): real { (s.c.clk.ticks * g.ticNume) as real }

  lemma SpanTimer(g: Config, tr: seq<Sys>, ops: seq<Op>, t: Tid, tmo: int, k: nat, n: nat)
    requires IsRun(g, tr, ops) && SysInv(g, tr[0]) && TimedSpan(tr, ops, t, tmo, k, n)
    ensures WaitsWith(tr[n], t, Ev(Base(tr[k].c.clk) + tmo, WaitTmout(t), tr[k].c.clk.ticks, tmo))
  {
    hide SysInv, May, Step, WaitsWith;
    RunsKeepInv(g, tr, ops, k);
    RunsKeepInv(g, tr, ops, k + 1);
    assert tr[k + 1] == Step(g, tr[k], ops[k]);
    assert WaitingIn(tr[k + 1], t);
    WaitAsks(g, tr[k], ops[k]);
    TimerSet(g, tr[k + 1], t);
    WaitsOn(g, tr, ops, t, tr[k + 1].c.tm[TaskBlk(t)], k + 1, n);
  }

  /** Who finds E_TMOUT has waited longer than he said, and not longer than that, 1 ms and two ticks: the wait
      was ended by its own timer, whatever calls, interrupts and ticks there were. */
  lemma TimeoutTakes(g: Config, tr: seq<Sys>, ops: seq<Op>, t: Tid, tmo: int, k: nat, n: nat, x: real)
    requires IsRun(g, tr, ops) && SysInv(g, tr[0]) && TimedSpan(tr, ops, t, tmo, k, n) && n < |ops|
    requires !WaitingIn(tr[n + 1], t) && During(g, tr[k], x)
    requires t < |tr[n + 1].c.ts.tcb| && tr[n + 1].c.ts.tcb[t].winfo == Wercd(E_TMOUT)
    ensures ops[n] == OnKernel(FireTop(TaskBlk(t)))
    ensures (tmo * g.ticDeno) as real < Now(g, tr[n]) - x < (tmo * g.ticDeno + 2 * g.ticNume + g.ticDeno) as real
  {
    hide SysInv, May, Step, WaitingIn, During, Now;
    RunsKeepInv(g, tr, ops, n);
    assert tr[n + 1] == Step(g, tr[n], ops[n]) && May(g, tr[n], ops[n]);
    SpanTimer(g, tr, ops, t, tmo, k, n);
    assert WaitingIn(tr[n], t);
    TmoutIsFired(g, tr[n], ops[n], t);
    EventTakes(g, tr[n], TaskBlk(t), tr[n].c.tm[TaskBlk(t)], tr[k], tmo, x);
  }

  /** Only the timer of a wait ends it with E_TMOUT. */
  lemma TmoutIsFired(g: Config, s: Sys, op: Op, t: Tid)
    requires SysInv(g, s) && May(g, s, op) && WaitingIn(s, t) && !WaitingIn(Step(g, s, op), t)
    requires t < |Step(g, s, op).c.ts.tcb| && Step(g, s, op).c.ts.tcb[t].winfo == Wercd(E_TMOUT)
    ensures op == OnKernel(FireTop(TaskBlk(t)))
  {
    hide SysInv, May, Step;
    StepCodes(g, s, op);
    WinfoTimer(g, s, t);
    if op.OnKernel? && op.kop.FireTop? && op.kop.b != TaskBlk(t) { OthersSleep(g, s, op.kop.b, t); }
  }

  lemma WinfoTimer(g: Config, s: Sys, t: Tid)
    requires SysInv(g, s) && WaitingIn(s, t)
    ensures s.c.ts.tcb[t].winfo.Timer?
  {
    assert WaitInfoOk(s.c.ts.tcb[t]);
  }

  lemma OthersSleep(g: Config, s: Sys, b: Blk, t: Tid)
    requires SysInv(g, s) && May(g, s, OnKernel(FireTop(b))) && b != TaskBlk(t) && WaitingIn(s, t)
    ensures WaitingIn(Step(g, s, OnKernel(FireTop(b))), t)
  {
    hide ObjectsInv, Linked, Sorted, TimeInv, DispInv, Unlink, Insert, Top;
    CallbackArg(g, s.c, b);
  }

  /** And as long as it waits, between ticks, less than that time, 1 ms and one tick have passed. */
  lemma TimedWaitEnds(g: Config, tr: seq<Sys>, ops: seq<Op>, t: Tid, tmo: int, k: nat, n: nat, x: real)
    requires IsRun(g, tr, ops) && SysInv(g, tr[0]) && TimedSpan(tr, ops, t, tmo, k, n)
    requires tr[n].c.drain.None? && During(g, tr[k], x)
    ensures Now(g, tr[n]) - x < (tmo * g.ticDeno + g.ticNume + g.ticDeno) as real
  {
    hide May, Step, Good, DispInv, ObjectsInv;
    RunsKeepInv(g, tr, ops, n);
    SpanTimer(g, tr, ops, t, tmo, k, n);
    NotLateYet(g, tr[n].c, TaskBlk(t), x);
  }

  /** With TMO_FEVR no timer is set: such a wait never ends with E_TMOUT. */
  lemma {:induction false} ForeverHasNoTimer(g: Config, tr: seq<Sys>, ops: seq<Op>, t: Tid, k: nat, n: nat)
    requires IsRun(g, tr, ops) && SysInv(g, tr[0]) && k < n < |ops| && tr[k].c.run == Some(t)
    requires PatienceOf(ops[k]) == Some(Tmo(TMO_FEVR)) && forall j :: k < j <= n ==> WaitingIn(tr[j], t)
    ensures TaskBlk(t) !in tr[n].c.tm && ops[n] != OnKernel(FireTop(TaskBlk(t)))
    decreases n
  {
    hide SysInv, May, Step, WaitingIn;
    RunsKeepInv(g, tr, ops, n);
    RunsKeepInv(g, tr, ops, n - 1);
    assert tr[n - 1 + 1] == Step(g, tr[n - 1], ops[n - 1]);
    assert May(g, tr[n], ops[n]);
    assert WaitingIn(tr[k + 1], t);
    if n - 1 > k {
      ForeverHasNoTimer(g, tr, ops, t, k, n - 1);
      NoTimerYet(g, tr[n - 1], ops[n - 1], t);
    } else {
      ForeverStarts(g, tr[k], ops[k], t);
    }
    NotQueuedNotFired(g, tr[n], ops[n], TaskBlk(t));
  }

  lemma ForeverStarts(g: Config, s: Sys, op: Op, t: Tid)
    requires SysInv(g, s) && May(g, s, op) && s.c.run == Some(t) && PatienceOf(op) == Some(Tmo(TMO_FEVR))
    requires WaitingIn(Step(g, s, op), t)
    ensures TaskBlk(t) !in Step(g, s, op).c.tm
  {
    hide SysInv, May, Step;
    WaitAsks(g, s, op);
  }

  lemma NoTimerYet(g: Config, s: Sys, op: Op, t: Tid)
    requires SysInv(g, s) && May(g, s, op) && WaitingIn(s, t) && WaitingIn(Step(g, s, op), t) && TaskBlk(t) !in s.c.tm
    ensures TaskBlk(t) !in Step(g, s, op).c.tm
  {
    hide SysInv, May, Step, EndOf;
    StepKeepsInv(g, s, op);
    StepCodes(g, s, op);
    TimersMatch(g, s, t);
    TimersMatch(g, Step(g, s, op), t);
  }

  lemma TimersMatch(g: Config, s: Sys, t: Tid)
    requires SysInv(g, s) && WaitingIn(s, t)
    ensures TaskBlk(t) in s.c.tm <==> s.c.ts.tcb[t].winfo == Timer(true)
  {
    assert TaskBlk(t) in s.c.tm <==> TimedWait(s.c.ts.tcb, t);
  }

  /** A delay ends after more than dlytim ms, if nobody ends it before. */
  lemma DelayTakes(g: Config, tr: seq<Sys>, ops: seq<Op>, t: Tid, dlytim: nat, k: nat, n: nat, x: real)
    requires IsRun(g, tr, ops) && SysInv(g, tr[0]) && k < n < |ops| && ops[k] == OnTask(Dly_(dlytim))
    requires tr[k].c.run == Some(t) && During(g, tr[k], x) && forall j :: k < j <= n ==> WaitingIn(tr[j], t)
    requires ops[n] == OnKernel(FireTop(TaskBlk(t)))
    ensures var taken := Now(g, tr[n]) - x;
            (dlytim * g.ticDeno) as real < taken < (dlytim * g.ticDeno + 2 * g.ticNume + g.ticDeno) as real
  {
    hide SysInv, May, Step, WaitingIn, During, Now;
    RunsKeepInv(g, tr, ops, k);
    RunsKeepInv(g, tr, ops, k + 1);
    RunsKeepInv(g, tr, ops, n);
    assert tr[k + 1] == Step(g, tr[k], ops[k]) && May(g, tr[k], ops[k]) && May(g, tr[n], ops[n]);
    assert WaitingIn(tr[k + 1], t);
    DelayAsks(g, tr[k], t, dlytim);
    TimerSet(g, tr[k + 1], t);
    var e := tr[k + 1].c.tm[TaskBlk(t)];
    WaitsOn(g, tr, ops, t, e, k + 1, n);
    EventTakes(g, tr[n], TaskBlk(t), e, tr[k], dlytim, x);
  }

  lemma DelayAsks(g: Config, s: Sys, t: Tid, dlytim: nat)
    requires SysInv(g, s) && May(g, s, OnTask(Dly_(dlytim))) && s.c.run == Some(t)
    requires WaitingIn(Step(g, s, OnTask(Dly_(dlytim))), t)
    ensures var tm' := Step(g, s, OnTask(Dly_(dlytim))).c.tm;
            TaskBlk(t) in tm' && tm'[TaskBlk(t)] == Ev(Base(s.c.clk) + dlytim, WaitTmoutOk(t), s.c.clk.ticks, dlytim)
  {
    hide ObjectsInv, Good, Settled, Moves, DlyTsk;
    RunnerStays(g, s.c, s.c, FlgQ(0), NoData);
    if MayBlock(s.c) { DlyTskDoes(g, s.c, dlytim); }
    DlyRefused(g, s.c, dlytim);
  }

  lemma DlyRefused(g: Config, c: Core, dlytim: nat)
    requires RunsTask(c)
    ensures !MayBlock(c) || dlytim > TMAX_RELTIM ==> DlyTsk(g, c, dlytim).0 == c
  {
  }

  /** An event other than that of a cyclic handler fires when more than the relative time it was registered with
      has passed since then. */
  lemma EventTakes(g: Config, s: Sys, b: Blk, e: Ev, s0: Sys, rel: nat, x: real)
    requires SysInv(g, s) && May(g, s, OnKernel(FireTop(b))) && During(g, s0, x) && !b.CycBlk?
    requires b in s.c.tm && s.c.tm[b] == e && e.tick == s0.c.clk.ticks && e.rel == rel
    ensures (rel * g.ticDeno) as real < Now(g, s) - x < (rel * g.ticDeno + 2 * g.ticNume + g.ticDeno) as real
  {
    hide ObjectsInv, Good, DispInv, MayFire;
    NeverEarlyBoundedlyLate(g, s.c, b, x);
  }

  // ----- alarms -----

  /** Nothing starts or stops alarm handler i, or calls it, from step m up to n. */
  ghost predicate AlarmLeft(ops: seq<Op>, i: nat, m: nat, n: nat)
    requires n <= |ops|
  {
    forall j :: m <= j < n ==>
      && ops[j] != OnTask(StopAlm(i)) && !(ops[j].OnTask? && ops[j].top.StartAlm? && ops[j].top.i == i)
      && ops[j] != OnKernel(FireTop(AlmBlk(i)))
  }

  lemma {:induction false} AlarmQueued(g: Config, tr: seq<Sys>, ops: seq<Op>, i: nat, m: nat, n: nat)
    requires IsRun(g, tr, ops) && SysInv(g, tr[0]) && m <= n <= |ops| && AlarmLeft(ops, i, m, n)
    requires AlmBlk(i) in tr[m].c.tm
    ensures AlmBlk(i) in tr[n].c.tm && tr[n].c.tm[AlmBlk(i)] == tr[m].c.tm[AlmBlk(i)]
    decreases n
  {
    hide SysInv, May, Step;
    if m < n {
      AlarmQueued(g, tr, ops, i, m, n - 1);
      RunsKeepInv(g, tr, ops, n - 1);
      assert tr[n - 1 + 1] == Step(g, tr[n - 1], ops[n - 1]);
      EventStays(g, tr[n - 1], ops[n - 1], AlmBlk(i));
    }
  }

  lemma AlarmStarts(g: Config, s: Sys, i: nat, almtim: nat)
    requires SysInv(g, s) && May(g, s, OnTask(StartAlm(i, almtim))) && Live(s.c) && almtim <= TMAX_RELTIM
    ensures var tm' := Step(g, s, OnTask(StartAlm(i, almtim))).c.tm;
            AlmBlk(i) in tm' && tm'[AlmBlk(i)] == Ev(Base(s.c.clk) + almtim, CallAlmhdr(i), s.c.clk.ticks, almtim)
  {
    hide SysInv, StaAlm;
    StaAlmDoes(s.c, i, almtim);
  }

  /** An alarm that is left alone goes off more than almtim ms after its start, and not more than 1 ms and two
      ticks later than that. */
  lemma AlarmTakes(g: Config, tr: seq<Sys>, ops: seq<Op>, i: nat, almtim: nat, k: nat, n: nat, x: real)
    requires IsRun(g, tr, ops) && SysInv(g, tr[0]) && k < n < |ops| && ops[k] == OnTask(StartAlm(i, almtim))
    requires Live(tr[k].c) && almtim <= TMAX_RELTIM && During(g, tr[k], x) && AlarmLeft(ops, i, k + 1, n)
    requires ops[n] == OnKernel(FireTop(AlmBlk(i)))
    ensures var taken := Now(g, tr[n]) - x;
            (almtim * g.ticDeno) as real < taken < (almtim * g.ticDeno + 2 * g.ticNume + g.ticDeno) as real
  {
    hide SysInv, May, Step, During, Now, Live;
    RunsKeepInv(g, tr, ops, k);
    RunsKeepInv(g, tr, ops, n);
    assert tr[k + 1] == Step(g, tr[k], ops[k]) && May(g, tr[k], ops[k]) && May(g, tr[n], ops[n]);
    AlarmStarts(g, tr[k], i, almtim);
    AlarmQueued(g, tr, ops, i, k + 1, n);
    EventTakes(g, tr[n], AlmBlk(i), tr[n].c.tm[AlmBlk(i)], tr[k], almtim, x);
  }

  /** And as long as it has not gone off, between ticks, it is not due yet. */
  lemma AlarmGoesOff(g: Config, tr: seq<Sys>, ops: seq<Op>, i: nat, almtim: nat, k: nat, n: nat, x: real)
    requires IsRun(g, tr, ops) && SysInv(g, tr[0]) && k < n <= |ops| && ops[k] == OnTask(StartAlm(i, almtim))
    requires Live(tr[k].c) && almtim <= TMAX_RELTIM && During(g, tr[k], x) && AlarmLeft(ops, i, k + 1, n)
    requires tr[n].c.drain.None?
    ensures Now(g, tr[n]) - x < (almtim * g.ticDeno + g.ticNume + g.ticDeno) as real
  {
    hide Good, DispInv, ObjectsInv, May, Step, Live;
    RunsKeepInv(g, tr, ops, k);
    RunsKeepInv(g, tr, ops, n);
    assert tr[k + 1] == Step(g, tr[k], ops[k]) && May(g, tr[k], ops[k]);
    AlarmStarts(g, tr[k], i, almtim);
    AlarmQueued(g, tr, ops, i, k + 1, n);
    NotLateYet(g, tr[n].c, AlmBlk(i), x);
  }

  // ----- what a step does with handlers -----

  lemma {:induction false} WakeAllHandlers(g: Config, c: Core, s: seq<Tid>, code: ER)
    requires TasksIn(c, s)
    ensures WakeAll(g, c, s, code).0.cyc == c.cyc && WakeAll(g, c, s, code).0.alm == c.alm
    decreases |s|
  {
    if s != [] { WakeAllHandlers(g, Wake(g, c, s[0], code, c.ts.tcb[s[0]].wdata), s[1..], code); }
  }

  lemma {:induction false} ScanHandlers(g: Config, c: Core, f: Flg, s: seq<Tid>)
    requires TasksIn(c, s)
    ensures EventFlag.Scan(g, c, f, s).0.cyc == c.cyc && EventFlag.Scan(g, c, f, s).0.alm == c.alm
    decreases |s|
  {
    hide Cond;
    if s != [] {
      ScanHandlers(g, c, f, s[1..]);
      if CondOf(f.ptn, DataOf(c, s[0])) {
        ScanHandlers(g, Wake(g, c, s[0], E_OK, Handed(DataOf(c, s[0]), f.ptn)), f, s[1..]);
      }
    }
  }

  predicate SameHandlers(c: Core, c': Core) { c'.cyc == c.cyc && c'.alm == c.alm }

  lemma DtqHandlers(g: Config, c: Core, d: D.Dtq, i: nat, op: DtqOp)
    requires DtqArgs(g, c, d, i)
    ensures SameHandlers(c, DtqStep(g, c, d, i, op).0)
  {
    hide Rehome, WakeAll, TopOf;
    var c1 := WakeAll(g, c, WaitQ(c, SDtqQ(i)), E_DLT).0;
    WakeAllHandlers(g, c, WaitQ(c, SDtqQ(i)), E_DLT);
    WakeAllHandlers(g, c1, WaitQ(c1, RDtqQ(i)), E_DLT);
  }

  lemma PdqHandlers(g: Config, c: Core, d: P.Pdq, i: nat, op: PdqOp)
    requires PdqArgs(g, c, d, i)
    ensures SameHandlers(c, PdqStep(g, c, d, i, op).0)
  {
    hide Rehome, WakeAll, TopOf;
    var c1 := WakeAll(g, c, WaitQ(c, SPdqQ(i)), E_DLT).0;
    WakeAllHandlers(g, c, WaitQ(c, SPdqQ(i)), E_DLT);
    WakeAllHandlers(g, c1, WaitQ(c1, RPdqQ(i)), E_DLT);
  }

  lemma FlgHandlers(g: Config, c: Core, f: Flg, i: nat, op: FlgOp)
    requires RunsTask(c) && QueueOk(c, FlgQ(i))
    ensures SameHandlers(c, FlgStep(g, c, f, i, op).0)
  {
    hide Rehome, WakeAll, EventFlag.Scan, Cond, Raised, TopOf;
    WakeAllHandlers(g, c, WaitQ(c, FlgQ(i)), E_DLT);
    if op.Set? { ScanHandlers(g, c, Raised(f, op.setptn), WaitQ(c, FlgQ(i))); }
  }

  lemma ObjectHandlers(g: Config, s: Sys, op: Op)
    requires May(g, s, op) && !op.OnTask? && !op.OnKernel?
    ensures SameHandlers(s.c, Step(g, s, op).c)
  {
    hide Rehome, WakeAll, FlgStep, DtqStep, PdqStep, TopOf;
    match op
    case OnSem(i, sop) => WakeAllHandlers(g, s.c, WaitQ(s.c, SemQ(i)), E_DLT);
    case OnFlg(i, fop) => FlgHandlers(g, s.c, s.flg[i], i, fop);
    case OnDtq(i, dop) => DtqHandlers(g, s.c, s.dtq[i], i, dop);
    case OnPdq(i, pop) => PdqHandlers(g, s.c, s.pdq[i], i, pop);
    case OnMpf(i, mop) => WakeAllHandlers(g, s.c, WaitQ(s.c, MpfQ(i)), E_DLT);
  }

  lemma TaskHandlers(g: Config, c: Core, op: TaskOp)
    requires TaskArgs(g, c, op) && !op.StartCyc? && !op.StopCyc? && !op.StartAlm? && !op.StopAlm?
    ensures SameHandlers(c, TaskStep(g, c, op))
  {
    hide Rotate, TopOf;
  }

  predicate CycCall(op: Op, i: nat) { op == OnTask(StartCyc(i)) || op == OnTask(StopCyc(i)) }

  /** A cyclic handler changes only when it is called, started or stopped. */
  lemma CycStays(g: Config, s: Sys, op: Op, i: nat)
    requires SysInv(g, s) && May(g, s, op) && i < |s.c.cyc| && !CycCall(op, i)
    ensures var y, c' := s.c.cyc[i], Step(g, s, op).c;
            && |c'.cyc| == |s.c.cyc|
            && c'.cyc[i] == if op == OnKernel(FireTop(CycBlk(i)))
                            then Cyc(true, y.evttim + g.cyc[i].cyctim, y.t0, y.runs + 1) else y
  {
    hide ObjectsInv, Linked, Sorted, DispInv;
    match op
    case OnTask(top) => TaskCycles(g, s.c, top, i);
    case OnKernel(kop) => if kop.FireTop? { CallbackArg(g, s.c, kop.b); }
    case _ => ObjectHandlers(g, s, op);
  }

  lemma TaskCycles(g: Config, c: Core, op: TaskOp, i: nat)
    requires TaskArgs(g, c, op) && i < |c.cyc| && op != StartCyc(i) && op != StopCyc(i)
    ensures |TaskStep(g, c, op).cyc| == |c.cyc| && TaskStep(g, c, op).cyc[i] == c.cyc[i]
  {
    if !op.StartCyc? && !op.StopCyc? && !op.StartAlm? && !op.StopAlm? { TaskHandlers(g, c, op); }
  }

  /** How often handler i is called by the steps m to n. */
  function Calls(ops: seq<Op>, i: nat, m: nat, n: nat): nat
    requires n <= |ops|
  {
    if n <= m then 0 else Calls(ops, i, m, n - 1) + if ops[n - 1] == OnKernel(FireTop(CycBlk(i))) then 1 else 0
  }

  lemma {:induction false} CycRuns(g: Config, tr: seq<Sys>, ops: seq<Op>, i: nat, m: nat, n: nat)
    requires IsRun(g, tr, ops) && SysInv(g, tr[0]) && m <= n <= |ops| && i < |tr[m].c.cyc| && tr[m].c.cyc[i].sta
    requires forall j :: m <= j < n ==> !CycCall(ops[j], i)
    ensures i < |tr[n].c.cyc| && tr[n].c.cyc[i].sta && tr[n].c.cyc[i].t0 == tr[m].c.cyc[i].t0
    ensures tr[n].c.cyc[i].runs == tr[m].c.cyc[i].runs + Calls(ops, i, m, n)
    decreases n
  {
    hide SysInv, May, Step, CycCall;
    if m < n {
      CycRuns(g, tr, ops, i, m, n - 1);
      RunsKeepInv(g, tr, ops, n - 1);
      assert tr[n - 1 + 1] == Step(g, tr[n - 1], ops[n - 1]);
      CycStays(g, tr[n - 1], ops[n - 1], i);
    }
  }

  lemma CycStarts(g: Config, s: Sys, i: nat)
    requires SysInv(g, s) && May(g, s, OnTask(StartCyc(i))) && InTask(s.c)
    ensures i < |g.cyc|
    ensures var c' := Step(g, s, OnTask(StartCyc(i))).c;
            && i < |c'.cyc| && c'.cyc[i].sta && c'.cyc[i].runs == 0
            && c'.cyc[i].t0 == Base(s.c.clk) + g.cyc[i].cycphs > 0
  {
    hide ObjectsInv, DispInv, StaCyc;
    StaCycDoes(g, s.c, i);
    ClockBounds(g, s.c.clk, s.c.drain.Some?);
  }

  /** How many of the times first, first + p, first + 2p, ... have come by now. */
  function Periods(now: int, first: int, p: nat): int
    requires p > 0
  {
    if now < first then 0 else (now - first) / p + 1
  }

  /** How often a cyclic handler has been called, between ticks, since it was started: once when the phase has
      passed, and once for each further period, with no drift however long the run is. */
  lemma CyclicCalls(g: Config, tr: seq<Sys>, ops: seq<Op>, i: nat, k: nat, n: nat)
    requires IsRun(g, tr, ops) && SysInv(g, tr[0]) && k < n <= |ops| && ops[k] == OnTask(StartCyc(i))
    requires InTask(tr[k].c) && forall j :: k < j < n ==> !CycCall(ops[j], i)
    requires tr[n].c.drain.None?
    ensures i < |g.cyc| && g.cyc[i].cyctim > 0
    ensures var first, now := Base(tr[k].c.clk) + g.cyc[i].cycphs, tr[n].c.clk.cur;
            Calls(ops, i, k + 1, n) == Periods(now, first, g.cyc[i].cyctim)
  {
    hide SysInv, May, Step, CycCall, InTask, Periods, Calls, Base;
    RunsKeepInv(g, tr, ops, k);
    RunsKeepInv(g, tr, ops, n);
    assert tr[k + 1] == Step(g, tr[k], ops[k]) && May(g, tr[k], ops[k]);
    CycStarts(g, tr[k], i);
    CycRuns(g, tr, ops, i, k + 1, n);
    CountedRuns(g, tr[n], i);
  }

  lemma CountedRuns(g: Config, s: Sys, i: nat)
    requires SysInv(g, s) && s.c.drain.None? && i < |s.c.cyc| && s.c.cyc[i].sta && s.c.cyc[i].t0 > 0 && i < |g.cyc|
    ensures g.cyc[i].cyctim > 0
    ensures s.c.cyc[i].runs == Periods(s.c.clk.cur, s.c.cyc[i].t0, g.cyc[i].cyctim)
  {
    hide Good, ObjectsInv, DispInv;
    CyclicNoDrift(g, s.c, i);
  }

  // ----- stopped handlers -----

  /** Handler x, cyclic or alarm, is not started. */
  ghost predicate Off(s: Sys, x: Blk) {
    match x
    case TaskBlk(_) => false
    case CycBlk(i) => i < |s.c.cyc| && !s.c.cyc[i].sta
    case AlmBlk(i) => i < |s.c.alm| && !s.c.alm[i]
  }

  predicate Starts(op: Op, x: Blk) {
    match x
    case TaskBlk(_) => false
    case CycBlk(i) => op == OnTask(StartCyc(i))
    case AlmBlk(i) => op.OnTask? && op.top.StartAlm? && op.top.i == i
  }

  predicate Stops(s: Sys, op: Op, x: Blk) {
    match x
    case TaskBlk(_) => false
    case CycBlk(i) => op == OnTask(StopCyc(i)) && InTask(s.c)
    case AlmBlk(i) => op == OnTask(StopAlm(i)) && Live(s.c)
  }

  lemma StopIsOff(g: Config, s: Sys, op: Op, x: Blk)
    requires SysInv(g, s) && May(g, s, op)
    requires Stops(s, op, x)
    ensures Off(Step(g, s, op), x)
  {
    hide SysInv;
  }

  lemma OffIsNotQueued(g: Config, s: Sys, x: Blk)
    requires SysInv(g, s) && Off(s, x)
    ensures x !in s.c.tm
  {
  }

  lemma OffStays(g: Config, s: Sys, op: Op, x: Blk)
    requires SysInv(g, s) && May(g, s, op) && Off(s, x) && !Starts(op, x)
    ensures Off(Step(g, s, op), x)
  {
    hide ObjectsInv, Linked, Sorted, DispInv, TimersInv, TimeInv;
    OffIsNotQueued(g, s, x);
    match op
    case OnTask(top) =>
      if !top.StartCyc? && !top.StopCyc? && !top.StartAlm? && !top.StopAlm? { TaskHandlers(g, s.c, top); }
    case OnKernel(kop) => if kop.FireTop? { FireHandlers(g, s.c, kop.b, x); }
    case _ => ObjectHandlers(g, s, op);
  }

  lemma FireHandlers(g: Config, c: Core, b: Blk, x: Blk)
    requires Inv(g, c) && KernelMay(g, c, FireTop(b)) && x != b
    ensures var c' := Fire(g, c, b);
            && |c'.cyc| == |c.cyc| && |c'.alm| == |c.alm|
            && (forall i: nat :: x == CycBlk(i) && i < |c.cyc| ==> c'.cyc[i] == c.cyc[i])
            && (forall i: nat :: x == AlmBlk(i) && i < |c.alm| ==> c'.alm[i] == c.alm[i])
  {
    hide Linked, Sorted, DispInv;
    CallbackArg(g, c, b);
  }

  /** A handler that has been stopped is not called until it is started again. */
  lemma StoppedIsNotCalled(g: Config, tr: seq<Sys>, ops: seq<Op>, x: Blk, k: nat, n: nat)
    requires IsRun(g, tr, ops) && SysInv(g, tr[0]) && k < n < |ops| && forall j :: k < j < n ==> !Starts(ops[j], x)
    requires Stops(tr[k], ops[k], x)
    ensures ops[n] != OnKernel(FireTop(x))
  {
    hide SysInv, May, Step, Off, Starts, Stops;
    RunsKeepInv(g, tr, ops, k);
    RunsKeepInv(g, tr, ops, n);
    assert tr[k + 1] == Step(g, tr[k], ops[k]) && May(g, tr[k], ops[k]) && May(g, tr[n], ops[n]);
    StopIsOff(g, tr[k], ops[k], x);
    OffRun(g, tr, ops, x, k + 1, n);
    OffIsNotQueued(g, tr[n], x);
    NotQueuedNotFired(g, tr[n], ops[n], x);
  }

  lemma {:induction false} OffRun(g: Config, tr: seq<Sys>, ops: seq<Op>, x: Blk, m: nat, n: nat)
    requires IsRun(g, tr, ops) && SysInv(g, tr[0]) && m <= n <= |ops| && Off(tr[m], x)
    requires forall j :: m <= j < n ==> !Starts(ops[j], x)
    ensures Off(tr[n], x)
    decreases n
  {
    hide SysInv, May, Step, Off, Starts;
    if m < n {
      OffRun(g, tr, ops, x, m, n - 1);
      RunsKeepInv(g, tr, ops, n - 1);
      assert tr[n - 1 + 1] == Step(g, tr[n - 1], ops[n - 1]);
      OffStays(g, tr[n - 1], ops[n - 1], x);
    }
  }

  lemma NotQueuedNotFired(g: Config, s: Sys, op: Op, x: Blk)
    requires May(g, s, op) && x !in s.c.tm
    ensures op != OnKernel(FireTop(x))
  {
  }
}
