/** What the kernel starts with, told by what can be observed: which tasks run in which order, which handlers
    are started, and for when. */
module StartState {
  import opened Types
  import opened Seqs
  import opened TaskQueues
  import opened SystemClock
  import opened Core
  import opened TaskCalls
  import opened TimeCalls
  import opened WaitQueues
  import opened Startup
  import S = Semaphore
  import D = DataQueue
  import P = PriDataQueue
  import opened WholeStart

  /** The tasks of s that have priority p. */
  function OfPriority(pri: seq<nat>, s: seq<Tid>, p: nat): seq<Tid> {
    if s == [] then []
    else (if s[0] < |pri| && pri[s[0]] == p then [s[0]] else []) + OfPriority(pri, s[1..], p)
  }

  lemma ActivatedOne(g: Config, c: Core, t: Tid)
    requires t < |c.ts.tcb| && c.ts.tcb[t].tstat.Dormant?
    ensures var c' := Activate(g, c, t); var pri := c.ts.tcb[t].priority;
            && c' == c.(ts := c'.ts) && c'.ts.tcb == c.ts.tcb[t := c.ts.tcb[t].(tstat := Runnable)]
            && forall p :: At(c'.ts.q, Ready(p)) == At(c.ts.q, Ready(p)) + if pri == p then [t] else []
  {
  }

  lemma {:induction false} ActivatedTasks(g: Config, c: Core, act: seq<Tid>)
    requires TasksIn(c, act) && NoDup(act) && forall k :: 0 <= k < |act| ==> c.ts.tcb[act[k]].tstat.Dormant?
    ensures var c' := ActivateAll(g, c, act);
            && c' == c.(ts := c'.ts) && |c'.ts.tcb| == |c.ts.tcb|
            && forall t :: 0 <= t < |c.ts.tcb| ==>
                 c'.ts.tcb[t] == if t in act then c.ts.tcb[t].(tstat := Runnable) else c.ts.tcb[t]
    decreases |act|
  {
    hide Activate;
    if act != [] {
      var c1, t0 := Activate(g, c, act[0]), act[0];
      ActivatedOne(g, c, t0);
      assert act == [t0] + act[1..];
      ActivatedTasks(g, c1, act[1..]);
    }
  }

  lemma {:induction false} ActivatedReady(g: Config, c: Core, act: seq<Tid>, p: nat)
    requires TasksIn(c, act) && NoDup(act) && forall k :: 0 <= k < |act| ==> c.ts.tcb[act[k]].tstat.Dormant?
    requires forall k :: 0 <= k < |act| ==> act[k] < |g.ipri| && c.ts.tcb[act[k]].priority == g.ipri[act[k]]
    ensures At(ActivateAll(g, c, act).ts.q, Ready(p)) == At(c.ts.q, Ready(p)) + OfPriority(g.ipri, act, p)
    decreases |act|
  {
    hide Activate;
    if act != [] {
      ActivatedOne(g, c, act[0]);
      ActivatedReady(g, Activate(g, c, act[0]), act[1..], p);
    }
  }

  lemma {:induction false} StartedState(g: Config, c: Core, n: nat)
    requires n <= |c.cyc| == |g.cyc|
    ensures var c' := StartHandlers(g, c, n);
            && c' == c.(tm := c'.tm, cyc := c'.cyc) && |c'.cyc| == |c.cyc|
            && (forall i :: n <= i < |g.cyc| ==> c'.cyc[i] == c.cyc[i])
            && (forall i :: 0 <= i < n && g.cyc[i].sta ==> c'.cyc[i].sta)
            && (forall i :: 0 <= i < n && !g.cyc[i].sta ==> c'.cyc[i] == c.cyc[i])
            && forall x: Blk :: if x.CycBlk? && x.i < n && g.cyc[x.i].sta
                           then x in c'.tm && c'.tm[x] == Ev(g.cyc[x.i].cycphs, CallCychdr(x.i), c.clk.ticks, 0)
                           else (x in c'.tm <==> x in c.tm) && (x in c.tm ==> c'.tm[x] == c.tm[x])
  {
    if n > 0 { StartedState(g, c, n - 1); }
  }

  /** The tasks with TA_ACT are runnable, those of one priority in the order of their creation, the others are
      dormant, all with their initial priority; the handlers with TA_STA are started, for the end of their
      phase; nothing else is; dispatching is allowed, and the first task of the highest priority runs. */
  lemma StartsWith(g: Config, wqs: set<WQ>, act: seq<Tid>)
    requires ValidConfig(g) && NoDup(act) && forall k :: 0 <= k < |act| ==> act[k] < |g.ipri|
    ensures var c := InitCore(g, wqs, act);
            && |c.ts.tcb| == |g.ipri| && |c.cyc| == |g.cyc| && |c.alm| == g.nalm
            && (forall t :: 0 <= t < |g.ipri| ==>
                  c.ts.tcb[t].tstat == (if t in act then Runnable else Dormant)
                  && c.ts.tcb[t].priority == g.ipri[t] && !c.ts.tcb[t].actque && !c.ts.tcb[t].wupque)
            && (forall p :: 0 <= p < TNUM_TPRI ==> At(c.ts.q, Ready(p)) == OfPriority(g.ipri, act, p))
            && (forall i :: 0 <= i < |g.cyc| ==> (c.cyc[i].sta <==> g.cyc[i].sta))
            && (forall i :: 0 <= i < g.nalm ==> !c.alm[i])
            && (forall x: Blk :: x in c.tm <==> x.CycBlk? && x.i < |g.cyc| && g.cyc[x.i].sta)
            && (forall x: Blk :: x in c.tm ==> c.tm[x].time == g.cyc[x.i].cycphs && c.tm[x].cb == CallCychdr(x.i))
            && c.fl == Flags(false, true, false, true) && c.nest == 0 && c.clk.cur == 0 && c.run == TopOf(c)
  {
    hide ActivateAll, StartHandlers, Blank, Top, OfPriority;
    var b := Blank(g, wqs);
    BlankState(g, wqs);
    ActivatedTasks(g, b, act);
    StartedState(g, ActivateAll(g, b, act), |g.cyc|);
    forall p: nat ensures At(ActivateAll(g, b, act).ts.q, Ready(p)) == OfPriority(g.ipri, act, p) {
      ReadyAtStart(g, wqs, act, p);
    }
  }

  lemma ReadyAtStart(g: Config, wqs: set<WQ>, act: seq<Tid>, p: nat)
    requires ValidConfig(g) && NoDup(act) && forall k :: 0 <= k < |act| ==> act[k] < |g.ipri|
    ensures TasksIn(Blank(g, wqs), act)
    ensures At(ActivateAll(g, Blank(g, wqs), act).ts.q, Ready(p)) == OfPriority(g.ipri, act, p)
  {
    hide ActivateAll, OfPriority;
    ActivatedReady(g, Blank(g, wqs), act, p);
  }

  lemma BlankState(g: Config, wqs: set<WQ>)
    requires ValidConfig(g)
    ensures var b := Blank(g, wqs);
            && |b.ts.tcb| == |g.ipri| && |b.cyc| == |g.cyc| && |b.alm| == g.nalm && b.tm == map[]
            && (forall t :: 0 <= t < |g.ipri| ==> b.ts.tcb[t] == DormantTask(g.ipri[t]))
            && (forall i :: 0 <= i < |g.cyc| ==> !b.cyc[i].sta) && (forall i :: 0 <= i < g.nalm ==> !b.alm[i])
            && b.fl == Flags(false, true, false, true) && b.nest == 0 && b.clk.cur == 0
  {
  }

  /** The objects start as they are configured: semaphores with their initial counts, event flags with their
      initial patterns, buffers empty and blocks free. */
  lemma ObjectsStartWith(g: Config, act: seq<Tid>, o: Objects, i: nat)
    requires ValidConfig(g) && forall k :: 0 <= k < |act| ==> act[k] < |g.ipri|
    ensures var s := StartSys(g, act, o);
            && |s.sem| == |o.sem| && |s.flg| == |o.flg| && |s.dtq| == |o.dtqcnt| && |s.pdq| == |o.pdq|
            && |s.mpf| == |o.mpf| && s.c == InitCore(g, Queues(o), act)
            && (i < |s.sem| ==> s.sem[i].cnt == o.sem[i].isemcnt && s.sem[i].max == o.sem[i].maxsem)
            && (i < |s.flg| ==>
                  s.flg[i].ptn == o.flg[i].iflgptn && s.flg[i].clr == o.flg[i].clr && s.flg[i].wmul == o.flg[i].wmul)
            && (i < |s.dtq| ==> s.dtq[i].buf == [] && s.dtq[i].cap == o.dtqcnt[i])
            && (i < |s.pdq| ==>
                  s.pdq[i].arr == [] && s.pdq[i].cap == o.pdq[i].pdqcnt && s.pdq[i].maxdpri == o.pdq[i].maxdpri)
            && (i < |s.mpf| ==>
                  && s.mpf[i].blkcnt == o.mpf[i].blkcnt && s.mpf[i].blksz == o.mpf[i].blksz
                  && s.mpf[i].base == o.mpf[i].mpf && s.mpf[i].unused == 0 && s.mpf[i].free == [])
  {
    hide InitCore, Queues;
  }
}
