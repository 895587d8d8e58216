/** The state in which the kernel starts to dispatch (sta_ker and the initialisation functions). */
module Startup {
  import opened Types
  import opened Seqs
  import opened TaskQueues
  import opened SystemClock
  import opened Core
  import opened CoreProofs
  import opened TaskCalls
  import opened TaskCallProofs
  import opened TimeCalls
  import opened TimeCallProofs
  import opened WaitQueues
  import opened Semaphore
  import opened EventFlag
  import D = DataQueue
  import P = PriDataQueue
  import opened MemoryPool
  import opened System
  import opened SystemProofs

  function DormantTask(pri: nat): TCB {
    TCB(Dormant, pri, false, false, Wercd(E_OK), NoData)
  }

  /** Every task dormant, every queue and the event heap empty, no handler started. */
  function Blank(g: Config, wqs: set<WQ>): Core
    requires ValidConfig(g)
  {
    Core(Tasks(seq(|g.ipri|, t requires 0 <= t < |g.ipri| => DormantTask(g.ipri[t])), map h | h in Headers(wqs) :: []),
         map[], None, Flags(false, true, false, true), 0, None, [], InitClock(g),
         seq(|g.cyc|, i => Cyc(false, 0, 0, 0)), seq(g.nalm, i => false))
  }

  /** initialize_task activates the tasks with TA_ACT in the order of their creation. */
  function ActivateAll(g: Config, c: Core, act: seq<Tid>): (r: Core)
    requires TasksIn(c, act)
    ensures |r.ts.tcb| == |c.ts.tcb| && r.cyc == c.cyc
    decreases |act|
  {
    if act == [] then c else ActivateAll(g, Activate(g, c, act[0]), act[1..])
  }

  /** initialize_cyclic starts the handlers with TA_STA, the first n of which are done here. */
  function StartHandlers(g: Config, c: Core, n: nat): (r: Core)
    requires n <= |c.cyc| == |g.cyc|
    ensures |r.cyc| == |c.cyc|
  {
    if n == 0 then c
    else
      var c1 := StartHandlers(g, c, n - 1);
      if g.cyc[n - 1].sta then EnqueueCyc(c1, n - 1, g.cyc[n - 1].cycphs, g.cyc[n - 1].cycphs, 0) else c1
  }

  function InitCore(g: Config, wqs: set<WQ>, act: seq<Tid>): Core
    requires ValidConfig(g) && forall k :: 0 <= k < |act| ==> act[k] < |g.ipri|
  {
    Dispatch(StartHandlers(g, ActivateAll(g, Blank(g, wqs), act), |g.cyc|))
  }

  lemma BlankGood(g: Config, wqs: set<WQ>)
    requires ValidConfig(g)
    ensures Good(g, Blank(g, wqs))
  {
    var c := Blank(g, wqs);
    InitClockInv(g);
    forall h, t ensures On(c.ts.q, h, t) <==> Belongs(c.ts.tcb, h, t) {}
    assert Linked(c.ts) && Sorted(g, c.ts);
    assert TimersInv(g, c);
  }

  lemma {:induction false} ActivateAllGood(g: Config, c: Core, act: seq<Tid>)
    requires Good(g, c) && TasksIn(c, act) && NoDup(act)
    requires forall k :: 0 <= k < |act| ==> c.ts.tcb[act[k]].tstat.Dormant?
    ensures Good(g, ActivateAll(g, c, act)) && Quiet(c, ActivateAll(g, c, act))
    decreases |act|
  {
    if act != [] {
      ActivateGood(g, c, act[0]);
      var c1 := Activate(g, c, act[0]);
      ActivateAllGood(g, c1, act[1..]);
      QuietTrans(c, c1, ActivateAll(g, c1, act[1..]));
    }
  }

  lemma {:induction false} StartHandlersGood(g: Config, c: Core, n: nat)
    requires ValidConfig(g) && Good(g, c) && n <= |g.cyc| && c.clk == InitClock(g) && c.drain.None?
    requires forall i :: 0 <= i < |c.cyc| ==> !c.cyc[i].sta
    ensures var r := StartHandlers(g, c, n);
            && Good(g, r) && Quiet(c, r) && r.ts == c.ts
            && forall i :: 0 <= i < |r.cyc| ==> (r.cyc[i].sta <==> i < n && g.cyc[i].sta)
  {
    if n > 0 {
      StartHandlersGood(g, c, n - 1);
      var c1 := StartHandlers(g, c, n - 1);
      if g.cyc[n - 1].sta { StartHandlerGood(g, c1, n - 1); }
    }
  }

  lemma StartHandlerGood(g: Config, c: Core, i: nat)
    requires ValidConfig(g) && Good(g, c) && i < |g.cyc| && c.clk == InitClock(g) && c.drain.None? && !c.cyc[i].sta
    ensures Good(g, EnqueueCyc(c, i, g.cyc[i].cycphs, g.cyc[i].cycphs, 0))
  {
    var r := EnqueueCyc(c, i, g.cyc[i].cycphs, g.cyc[i].cycphs, 0);
    ClockBounds(g, c.clk, false);
    CycTimersSet(g, c.cyc, c.tm, i, r.cyc[i], r.tm);
    HandlerGood(g, c, r, CycBlk(i));
  }

  /** The kernel starts with its invariants established, dispatching the first of the highest
      priority among the tasks activated at start. */
  lemma InitCoreInv(g: Config, wqs: set<WQ>, act: seq<Tid>)
    requires ValidConfig(g) && NoDup(act) && forall k :: 0 <= k < |act| ==> act[k] < |g.ipri|
    ensures Inv(g, InitCore(g, wqs, act))
  {
    BlankGood(g, wqs);
    ActivateAllGood(g, Blank(g, wqs), act);
    var c1 := ActivateAll(g, Blank(g, wqs), act);
    StartHandlersGood(g, c1, |g.cyc|);
    DispatchOk(g, c1, StartHandlers(g, c1, |g.cyc|));
  }

  /** Objects as their initialisation functions leave them. */
  predicate Initialised(s: Sys) {
    && (forall i :: 0 <= i < |s.sem| ==>
          s.sem[i].signals == 0 == s.sem[i].acquired && s.sem[i].cnt == s.sem[i].init <= s.sem[i].max)
    && (forall i :: 0 <= i < |s.flg| ==> s.flg[i].ptn == s.flg[i].init)
    && (forall i :: 0 <= i < |s.dtq| ==> s.dtq[i].buf == [])
    && (forall i :: 0 <= i < |s.pdq| ==> s.pdq[i].arr == [])
    && (forall i :: 0 <= i < |s.mpf| ==>
          s.mpf[i].blksz > 0 && s.mpf[i].unused == 0 && s.mpf[i].free == [] && s.mpf[i].owner == map[])
  }

  lemma NobodyWaits(g: Config, wqs: set<WQ>, act: seq<Tid>, wq: WQ)
    requires ValidConfig(g) && NoDup(act) && forall k :: 0 <= k < |act| ==> act[k] < |g.ipri|
    ensures WaitQ(InitCore(g, wqs, act), wq) == []
  {
    BlankGood(g, wqs);
    ActivateAllGood(g, Blank(g, wqs), act);
    var c1 := ActivateAll(g, Blank(g, wqs), act);
    StartHandlersGood(g, c1, |g.cyc|);
    ActivatedQueues(g, Blank(g, wqs), act, wq);
  }

  lemma {:induction false} ActivatedQueues(g: Config, c: Core, act: seq<Tid>, wq: WQ)
    requires TasksIn(c, act) && NoDup(act) && WaitQ(c, wq) == []
    requires forall k :: 0 <= k < |act| ==> c.ts.tcb[act[k]].tstat.Dormant?
    ensures WaitQ(ActivateAll(g, c, act), wq) == []
    decreases |act|
  {
    if act != [] { ActivatedQueues(g, Activate(g, c, act[0]), act[1..], wq); }
  }

  lemma InitSysInv(g: Config, wqs: set<WQ>, act: seq<Tid>, s: Sys)
    requires ValidConfig(g) && NoDup(act) && forall k :: 0 <= k < |act| ==> act[k] < |g.ipri|
    requires s.c == InitCore(g, wqs, act) && Initialised(s)
    ensures SysInv(g, s)
  {
    hide InitCore, Inv;
    InitCoreInv(g, wqs, act);
    forall wq ensures WaitQ(s.c, wq) == [] { NobodyWaits(g, wqs, act, wq); }
    InitObjects(s);
  }

  lemma InitObjects(s: Sys)
    requires Initialised(s) && forall wq :: WaitQ(s.c, wq) == []
    ensures ObjectsInv(s)
  {
    forall i | 0 <= i < |s.mpf| ensures MpfInv(s.c, s.mpf[i], i) {
      forall b: nat ensures b in s.mpf[i].owner <==> InUse(s.mpf[i], b) {}
    }
  }

  /** Every state that the kernel reaches from its start satisfies all the invariants. */
  lemma ReachableStatesAreSafe(g: Config, wqs: set<WQ>, act: seq<Tid>, tr: seq<Sys>, ops: seq<Op>, n: nat)
    requires ValidConfig(g) && NoDup(act) && forall k :: 0 <= k < |act| ==> act[k] < |g.ipri|
    requires IsRun(g, tr, ops) && tr[0].c == InitCore(g, wqs, act) && Initialised(tr[0]) && n < |tr|
    ensures SysInv(g, tr[n])
  {
    InitSysInv(g, wqs, act, tr[0]);
    RunsKeepInv(g, tr, ops, n);
  }
}
