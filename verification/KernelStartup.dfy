/** The initialisation functions of the kernel: initialize_task, initialize_cyclic, and the first
    dispatch. */
module KernelStartup {
  import opened Types
  import opened Seqs
  import opened SystemClock
  import opened TaskQueues
  import opened HeapNodes
  import opened TaskScheduler
  import opened Core
  import opened CoreProofs
  import opened TaskCalls
  import opened TimeCalls
  import opened WaitQueues
  import opened Startup
  import opened KernelState
  import Handlers

  /** initialize_task: tasks with TA_ACT are activated in the order of their creation. */
  method InitializeTask(k: Kernel, act: seq<Tid>)
    requires k.Valid() && Good(k.g, k.View()) && TasksIn(k.View(), act) && NoDup(act)
    requires forall i :: 0 <= i < |act| ==> k.s.tcb[act[i]].tstat.Dormant?
    modifies k.s, k.s.links
    ensures TasksIn(old(k.View()), act) && k.Valid() && k.View() == ActivateAll(k.g, old(k.View()), act)
  {
    hide Kernel.Valid, Good, SetTask;
    ghost var c0 := k.View();
    for i := 0 to |act|
      invariant k.Valid() && Good(k.g, k.View()) && TasksIn(k.View(), act[i..])
      invariant forall j :: i <= j < |act| ==> k.s.tcb[act[j]].tstat.Dormant?
      invariant ActivateAll(k.g, c0, act) == ActivateAll(k.g, k.View(), act[i..])
    {
      ghost var c := k.View();
      OneActivated(k.g, c, act, i);
      var _ := k.MakeActive(act[i]);
      assert act[i..][1..] == act[i + 1..];
    }
  }

  lemma OneActivated(g: Config, c: Core, act: seq<Tid>, i: nat)
    requires Good(g, c) && NoDup(act) && i < |act| && TasksIn(c, act[i..])
    requires forall j :: i <= j < |act| ==> act[j] < |c.ts.tcb| && c.ts.tcb[act[j]].tstat.Dormant?
    ensures Linked(c.ts) && act[i] < |c.ts.tcb|
    ensures var c1 := Activate(g, c, act[i]);
            && Good(g, c1) && TasksIn(c1, act[i + 1..])
            && forall j :: i < j < |act| ==> act[j] < |c1.ts.tcb| && c1.ts.tcb[act[j]].tstat.Dormant?
  {
    ActivateGood(g, c, act[i]);
  }

  /** initialize_cyclic. */
  method InitializeCyclic(k: Kernel)
    requires k.Valid() && ValidConfig(k.g) && Good(k.g, k.View()) && k.h.clk == InitClock(k.g) && k.drain.None?
    requires forall i :: 0 <= i < |k.cyc| ==> !k.cyc[i].sta
    modifies k`cyccb, k`cyc, k.h, k.h.tmevt_heap
    ensures |old(k.cyc)| == |k.g.cyc| && k.Valid() && k.View() == StartHandlers(k.g, old(k.View()), |k.g.cyc|)
  {
    hide Kernel.Valid, Good;
    ghost var c0 := k.View();
    StartHandlersGood(k.g, c0, 0);
    CycCount(k.g, c0);
    for i := 0 to |k.g.cyc|
      invariant k.Valid() && k.View() == StartHandlers(k.g, c0, i)
    {
      ghost var c := k.View();
      StartHandlersGood(k.g, c0, i);
      if k.g.cyc[i].sta {
        CycFits(k.g, c, i);
        Handlers.EnqueueCyc(k, i, k.g.cyc[i].cycphs, k.g.cyc[i].cycphs, k.g.cyc[i].cycphs, 0);
      }
    }
  }

  lemma CycCount(g: Config, c: Core)
    requires Good(g, c)
    ensures |c.cyc| == |g.cyc|
  {
  }

  lemma CycFits(g: Config, c: Core, i: nat)
    requires ValidConfig(g) && Good(g, c) && i < |g.cyc| && !c.cyc[i].sta && c.clk == InitClock(g)
    ensures CycBlk(i) in AllBlks(g) && CycBlk(i) !in c.tm
    ensures g.cyc[i].cycphs == Low(g.cyc[i].cycphs) && c.clk.min <= g.cyc[i].cycphs < c.clk.min + EVTTIM_MOD
  {
  }

  /** sta_ker: the kernel at its first dispatch. */
  method StartKernel(g: Config, wqs: set<WQ>, act: seq<Tid>) returns (k: Kernel)
    requires ValidConfig(g) && NoDup(act) && forall i :: 0 <= i < |act| ==> act[i] < |g.ipri|
    ensures fresh(k) && k.Valid() && k.g == g && k.wqs == wqs
    ensures k.View() == InitCore(g, wqs, act) && Inv(g, k.View())
  {
    hide Kernel.Valid, Good, Inv, StartHandlers, ActivateAll;
    k := new Kernel(g, wqs, seq(|g.ipri|, t requires 0 <= t < |g.ipri| => DormantTask(g.ipri[t])));
    assert k.View() == Blank(g, wqs);
    BlankGood(g, wqs);
    ActivateAllGood(g, k.View(), act);
    InitializeTask(k, act);
    InitializeCyclic(k);
    k.DispatchTask();
    InitCoreInv(g, wqs, act);
  }
}
