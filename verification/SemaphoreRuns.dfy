/** Conservation of semaphore resources over whole runs, counted from the calls themselves. */
module SemaphoreRuns {
  import opened Types
  import opened TaskQueues
  import opened Core
  import opened TaskCalls
  import opened WaitQueues
  import opened Semaphore
  import opened System
  import opened SystemProofs

  /** The call returns a resource: sig_sem or isig_sem with E_OK. */
  predicate Signals(g: Config, s: Sys, op: Op, i: nat) {
    op == OnSem(i, Sig) && i < |s.sem| && QueueOk(s.c, SemQ(i)) && SigSem(g, s.c, s.sem[i], i).2 == E_OK
  }

  /** A task gets a resource: at once, or, waiting, from the one that is returned. */
  predicate Acquires(g: Config, s: Sys, op: Op, i: nat) {
    && op.OnSem? && op.i == i && i < |s.sem|
    && match op.sop
       case Wai(p) => RunsTask(s.c) && WaiSem(g, s.c, s.sem[i], i, p).2 == E_OK
       case Sig => Signals(g, s, op, i) && WaitQ(s.c, SemQ(i)) != []
       case IniS => false
  }

  function Count(b: bool): nat { if b then 1 else 0 }

  lemma StepConserves(g: Config, s: Sys, op: Op, i: nat)
    requires May(g, s, op) && i < |s.sem| && op != OnSem(i, IniS)
    ensures i < |Step(g, s, op).sem|
    ensures Step(g, s, op).sem[i].cnt + Count(Acquires(g, s, op, i)) == s.sem[i].cnt + Count(Signals(g, s, op, i))
  {
    hide Wake, Block;
    StepOthersSame(g, s, op);
  }

  function Signalled(g: Config, tr: seq<Sys>, ops: seq<Op>, i: nat, n: nat): nat
    requires n <= |ops| < |tr|
  {
    if n == 0 then 0 else Signalled(g, tr, ops, i, n - 1) + Count(Signals(g, tr[n - 1], ops[n - 1], i))
  }

  function Acquired(g: Config, tr: seq<Sys>, ops: seq<Op>, i: nat, n: nat): nat
    requires n <= |ops| < |tr|
  {
    if n == 0 then 0 else Acquired(g, tr, ops, i, n - 1) + Count(Acquires(g, tr[n - 1], ops[n - 1], i))
  }

  /** In any run without reinitialisation: what was there and what was returned is what was acquired
      and what is there; the count stays within its bounds; and while it is positive nobody waits --
      whatever timeouts, forced releases and terminations there were meanwhile. */
  lemma {:induction false} RunConserves(g: Config, tr: seq<Sys>, ops: seq<Op>, i: nat, n: nat)
    requires IsRun(g, tr, ops) && SysInv(g, tr[0]) && i < |tr[0].sem| && n <= |ops|
    requires forall k :: 0 <= k < n ==> ops[k] != OnSem(i, IniS)
    ensures |tr[n].sem| == |tr[0].sem|
    ensures tr[n].sem[i].cnt + Acquired(g, tr, ops, i, n) == tr[0].sem[i].cnt + Signalled(g, tr, ops, i, n)
    ensures tr[n].sem[i].cnt <= tr[n].sem[i].max && (tr[n].sem[i].cnt > 0 ==> WaitQ(tr[n].c, SemQ(i)) == [])
  {
    hide Inv, May, Step, Signals, Acquires;
    RunsKeepInv(g, tr, ops, n);
    if n > 0 {
      RunConserves(g, tr, ops, i, n - 1);
      assert tr[n - 1 + 1] == Step(g, tr[n - 1], ops[n - 1]);
      StepConserves(g, tr[n - 1], ops[n - 1], i);
      StepOthersSame(g, tr[n - 1], ops[n - 1]);
    }
    SemInvOf(g, tr[n], i);
  }

  lemma SemInvOf(g: Config, s: Sys, i: nat)
    requires SysInv(g, s) && i < |s.sem|
    ensures SemInv(s.c, s.sem[i], i)
  {
  }
}
