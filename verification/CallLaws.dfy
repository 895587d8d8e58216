/** What one service call undoes of another, and what a call leaves alone. */
module CallLaws {
  import opened Types
  import opened Seqs
  import opened TaskQueues
  import opened SystemClock
  import opened Core
  import opened CoreProofs
  import opened TaskCalls
  import opened TaskCallProofs
  import opened TimeCalls
  import opened WaitQueues
  import opened TaskScheduler

  lemma MarkBack(c: Core, t: Tid, b: TCB)
    requires t < |c.ts.tcb|
    ensures Mark(Mark(c, t, b), t, c.ts.tcb[t]) == c
  {
    assert c.ts.tcb[t := b][t := c.ts.tcb[t]] == c.ts.tcb;
  }

  /** rsm_tsk undoes sus_tsk on a task that waits. */
  lemma ResumeUndoesSuspend(g: Config, c: Core, t: Tid)
    requires Inv(g, c) && InTask(c) && IsTask(c, t) && c.ts.tcb[t].tstat.Waiting? && !c.ts.tcb[t].tstat.susp
    ensures var (c1, er) := SusTsk(g, c, t);
            er == E_OK && IsTask(c1, t) && c1.ts.tcb[t].tstat.susp && RsmTsk(g, c1, t) == (c, E_OK)
  {
    MarkBack(c, t, SusTsk(g, c, t).0.ts.tcb[t]);
  }

  /** can_act takes back the activation that act_tsk has queued, and says so. */
  lemma CancelUndoesActivate(g: Config, c: Core, t: Tid)
    requires Inv(g, c) && InTask(c) && IsTask(c, t) && !c.ts.tcb[t].tstat.Dormant? && !c.ts.tcb[t].actque
    ensures var (c1, er) := ActTsk(g, c, t);
            er == E_OK && IsTask(c1, t) && CanAct(g, c1, t) == (c, E_OK, 1) && ActTsk(g, c1, t) == (c1, E_QOVR)
  {
    MarkBack(c, t, ActTsk(g, c, t).0.ts.tcb[t]);
  }

  /** can_wup takes back a queued wakeup. */
  lemma CancelUndoesWakeup(g: Config, c: Core, t: Tid)
    requires Inv(g, c) && InTask(c) && IsTask(c, t) && !c.ts.tcb[t].tstat.Dormant? && !c.ts.tcb[t].wupque
    requires !(c.ts.tcb[t].tstat.Waiting? && c.ts.tcb[t].tstat.why.Slp?)
    ensures var (c1, er) := WupTsk(g, c, t);
            er == E_OK && IsTask(c1, t) && CanWup(g, c1, t) == (c, E_OK, 1) && WupTsk(g, c1, t) == (c1, E_QOVR)
  {
    MarkBack(c, t, WupTsk(g, c, t).0.ts.tcb[t]);
  }

  /** A wakeup that comes before the task goes to sleep is not lost: the task does not sleep at all. */
  lemma EarlyWakeupKept(g: Config, c: Core, p: Patience)
    requires Inv(g, c) && MayBlock(c) && p.Tmo? && TmoOk(p) && IsTask(c, c.run.value) && !c.ts.tcb[c.run.value].wupque
    ensures var (c1, er) := WupTsk(g, c, c.run.value);
            er == E_OK && RunsTask(c1) && SlpTsk(g, c1, p) == (c, E_OK)
  {
    MarkBack(c, c.run.value, WupTsk(g, c, c.run.value).0.ts.tcb[c.run.value]);
  }

  /** ena_dsp undoes dis_dsp. */
  lemma EnableUndoesDisable(g: Config, c: Core)
    requires Inv(g, c) && InTask(c) && c.fl.dspflg
    ensures var (c1, er) := DisDsp(c); er == E_OK && !c1.fl.dspflg && EnaDsp(c1) == (c, E_OK)
  {
  }

  lemma {:induction false} RemoveLast(s: seq<Tid>, t: Tid)
    requires t !in s
    ensures Remove(s + [t], t) == s
  {
    if s == [] {
      assert s + [t] == [t];
    } else {
      RemoveLast(s[1..], t);
      assert (s + [t])[1..] == s[1..] + [t];
    }
  }

  /** Taking out the task that was appended last leaves the queues as they were. */
  lemma AppendedLeaves(g: Config, c: Core, t: Tid)
    requires Good(g, c) && IsTask(c, t) && t < |g.ipri| && c.ts.tcb[t] == Initial(g, c.ts.tcb[t], t)
    requires Ready(c.ts.tcb[t].priority) in c.ts.q
    ensures Terminate(g, Activate(g, c, t), t) == c
    ensures var r := Ready(c.ts.tcb[t].priority); Activate(g, c, t).ts.q == c.ts.q[r := At(c.ts.q, r) + [t]]
  {
    var b, r, c1 := c.ts.tcb[t], Ready(c.ts.tcb[t].priority), Activate(g, c, t);
    assert On(c.ts.q, r, t) <==> Belongs(c.ts.tcb, r, t);
    RemoveLast(At(c.ts.q, r), t);
    NotTimed(g, c, t);
    assert c1.ts.q[r := Remove(At(c1.ts.q, r), t)] == c.ts.q;
    assert c1.ts.tcb[t := b] == c.ts.tcb;
  }

  /** ter_tsk undoes act_tsk on a task that has not got the processor by it. */
  lemma TerminateUndoesActivate(g: Config, c: Core, t: Tid)
    requires Inv(g, c) && InTask(c) && IsTask(c, t) && |c.ts.tcb| == |g.ipri| && c.run != Some(t)
    requires c.ts.tcb[t] == Initial(g, c.ts.tcb[t], t) && !c.ts.tcb[t].actque && Ready(c.ts.tcb[t].priority) in c.ts.q
    ensures var (c1, er) := ActTsk(g, c, t);
            && er == E_OK && IsTask(c1, t) && |c1.ts.tcb| == |g.ipri| && c1.ts.tcb[t].tstat.Runnable?
            && (c1.run != Some(t) ==> TerTsk(g, c1, t) == (c, E_OK))
  {
    hide Linked, Sorted, TimersInv, TimeInv, Terminate, Top;
    AppendedLeaves(g, c, t);
    var a := Activate(g, c, t);
    assert c.ts.tcb[t].priority < TNUM_TPRI;
    TopAppend(c.ts.q, c.ts.tcb[t].priority, t);
  }

  lemma RemoveInserted(s: seq<Tid>, k: nat, t: Tid)
    requires t !in s && NoDup(s) && k <= |s|
    ensures Remove(s[..k] + [t] + s[k..], t) == s
  {
    InsertMembers(s, k, t);
    var r := s[..k] + [t] + s[k..];
    RemoveAt(r, k);
    assert r[..k] + r[k + 1..] == s;
  }

  /** Whatever a call does with task t, in every queue the other tasks keep their order. */
  lemma OthersKeepOrder(g: Config, ts: Tasks, t: Tid, b: TCB, h: QId)
    requires Linked(ts) && t < |ts.tcb|
    ensures var r := Rehome(g, ts, t, b);
            && Remove(At(r.q, h), t) == Remove(At(ts.q, h), t)
            && (forall u :: 0 <= u < |ts.tcb| && u != t ==> r.tcb[u] == ts.tcb[u])
  {
    UnlinkLinks(ts, t);
    var q, s := Unlink(ts, t), At(Unlink(ts, t), h);
    assert !On(q, h, t) && NoDup(s);
    RemoveAbsent(s, t);
    if Home(ts.tcb[t]) != Some(h) {
      assert s == At(ts.q, h);
    } else {
      assert s == Remove(At(ts.q, h), t);
    }
    if Home(b) == Some(h) {
      var tcb := ts.tcb[t := b];
      var k := if ByPriority(g, h) then PriPos(tcb, s, Prio(tcb, t)) else |s|;
      assert Insert(g, tcb, h, s, t) == s[..k] + [t] + s[k..];
      RemoveInserted(s, k, t);
    }
  }

  /** A ready queue rotated n times. */
  function Rotated(s: seq<Tid>, n: nat): (r: seq<Tid>)
    ensures |r| == |s|
  {
    if n == 0 then s else RotatedSeq(Rotated(s, n - 1))
  }

  lemma {:induction false} RotatedIs(s: seq<Tid>, n: nat)
    requires n <= |s|
    ensures Rotated(s, n) == s[n..] + s[..n]
  {
    if n > 0 {
      RotatedIs(s, n - 1);
      assert s[n - 1..] + s[..n - 1] == [s[n - 1]] + s[n..] + s[..n - 1];
      assert s[..n] == s[..n - 1] + [s[n - 1]];
    } else {
      assert s[0..] + s[..0] == s;
    }
  }

  /** Round robin: as many rotations as there are tasks of the priority restore their order, and before
      that each of them has been at the head once. */
  lemma RotationGoesRound(s: seq<Tid>, n: nat)
    requires n < |s|
    ensures Rotated(s, |s|) == s && Rotated(s, n)[0] == s[n]
  {
    RotatedIs(s, |s|);
    RotatedIs(s, n);
  }
}
