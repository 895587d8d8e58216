/** When a data queue does not keep the order of sending: exactly when a forced datum is accepted while tasks
    wait to send. */
module DataQueueOrder {
  import opened Types
  import opened TaskQueues
  import opened Core
  import opened CoreProofs
  import opened TaskCalls
  import opened TaskCallProofs
  import opened WaitQueues
  import opened DataQueue
  import opened System
  import opened SystemProofs
  import opened DataFlow
  import opened DataQueueRuns
  import opened Startup
  import opened WholeStart

  /** x is new, and came before m, which was there. */
  lemma {:induction false} NotInOrder(u: seq<int>, x: int, m: seq<int>, l: seq<int>)
    requires x !in l && m != []
    ensures !Sub(u + [x] + m, l + [x])
    decreases |l|
  {
    var w := u + [x] + m;
    if Sub(w, l + [x]) {
      if l == [] {
        SubSameLength(w, l + [x]);
      } else {
        assert (l + [x])[0] == l[0] && (l + [x])[1..] == l[1..] + [x];
        if w[0] == l[0] && Sub(w[1..], l[1..] + [x]) {
          assert u != [] && w[1..] == u[1..] + [x] + m;
          NotInOrder(u[1..], x, m, l[1..]);
        } else {
          NotInOrder(u, x, m, l[1..]);
        }
      }
    }
  }

  /** A forced datum that differs from those there breaks the order if it is accepted past waiting senders. */
  lemma ForcedBreaksOrder(g: Config, c: Core, d: Dtq, i: nat, x: int)
    requires Inv(g, c) && DtqInv(c, d, i) && DtqArgs(g, c, d, i)
    requires Live(c) && d.cap > 0 && WaitQ(c, SDtqQ(i)) != [] && x !in Logical(c, d, i)
    ensures var (c', d') := DtqStep(g, c, d, i, Fsnd(x)); var f := CallFlow(g, c, d, i, Fsnd(x));
            !Sub(f.delivered + Logical(c', d', i), Logical(c, d, i) + f.sent)
  {
    hide Inv, Sub, FsndDtq, Logical, WakeAll;
    FsndRefused(g, c, d, i, x);
    FsndLogical(g, c, d, i, x);
    SenderAtFull(c, d, i);
    var m := Msgs(c.ts.tcb, WaitQ(c, SDtqQ(i)));
    NotInOrder(d.buf[1..], x, m, Logical(c, d, i));
    assert [] + (d.buf[1..] + [x] + m) == d.buf[1..] + [x] + m;
  }

  /** Exactly the steps that overtake break the order, on a queue without TA_TPRI; x is new, so that it can
      be told from the data there. */
  lemma StepOrderExact(g: Config, s: Sys, op: Op, i: nat)
    requires SysInv(g, s) && May(g, s, op) && i < |s.dtq| && !Tpri(g, SDtqQ(i))
    requires op.OnDtq? && op.i == i && op.dop.Fsnd? ==> op.dop.x !in Logical(s.c, s.dtq[i], i)
    ensures var s', f := Step(g, s, op), FlowOf(g, s, op, i);
            && |s'.dtq| == |s.dtq|
            && (Sub(f.delivered + Logical(s'.c, s'.dtq[i], i), Logical(s.c, s.dtq[i], i) + f.sent)
                <==> !Overtakes(s, op, i))
  {
    hide Inv, Sub, Logical, CallFlow, DtqStep, Balances, DtqInv;
    StepFlows(g, s, op, i);
    if Overtakes(s, op, i) { ForcedBreaksOrder(g, s.c, s.dtq[i], i, op.dop.x); }
  }

  // ----- a run in which it happens -----

  const Ever := Tmo(TMO_FEVR)

  /** A call on queue i and its place in the whole system. */
  lemma CallOn(g: Config, s: Sys, i: nat, op: DtqOp)
    requires SysInv(g, s) && i < |s.dtq| && (op.Snd? || op.Rcv? ==> TmoType(op.p))
    ensures May(g, s, OnDtq(i, op)) && SysInv(g, Step(g, s, OnDtq(i, op))) && DtqArgs(g, s.c, s.dtq[i], i)
    ensures Inv(g, s.c) && DtqInv(s.c, s.dtq[i], i)
    ensures var s' := Step(g, s, OnDtq(i, op));
            && i < |s'.dtq| && (s'.c, s'.dtq[i]) == DtqStep(g, s.c, s.dtq[i], i, op)
            && FlowOf(g, s, OnDtq(i, op), i) == CallFlow(g, s.c, s.dtq[i], i, op)
  {
    hide Inv, DtqStep, CallFlow, DtqInv, DtqArgs;
    CallsAlwaysPossible(g, s, OnDtq(i, op));
    StepKeepsInv(g, s, OnDtq(i, op));
  }

  /** Task u can run whenever the others wait. */
  predicate Spare(c: Core, u: Tid) { u < |c.ts.tcb| && c.ts.tcb[u].tstat.Runnable? }

  lemma SomebodyRuns(g: Config, c: Core, u: Tid)
    requires Inv(g, c) && c.nest == 0 && Spare(c, u)
    ensures InTask(c)
  {
    TopRunnable(c.ts);
  }

  lemma SendBuffers(g: Config, c: Core, d: Dtq, i: nat, x: int)
    requires DtqArgs(g, c, d, i) && MayBlock(c) && WaitQ(c, RDtqQ(i)) == [] && |d.buf| < d.cap
    ensures DtqStep(g, c, d, i, Snd(x, Ever)) == (c, d.(buf := d.buf + [x]))
    ensures CallFlow(g, c, d, i, Snd(x, Ever)) == Flow([x], [], [], [])
  {
    hide WakeAll;
  }

  lemma SendWaits(g: Config, c: Core, d: Dtq, i: nat, x: int, u: Tid)
    requires Inv(g, c) && DtqArgs(g, c, d, i) && MayBlock(c) && Spare(c, u) && c.run != Some(u)
    requires WaitQ(c, RDtqQ(i)) == [] == WaitQ(c, SDtqQ(i)) && |d.buf| == d.cap && !Tpri(g, SDtqQ(i))
    ensures var (c', d') := DtqStep(g, c, d, i, Snd(x, Ever)); var t := c.run.value;
            && d' == d && WaitQ(c', SDtqQ(i)) == [t] && WaitQ(c', RDtqQ(i)) == [] && DataOf(c', t) == MsgData(x, 0)
            && c'.nest == 0 && Spare(c', u)
    ensures CallFlow(g, c, d, i, Snd(x, Ever)) == Flow([x], [], [], [])
  {
    hide WakeAll, Block, Good;
    BlockQueues(g, c, SDtqQ(i), MsgData(x, 0), None);
    BlockNest(g, c, Obj(SDtqQ(i)), MsgData(x, 0), None);
  }

  lemma BlockNest(g: Config, c: Core, why: Why, d: WData, timer: Option<nat>)
    requires c.run.Some? && c.run.value < |c.ts.tcb|
    ensures Block(g, c, why, d, timer).nest == c.nest && |Block(g, c, why, d, timer).ts.tcb| == |c.ts.tcb|
  {
  }

  lemma ForcedPasses(g: Config, c: Core, d: Dtq, i: nat, x: int)
    requires DtqArgs(g, c, d, i) && InTask(c) && WaitQ(c, RDtqQ(i)) == [] && |d.buf| == d.cap > 0
    ensures DtqStep(g, c, d, i, Fsnd(x)) == (c, d.(buf := d.buf[1..] + [x]))
    ensures CallFlow(g, c, d, i, Fsnd(x)) == Flow([x], [], d.buf[..1], [])
  {
    hide WakeAll;
  }

  /** Receiving while a task waits to send. */
  lemma ReceiveRefills(g: Config, c: Core, d: Dtq, i: nat, t: Tid, x: int, u: Tid)
    requires Inv(g, c) && DtqArgs(g, c, d, i) && InTask(c) && Spare(c, u) && d.buf != []
    requires WaitQ(c, SDtqQ(i)) == [t] && DataOf(c, t) == MsgData(x, 0)
    ensures var (c', d') := DtqStep(g, c, d, i, Rcv(Polling));
            && d' == d.(buf := d.buf[1..] + [x]) && WaitQ(c', SDtqQ(i)) == [] && c'.nest == 0 && Spare(c', u)
    ensures CallFlow(g, c, d, i, Rcv(Polling)) == Flow([], [d.buf[0]], [], [])
  {
    hide WakeAll, Sorted, TimersInv, TimeInv, DispInv, Unlink, Insert, Top;
    WaitersAreWaiting(c, SDtqQ(i));
    assert t in WaitQ(c, SDtqQ(i));
    WakeHead(g, c, SDtqQ(i), E_OK, DataOf(c, t));
    WokenTcb(g, c, t, E_OK, DataOf(c, t));
    OtherTcb(g, c, t, E_OK, DataOf(c, t), u);
  }

  lemma OtherTcb(g: Config, c: Core, t: Tid, code: ER, d: WData, u: Tid)
    requires t < |c.ts.tcb| && c.ts.tcb[t].tstat.Waiting? && Spare(c, u)
    ensures Spare(Wake(g, c, t, code, d), u) && Wake(g, c, t, code, d).nest == c.nest
  {
  }

  lemma ReceiveTakes(g: Config, c: Core, d: Dtq, i: nat)
    requires DtqArgs(g, c, d, i) && InTask(c) && WaitQ(c, SDtqQ(i)) == [] && d.buf != []
    ensures DtqStep(g, c, d, i, Rcv(Polling)) == (c, d.(buf := d.buf[1..]))
    ensures CallFlow(g, c, d, i, Rcv(Polling)) == Flow([], [d.buf[0]], [], [])
  {
    hide WakeAll;
  }

  function Calls(i: nat): seq<Op> {
    [OnDtq(i, Snd(1, Ever)), OnDtq(i, Snd(2, Ever)), OnDtq(i, Fsnd(3)), OnDtq(i, Rcv(Polling)), OnDtq(i, Rcv(Polling))]
  }

  /** An empty queue for one datum, without TA_TPRI, and two tasks that can run. */
  predicate Fresh(g: Config, s: Sys, i: nat, u: Tid) {
    && i < |s.dtq| && s.dtq[i] == Dtq([], 1) && WaitQ(s.c, SDtqQ(i)) == [] == WaitQ(s.c, RDtqQ(i))
    && !Tpri(g, SDtqQ(i)) && MayBlock(s.c) && Spare(s.c, u) && s.c.run != Some(u)
  }

  /** The call leads from s to s', with flow f. */
  ghost predicate Goes(g: Config, s: Sys, op: Op, i: nat, f: Flow, s': Sys) {
    May(g, s, op) && s' == Step(g, s, op) && FlowOf(g, s, op, i) == f
  }

  /** A task waits to send 2, behind the 3 in the buffer. */
  ghost predicate Overtaken(s: Sys, i: nat, u: Tid) {
    && i < |s.dtq| && s.dtq[i] == Dtq([3], 1) && s.c.nest == 0 && Spare(s.c, u)
    && exists t: Tid :: WaitQ(s.c, SDtqQ(i)) == [t] && DataOf(s.c, t) == MsgData(2, 0)
  }

  /** The first half: 1 is buffered, its task waits to send 2, and the other one forces 3 in. */
  lemma ForcedIsAhead(g: Config, s: Sys, i: nat, u: Tid) returns (s1: Sys, s2: Sys, s3: Sys)
    requires SysInv(g, s) && Fresh(g, s, i, u)
    ensures Goes(g, s, Calls(i)[0], i, Flow([1], [], [], []), s1)
    ensures Goes(g, s1, Calls(i)[1], i, Flow([2], [], [], []), s2)
    ensures Goes(g, s2, Calls(i)[2], i, Flow([3], [], [1], []), s3)
    ensures Overtakes(s2, Calls(i)[2], i) && SysInv(g, s3) && Overtaken(s3, i, u)
  {
    hide SysInv, May, Step, DtqStep, CallFlow, FlowOf, DtqInv, DtqArgs, Inv;
    CallOn(g, s, i, Snd(1, Ever));
    SendBuffers(g, s.c, s.dtq[i], i, 1);
    s1 := Step(g, s, Calls(i)[0]);
    assert [] + [1] == [1];
    CallOn(g, s1, i, Snd(2, Ever));
    SendWaits(g, s1.c, s1.dtq[i], i, 2, u);
    s2 := Step(g, s1, Calls(i)[1]);
    CallOn(g, s2, i, Fsnd(3));
    SomebodyRuns(g, s2.c, u);
    ForcedPasses(g, s2.c, s2.dtq[i], i, 3);
    s3 := Step(g, s2, Calls(i)[2]);
    assert [1][1..] + [3] == [3] && [1][..1] == [1];
  }

  /** The second half: 3 comes out before 2. */
  lemma ForcedComesFirst(g: Config, s3: Sys, i: nat, u: Tid) returns (s4: Sys, s5: Sys)
    requires SysInv(g, s3) && Overtaken(s3, i, u)
    ensures Goes(g, s3, Calls(i)[3], i, Flow([], [3], [], []), s4)
    ensures Goes(g, s4, Calls(i)[4], i, Flow([], [2], [], []), s5)
  {
    hide SysInv, May, Step, DtqStep, CallFlow, FlowOf, DtqInv, DtqArgs, Inv;
    var t: Tid :| WaitQ(s3.c, SDtqQ(i)) == [t] && DataOf(s3.c, t) == MsgData(2, 0);
    CallOn(g, s3, i, Rcv(Polling));
    SomebodyRuns(g, s3.c, u);
    ReceiveRefills(g, s3.c, s3.dtq[i], i, t, 2, u);
    s4 := Step(g, s3, Calls(i)[3]);
    assert [3][1..] + [2] == [2];
    CallOn(g, s4, i, Rcv(Polling));
    SomebodyRuns(g, s4.c, u);
    ReceiveTakes(g, s4.c, s4.dtq[i], i);
    s5 := Step(g, s4, Calls(i)[4]);
  }

  /** A run in which the order is not kept: 1, 2 and 3 are sent in this order, 1 is dropped, and 3, which was
      forced, comes out before 2, whose sender had been waiting. */
  lemma ForcedOvertakes(g: Config, s: Sys, i: nat, u: Tid) returns (tr: seq<Sys>)
    requires SysInv(g, s) && Fresh(g, s, i, u)
    ensures IsRun(g, tr, Calls(i)) && tr[0] == s && Overtakes(tr[2], Calls(i)[2], i)
    ensures Total(g, tr, Calls(i), i, 5) == Flow([1, 2, 3], [3, 2], [1], [])
  {
    hide SysInv, May, Step, FlowOf, Fresh, Overtaken;
    var s1, s2, s3 := ForcedIsAhead(g, s, i, u);
    var s4, s5 := ForcedComesFirst(g, s3, i, u);
    tr := [s, s1, s2, s3, s4, s5];
    FiveFlows(g, tr, Calls(i), i);
  }

  lemma OneMore(g: Config, tr: seq<Sys>, ops: seq<Op>, i: nat, n: nat)
    requires n < |ops| < |tr|
    ensures Total(g, tr, ops, i, n + 1) == Plus(Total(g, tr, ops, i, n), FlowOf(g, tr[n], ops[n], i))
    ensures Total(g, tr, ops, i, 0) == NoFlow
  {
  }

  lemma FiveFlows(g: Config, tr: seq<Sys>, ops: seq<Op>, i: nat)
    requires |ops| == 5 && |tr| == 6
    requires FlowOf(g, tr[0], ops[0], i) == Flow([1], [], [], [])
    requires FlowOf(g, tr[1], ops[1], i) == Flow([2], [], [], [])
    requires FlowOf(g, tr[2], ops[2], i) == Flow([3], [], [1], [])
    requires FlowOf(g, tr[3], ops[3], i) == Flow([], [3], [], [])
    requires FlowOf(g, tr[4], ops[4], i) == Flow([], [2], [], [])
    ensures Total(g, tr, ops, i, 5) == Flow([1, 2, 3], [3, 2], [1], [])
  {
    hide FlowOf, Total;
    OneMore(g, tr, ops, i, 0);
    OneMore(g, tr, ops, i, 1);
    assert Total(g, tr, ops, i, 2) == Flow([1, 2], [], [], []);
    OneMore(g, tr, ops, i, 2);
    assert Total(g, tr, ops, i, 3) == Flow([1, 2, 3], [], [1], []);
    OneMore(g, tr, ops, i, 3);
    OneMore(g, tr, ops, i, 4);
  }

  // ----- where it starts -----

  /** Two tasks of one priority. */
  const TwoTasks := Config([0, 0], {}, [], 0, 1, 1)

  const OneQueue := Objects([], [], [1], [], [])

  /** Such a run starts at the first dispatch of a kernel with two tasks and a data queue for one datum. */
  lemma ForcedOvertakesFromStart() returns (tr: seq<Sys>)
    ensures ValidConfig(TwoTasks) && ValidObjects(OneQueue)
    ensures IsRun(TwoTasks, tr, Calls(0)) && tr[0] == StartSys(TwoTasks, [0, 1], OneQueue)
    ensures Total(TwoTasks, tr, Calls(0), 0, 5) == Flow([1, 2, 3], [3, 2], [1], [])
  {
    hide SysInv, IsRun, Total, Calls;
    var s := StartSys(TwoTasks, [0, 1], OneQueue);
    StartSysInv(TwoTasks, [0, 1], OneQueue);
    StartFresh();
    tr := ForcedOvertakes(TwoTasks, s, 0, if s.c.run == Some(0) then 1 else 0);
  }

  lemma StartFresh()
    ensures ValidConfig(TwoTasks)
    ensures var s := StartSys(TwoTasks, [0, 1], OneQueue);
            Fresh(TwoTasks, s, 0, if s.c.run == Some(0) then 1 else 0)
  {
    var wqs := Queues(OneQueue);
    hide InitCore;
    NobodyWaits(TwoTasks, wqs, [0, 1], SDtqQ(0));
    NobodyWaits(TwoTasks, wqs, [0, 1], RDtqQ(0));
    BothRunnable(wqs);
    InitCoreInv(TwoTasks, wqs, [0, 1]);
    SomebodyRuns(TwoTasks, InitCore(TwoTasks, wqs, [0, 1]), 0);
  }

  lemma BothRunnable(wqs: set<WQ>)
    ensures ValidConfig(TwoTasks)
    ensures var c := InitCore(TwoTasks, wqs, [0, 1]);
            Spare(c, 0) && Spare(c, 1) && c.nest == 0 && c.fl.dspflg
  {
    hide SetTask;
    var g, c := TwoTasks, Blank(TwoTasks, wqs);
    var c1 := Activate(g, c, 0);
    ActivatedTcb(g, c, 0);
    ActivatedTcb(g, c1, 1);
    assert [0, 1][1..] == [1] && [1][1..] == [];
    assert ActivateAll(g, c1, [1]) == Activate(g, c1, 1);
  }

  lemma ActivatedTcb(g: Config, c: Core, t: Tid)
    requires t < |c.ts.tcb|
    ensures var c' := Activate(g, c, t);
            c'.ts.tcb == c.ts.tcb[t := c.ts.tcb[t].(tstat := Runnable)] && c' == c.(ts := c'.ts)
  {
  }
}
