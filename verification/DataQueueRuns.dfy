/** What becomes of the data sent to a data queue, over whole runs of the kernel: nothing is lost or
    doubled, and without priorities and forced sending past waiting senders they come out in the order in
    which they went in. */
module DataQueueRuns {
  import opened Types
  import opened Seqs
  import opened TaskQueues
  import opened Core
  import opened CoreProofs
  import opened TaskCalls
  import opened WaitQueues
  import opened DataQueue
  import opened System
  import opened SystemProofs
  import opened StepFrames
  import opened WaitCodes
  import opened DataFlow

  // ----- what a step does with data -----

  /** A call on the queue: a datum is sent when the call accepts it, delivered when a receiver gets it, and
      dropped when a forced one takes its place or the queue is initialised again. */
  function CallFlow(g: Config, c: Core, d: Dtq, i: nat, op: DtqOp): Flow
    requires DtqArgs(g, c, d, i)
  {
    var handed := WaitQ(c, RDtqQ(i)) != [];
    match op
    case Snd(x, p) =>
      var er := SndDtq(g, c, d, i, x, p).2;
      if er == E_OK && handed then Flow([x], [x], [], [])
      else if er == E_OK || er == BLOCKED then Flow([x], [], [], [])
      else NoFlow
    case Fsnd(x) =>
      if FsndDtq(g, c, d, i, x).2 != E_OK then NoFlow
      else if handed then Flow([x], [x], [], [])
      else Flow([x], [], if |d.buf| == d.cap then d.buf[..1] else [], [])
    case Rcv(p) =>
      var (c', d', er, x) := RcvDtq(g, c, d, i, p);
      if er == E_OK then Flow([], [x], [], []) else NoFlow
    case IniD => if InTask(c) then Flow([], [], Logical(c, d, i), []) else NoFlow
  }

  /** Another step withdraws the datum of the task whose wait to send it ends from outside. */
  function Withdrawal(c: Core, c': Core, op: Op, i: nat): Flow {
    match Ended(op)
    case Some(t) =>
      if t in WaitQ(c, SDtqQ(i)) && t !in WaitQ(c', SDtqQ(i)) then Flow([], [], [], [MsgOf(DataOf(c, t))]) else NoFlow
    case None => NoFlow
  }

  ghost function FlowOf(g: Config, s: Sys, op: Op, i: nat): Flow {
    if !May(g, s, op) || i >= |s.dtq| then NoFlow
    else if op.OnDtq? && op.i == i then CallFlow(g, s.c, s.dtq[i], i, op.dop)
    else Withdrawal(s.c, Step(g, s, op).c, op, i)
  }

  // ----- calls on the queue -----

  /** Where a sending call leaves the logical queue. */
  lemma SndLogical(g: Config, c: Core, d: Dtq, i: nat, x: int, p: Patience)
    requires Inv(g, c) && DtqInv(c, d, i) && TmoType(p)
    ensures RunsTask(c) && QueueOk(c, RDtqQ(i))
    ensures var (c', d', er) := SndDtq(g, c, d, i, x, p); var l, l' := Logical(c, d, i), Logical(c', d', i);
            && (er == E_OK && WaitQ(c, RDtqQ(i)) == [] ==> l' == l + [x])
            && (er == E_OK && WaitQ(c, RDtqQ(i)) != [] ==> l == [] == l')
            && (er == BLOCKED ==>
                  exists a, b :: Split(l, a, b) && l' == a + [x] + b && (!Tpri(g, SDtqQ(i)) ==> b == []))
            && (er != E_OK && er != BLOCKED ==> l' == l)
  {
    hide Inv, SendData, Block, Logical, Finish, Msgs, DtqInv, Split;
    HasQueue(g, c, RDtqQ(i));
    SendAppends(g, c, d, i, x);
    var (c1, d1, ok, req) := SendData(g, c, d, i, x);
    SameLogical(c1, Finish(c1, req), d1, i);
    if WaitQ(c, RDtqQ(i)) != [] { EmptyLogical(c, d, i); }
    if MayBlock(c) { SleeperLogical(g, c, d, i, x, TimerOf(p)); }
  }

  lemma SleeperLogical(g: Config, c: Core, d: Dtq, i: nat, x: int, timer: Option<nat>)
    requires Inv(g, c) && DtqInv(c, d, i) && MayBlock(c)
    ensures RunsTask(c)
    ensures var l, l' := Logical(c, d, i), Logical(Block(g, c, Obj(SDtqQ(i)), MsgData(x, 0), timer), d, i);
            exists a, b :: Split(l, a, b) && l' == a + [x] + b && (!Tpri(g, SDtqQ(i)) ==> b == [])
  {
    hide Inv, Block, Logical, DtqInv;
    WaitingSenderAppends(g, c, d, i, x, timer);
    var s, q := WaitQ(c, SDtqQ(i)), SenderPos(g, c, i);
    assert Split(Logical(c, d, i), d.buf + Msgs(c.ts.tcb, s[..q]), Msgs(c.ts.tcb, s[q..]));
  }

  ghost predicate Split(l: seq<int>, a: seq<int>, b: seq<int>) { l == a + b }

  lemma SameLogical(c: Core, c': Core, d: Dtq, i: nat)
    requires c' == Finish(c, true) || c' == Finish(c, false)
    ensures Logical(c', d, i) == Logical(c, d, i)
  {
  }

  lemma EmptyLogical(c: Core, d: Dtq, i: nat)
    requires DtqInv(c, d, i) && WaitQ(c, RDtqQ(i)) != []
    ensures Logical(c, d, i) == []
  {
  }

  lemma SndFlow(g: Config, c: Core, d: Dtq, i: nat, x: int, p: Patience)
    requires Inv(g, c) && DtqInv(c, d, i) && TmoType(p) && DtqArgs(g, c, d, i)
    ensures var (c', d') := DtqStep(g, c, d, i, Snd(x, p)); var f := CallFlow(g, c, d, i, Snd(x, p));
            var l, l' := Logical(c, d, i), Logical(c', d', i);
            Balances(l, f, l') && (!Tpri(g, SDtqQ(i)) ==> Sub(f.delivered + l', l + f.sent))
  {
    hide Inv, SndDtq, DtqInv, Logical, Sub, Balances, WakeAll;
    SndLogical(g, c, d, i, x, p);
    var (c', d', er) := SndDtq(g, c, d, i, x, p);
    var l, l' := Logical(c, d, i), Logical(c', d', i);
    if er == BLOCKED {
      var a, b :| Split(l, a, b) && l' == a + [x] + b && (!Tpri(g, SDtqQ(i)) ==> b == []);
      ComingIn(a, [x], b);
    } else if er != E_OK {
      Passing(l, []);
    } else if WaitQ(c, RDtqQ(i)) != [] {
      Passing([], [x]);
    } else {
      Passing(l, [x]);
    }
  }

  lemma FsndLogical(g: Config, c: Core, d: Dtq, i: nat, x: int)
    requires Inv(g, c) && DtqInv(c, d, i) && |d.buf| <= d.cap
    ensures QueueOk(c, RDtqQ(i))
    ensures var (c', d', er) := FsndDtq(g, c, d, i, x); var l, l' := Logical(c, d, i), Logical(c', d', i);
            var m := Msgs(c.ts.tcb, WaitQ(c, SDtqQ(i)));
            if er != E_OK then l' == l
            else if WaitQ(c, RDtqQ(i)) != [] then l == [] == l'
            else if |d.buf| < d.cap then l' == l + [x]
            else d.buf != [] && l == d.buf[..1] + d.buf[1..] + m && l' == d.buf[1..] + [x] + m
  {
    hide Inv, ForceSendData, Finish;
    HasQueue(g, c, RDtqQ(i));
    if d.cap > 0 {
      ForcedSendDropsOldest(g, c, d, i, x);
      var (c1, d1, req) := ForceSendData(g, c, d, i, x);
      SameLogical(c1, Finish(c1, req), d1, i);
      if WaitQ(c, RDtqQ(i)) == [] { assert |d.buf| == d.cap ==> d.buf == d.buf[..1] + d.buf[1..]; }
    }
  }

  /** h leaves at the head, x comes in before m. */
  lemma ForcedIn(h: seq<int>, b: seq<int>, x: int, m: seq<int>)
    ensures Balances(h + b + m, Flow([x], [], h, []), b + [x] + m)
    ensures m == [] ==> Sub([] + (b + [x] + m), (h + b + m) + [x])
  {
    SubRefl(b + [x]);
    SubLonger(b + [x], h, b + [x]);
    assert m == [] ==> (h + b + m) + [x] == h + (b + [x]) && [] + (b + [x] + m) == b + [x];
  }

  lemma FsndFlow(g: Config, c: Core, d: Dtq, i: nat, x: int)
    requires Inv(g, c) && DtqInv(c, d, i) && DtqArgs(g, c, d, i)
    ensures var (c', d') := DtqStep(g, c, d, i, Fsnd(x)); var f := CallFlow(g, c, d, i, Fsnd(x));
            var l, l' := Logical(c, d, i), Logical(c', d', i);
            && Balances(l, f, l')
            && (WaitQ(c, SDtqQ(i)) == [] || !Live(c) || d.cap == 0 ==> Sub(f.delivered + l', l + f.sent))
  {
    hide Inv, DtqInv, Sub, FsndDtq, Logical, Balances, Msgs, WakeAll;
    FsndRefused(g, c, d, i, x);
    FsndLogical(g, c, d, i, x);
    var l := Logical(c, d, i);
    if FsndDtq(g, c, d, i, x).2 != E_OK {
      Passing(l, []);
    } else if WaitQ(c, RDtqQ(i)) != [] {
      Passing([], [x]);
    } else if |d.buf| < d.cap {
      Passing(l, [x]);
    } else {
      var m := Msgs(c.ts.tcb, WaitQ(c, SDtqQ(i)));
      ForcedIn(d.buf[..1], d.buf[1..], x, m);
      assert WaitQ(c, SDtqQ(i)) == [] ==> m == [];
    }
  }

  lemma FsndRefused(g: Config, c: Core, d: Dtq, i: nat, x: int)
    requires QueueOk(c, RDtqQ(i)) && |d.buf| <= d.cap
    ensures FsndDtq(g, c, d, i, x).2 == E_OK <==> Live(c) && d.cap > 0
  {
  }

  lemma RcvLogical(g: Config, c: Core, d: Dtq, i: nat, p: Patience)
    requires Inv(g, c) && DtqInv(c, d, i)
    ensures RunsTask(c) && QueueOk(c, SDtqQ(i))
    ensures var (c', d', er, x) := RcvDtq(g, c, d, i, p); var l, l' := Logical(c, d, i), Logical(c', d', i);
            if er == E_OK then l == [x] + l' else l' == l
  {
    hide Inv, ReceiveData, Finish, Block, Logical;
    HasQueue(g, c, SDtqQ(i));
    ReceiveTakesFirst(g, c, d, i);
    var (c1, d1, ok, x, req) := ReceiveData(g, c, d, i);
    SameLogical(c1, Finish(c1, req), d1, i);
    var l := Logical(c, d, i);
    assert l != [] ==> l == [l[0]] + l[1..];
    if c.run.Some? { ReceiverSleeps(g, c, d, i, TimerOf(p)); }
  }

  lemma ReceiverSleeps(g: Config, c: Core, d: Dtq, i: nat, timer: Option<nat>)
    requires Inv(g, c) && c.run.Some?
    ensures c.run.value < |c.ts.tcb|
    ensures Logical(c, d, i) == [] ==> Logical(Block(g, c, Obj(RDtqQ(i)), NoData, timer), d, i) == []
  {
    BlockQueues(g, c, RDtqQ(i), NoData, timer);
  }

  lemma RcvFlow(g: Config, c: Core, d: Dtq, i: nat, p: Patience)
    requires Inv(g, c) && DtqInv(c, d, i) && DtqArgs(g, c, d, i) && TmoType(p)
    ensures var (c', d') := DtqStep(g, c, d, i, Rcv(p)); var f := CallFlow(g, c, d, i, Rcv(p));
            var l, l' := Logical(c, d, i), Logical(c', d', i);
            Balances(l, f, l') && Sub(f.delivered + l', l + f.sent)
  {
    hide Inv, DtqInv, Sub, RcvDtq, Logical, Balances, WakeAll;
    RcvLogical(g, c, d, i, p);
    var (c', d', er, x) := RcvDtq(g, c, d, i, p);
    if er == E_OK { TakenFirst([x], Logical(c', d', i)); } else { Passing(Logical(c, d, i), []); }
  }

  lemma IniFlow(g: Config, c: Core, d: Dtq, i: nat)
    requires Inv(g, c) && DtqInv(c, d, i) && DtqArgs(g, c, d, i)
    ensures var (c', d') := DtqStep(g, c, d, i, IniD); var f := CallFlow(g, c, d, i, IniD);
            var l, l' := Logical(c, d, i), Logical(c', d', i);
            Balances(l, f, l') && Sub(f.delivered + l', l + f.sent)
  {
    hide Inv, DtqInv, Sub, WakeAll, Finish, Balances;
    var l := Logical(c, d, i);
    InitTwoQueuesOk(g, c, SDtqQ(i), RDtqQ(i));
    if InTask(c) { Cleared(l); } else { Passing(l, []); }
  }

  // ----- other steps -----

  /** The order of the senders does not matter for what they hold. */
  lemma {:induction false} MsgsPerm(tcb: seq<TCB>, q: seq<Tid>, q': seq<Tid>)
    requires multiset(q') == multiset(q)
    ensures multiset(Msgs(tcb, q')) == multiset(Msgs(tcb, q))
  {
    if q == [] {
      assert |q'| == |multiset(q')| == 0;
    } else {
      assert q[0] in multiset(q');
      var k :| 0 <= k < |q'| && q'[k] == q[0];
      var r := q'[..k] + q'[k + 1..];
      TakenOut(q, q', k);
      MsgsPerm(tcb, q[1..], r);
      MsgsTaken(tcb, q', k);
    }
  }

  lemma TakenOut(q: seq<Tid>, q': seq<Tid>, k: nat)
    requires multiset(q') == multiset(q) && q != [] && k < |q'| && q'[k] == q[0]
    ensures multiset(q'[..k] + q'[k + 1..]) == multiset(q[1..])
  {
    assert q' == q'[..k] + [q'[k]] + q'[k + 1..] && q == [q[0]] + q[1..];
    assert multiset(q'[..k] + q'[k + 1..]) == multiset(q') - multiset{q[0]};
  }

  lemma MsgsTaken(tcb: seq<TCB>, q: seq<Tid>, k: nat)
    requires k < |q|
    ensures multiset(Msgs(tcb, q)) == multiset(Msgs(tcb, q[..k] + q[k + 1..])) + multiset{MsgOf(Data(tcb, q[k]))}
  {
    hide Msgs;
    assert q == q[..k] + [q[k]] + q[k + 1..];
    MsgsInsert(tcb, q[..k], q[k], q[k + 1..]);
    MsgsConcat(tcb, q[..k], q[k + 1..]);
  }

  /** A sender that leaves takes its datum with it. */
  lemma MsgsWithout(tcb: seq<TCB>, q: seq<Tid>, t: Tid) returns (a: seq<int>, b: seq<int>)
    requires NoDup(q) && t in q
    ensures Msgs(tcb, q) == a + [MsgOf(Data(tcb, t))] + b && Msgs(tcb, Remove(q, t)) == a + b
  {
    var k :| 0 <= k < |q| && q[k] == t;
    RemoveAt(q, k);
    a, b := Msgs(tcb, q[..k]), Msgs(tcb, q[k + 1..]);
    assert q == q[..k] + [t] + q[k + 1..];
    MsgsInsert(tcb, q[..k], t, q[k + 1..]);
    MsgsConcat(tcb, q[..k], q[k + 1..]);
  }

  lemma SenderLeaves(tcb: seq<TCB>, buf: seq<int>, q: seq<Tid>, t: Tid)
    requires NoDup(q) && t in q
    ensures var l, l', f := buf + Msgs(tcb, q), buf + Msgs(tcb, Remove(q, t)), Flow([], [], [], [MsgOf(Data(tcb, t))]);
            Balances(l, f, l') && Sub(f.delivered + l', l + f.sent)
  {
    hide Sub, Balances, Msgs, Remove;
    var a, b := MsgsWithout(tcb, q, t);
    var x := MsgOf(Data(tcb, t));
    Leaving(buf + a, [x], b);
    Regrouped(buf, a, b);
    Regrouped(buf, a, [x] + b);
    Regrouped(a, [x], b);
    Regrouped(buf + a, [x], b);
  }

  /** The senders that stay keep their data. */
  lemma SameMsgs(c: Core, c': Core, q: seq<Tid>)
    requires forall t: Tid :: t in q ==> DataOf(c', t) == DataOf(c, t)
    ensures Msgs(c'.ts.tcb, q) == Msgs(c.ts.tcb, q)
  {
    forall k | 0 <= k < |q| ensures Data(c'.ts.tcb, q[k]) == Data(c.ts.tcb, q[k]) { assert q[k] in q; }
    MsgsFrame(c.ts.tcb, c'.ts.tcb, q);
  }

  /** What a step that does not work on the queue does to the senders. */
  lemma SendersFlow(g: Config, c: Core, c': Core, op: Op, d: Dtq, i: nat)
    requires NoDup(WaitQ(c, SDtqQ(i))) && QueueKept(g, op, SDtqQ(i), WaitQ(c, SDtqQ(i)), WaitQ(c', SDtqQ(i)))
    requires forall t: Tid :: t in WaitQ(c', SDtqQ(i)) ==> DataOf(c', t) == DataOf(c, t)
    ensures var f := Withdrawal(c, c', op, i); var l, l' := Logical(c, d, i), Logical(c', d, i);
            Balances(l, f, l') && (!Tpri(g, SDtqQ(i)) ==> Sub(f.delivered + l', l + f.sent))
  {
    hide Sub, Remove, Msgs, Balances, NoDup;
    var q, q' := WaitQ(c, SDtqQ(i)), WaitQ(c', SDtqQ(i));
    SameMsgs(c, c', q');
    if q' == q {
      Passing(Logical(c, d, i), []);
    } else if Ended(op).Some? {
      RemoveMembers(q, Ended(op).value);
      SenderLeaves(c.ts.tcb, d.buf, q, Ended(op).value);
    } else {
      MsgsPerm(c.ts.tcb, q, q');
      Reordered(d.buf, Msgs(c.ts.tcb, q), Msgs(c.ts.tcb, q'));
    }
  }

  // ----- every step, every run -----

  /** A forced datum that is accepted overtakes those of waiting senders. */
  predicate Overtakes(s: Sys, op: Op, i: nat) {
    && op.OnDtq? && op.i == i && op.dop.Fsnd? && WaitQ(s.c, SDtqQ(i)) != []
    && Live(s.c) && i < |s.dtq| && s.dtq[i].cap > 0
  }

  /** The data of the logical queue balance in every step; and without TA_TPRI and forced sending past
      waiting senders, they keep their order. */
  ghost predicate Flows(g: Config, s: Sys, op: Op, i: nat, l: seq<int>, f: Flow, l': seq<int>) {
    Balances(l, f, l') && (!Tpri(g, SDtqQ(i)) && !Overtakes(s, op, i) ==> Sub(f.delivered + l', l + f.sent))
  }

  lemma OwnFlows(g: Config, s: Sys, op: DtqOp, i: nat)
    requires SysInv(g, s) && May(g, s, OnDtq(i, op))
    ensures var d := s.dtq[i]; var (c', d') := DtqStep(g, s.c, d, i, op);
            Flows(g, s, OnDtq(i, op), i, Logical(s.c, d, i), CallFlow(g, s.c, d, i, op), Logical(c', d', i))
  {
    hide Inv, Balances, Sub, Logical, CallFlow, DtqStep, DtqInv;
    match op
    case Snd(x, p) => SndFlow(g, s.c, s.dtq[i], i, x, p);
    case Fsnd(x) => FsndFlow(g, s.c, s.dtq[i], i, x);
    case Rcv(p) => RcvFlow(g, s.c, s.dtq[i], i, p);
    case IniD => IniFlow(g, s.c, s.dtq[i], i);
  }

  lemma SomeQueue(g: Config, s: Sys, wq: WQ)
    requires SysInv(g, s)
    ensures NoDup(WaitQ(s.c, wq))
  {
    WaitersAreWaiting(s.c, wq);
  }

  lemma StepFlows(g: Config, s: Sys, op: Op, i: nat)
    requires SysInv(g, s) && May(g, s, op) && i < |s.dtq|
    ensures var s' := Step(g, s, op);
            && |s'.dtq| == |s.dtq|
            && Flows(g, s, op, i, Logical(s.c, s.dtq[i], i), FlowOf(g, s, op, i), Logical(s'.c, s'.dtq[i], i))
  {
    hide SysInv, Balances, Sub, Logical, CallFlow, Withdrawal, DtqStep, QueueKept;
    StepOthersSame(g, s, op);
    if op.OnDtq? && op.i == i {
      OwnFlows(g, s, op.dop, i);
    } else {
      ForeignQueue(g, s, op, SDtqQ(i));
      SomeQueue(g, s, SDtqQ(i));
      SendersFlow(g, s.c, Step(g, s, op).c, op, s.dtq[i], i);
    }
  }

  /** What n steps of a run have done with the data of queue i. */
  ghost function Total(g: Config, tr: seq<Sys>, ops: seq<Op>, i: nat, n: nat): Flow
    requires n <= |ops| < |tr|
  {
    if n == 0 then NoFlow else Plus(Total(g, tr, ops, i, n - 1), FlowOf(g, tr[n - 1], ops[n - 1], i))
  }

  /** Over any run: the data there were and those sent are the data delivered, those dropped by forced
      sending or reinitialisation, those whose senders were released, timed out or terminated, and those
      there are.  None is lost, none comes twice. */
  lemma {:induction false} RunConserves(g: Config, tr: seq<Sys>, ops: seq<Op>, i: nat, n: nat)
    requires IsRun(g, tr, ops) && SysInv(g, tr[0]) && i < |tr[0].dtq| && n <= |ops|
    ensures |tr[n].dtq| == |tr[0].dtq|
    ensures Balances(Logical(tr[0].c, tr[0].dtq[i], i), Total(g, tr, ops, i, n), Logical(tr[n].c, tr[n].dtq[i], i))
  {
    hide SysInv, May, Step, Sub, Logical, FlowOf, Balances;
    var l0 := Logical(tr[0].c, tr[0].dtq[i], i);
    if n == 0 {
      NothingFlows(l0);
    } else {
      RunConserves(g, tr, ops, i, n - 1);
      RunsKeepInv(g, tr, ops, n - 1);
      assert tr[n - 1 + 1] == Step(g, tr[n - 1], ops[n - 1]);
      StepFlows(g, tr[n - 1], ops[n - 1], i);
      var l, l' := Logical(tr[n - 1].c, tr[n - 1].dtq[i], i), Logical(tr[n].c, tr[n].dtq[i], i);
      BalancesOn(l0, Total(g, tr, ops, i, n - 1), l, FlowOf(g, tr[n - 1], ops[n - 1], i), l');
    }
  }

  /** The order.  In any run without priorities, and without forced sending past waiting senders: what has
      been delivered, followed by what is there, is what was there followed by what was sent, without the
      data dropped and withdrawn. */
  lemma {:induction false} RunInOrder(g: Config, tr: seq<Sys>, ops: seq<Op>, i: nat, n: nat)
    requires IsRun(g, tr, ops) && SysInv(g, tr[0]) && i < |tr[0].dtq| && n <= |ops|
    requires !Tpri(g, SDtqQ(i)) && forall k :: 0 <= k < n ==> !Overtakes(tr[k], ops[k], i)
    ensures |tr[n].dtq| == |tr[0].dtq|
    ensures Sub(Total(g, tr, ops, i, n).delivered + Logical(tr[n].c, tr[n].dtq[i], i),
                Logical(tr[0].c, tr[0].dtq[i], i) + Total(g, tr, ops, i, n).sent)
  {
    hide SysInv, May, Step, Sub, Logical, FlowOf, Balances;
    var l0 := Logical(tr[0].c, tr[0].dtq[i], i);
    if n == 0 {
      SubRefl(l0);
      assert [] + l0 == l0 == l0 + [];
    } else {
      RunInOrder(g, tr, ops, i, n - 1);
      RunsKeepInv(g, tr, ops, n - 1);
      assert tr[n - 1 + 1] == Step(g, tr[n - 1], ops[n - 1]);
      StepFlows(g, tr[n - 1], ops[n - 1], i);
      var l, l' := Logical(tr[n - 1].c, tr[n - 1].dtq[i], i), Logical(tr[n].c, tr[n].dtq[i], i);
      var t, f := Total(g, tr, ops, i, n - 1), FlowOf(g, tr[n - 1], ops[n - 1], i);
      InOrderOn(l0, t.delivered, l, t.sent, f.delivered, l', f.sent);
    }
  }

  /** Senders wait only at a full buffer: what overtakes them drops a datum. */
  lemma OvertakingDrops(g: Config, s: Sys, op: Op, i: nat)
    requires SysInv(g, s) && May(g, s, op) && Overtakes(s, op, i)
    ensures FlowOf(g, s, op, i).dropped != []
  {
    hide Inv, Logical, SndDtq, RcvDtq, FsndDtq, WakeAll;
    FsndRefused(g, s.c, s.dtq[i], i, op.dop.x);
    SenderAtFull(s.c, s.dtq[i], i);
  }

  lemma SenderAtFull(c: Core, d: Dtq, i: nat)
    requires DtqInv(c, d, i) && WaitQ(c, SDtqQ(i)) != []
    ensures WaitQ(c, RDtqQ(i)) == [] && |d.buf| == d.cap
  {
  }

  /** Where nothing has been dropped nothing has overtaken. */
  lemma {:induction false} NoneOvertook(g: Config, tr: seq<Sys>, ops: seq<Op>, i: nat, n: nat)
    requires IsRun(g, tr, ops) && SysInv(g, tr[0]) && n <= |ops| && Total(g, tr, ops, i, n).dropped == []
    ensures forall k :: 0 <= k < n ==> !Overtakes(tr[k], ops[k], i)
  {
    hide SysInv, May, Step, FlowOf, Overtakes;
    if n > 0 {
      NoneOvertook(g, tr, ops, i, n - 1);
      RunsKeepInv(g, tr, ops, n - 1);
      if Overtakes(tr[n - 1], ops[n - 1], i) { OvertakingDrops(g, tr[n - 1], ops[n - 1], i); }
    }
  }

  /** If nothing was dropped or withdrawn, a data queue without TA_TPRI is a FIFO queue. */
  lemma RunIsFifo(g: Config, tr: seq<Sys>, ops: seq<Op>, i: nat, n: nat)
    requires IsRun(g, tr, ops) && SysInv(g, tr[0]) && i < |tr[0].dtq| && n <= |ops|
    requires !Tpri(g, SDtqQ(i))
    requires Total(g, tr, ops, i, n).dropped == [] == Total(g, tr, ops, i, n).withdrawn
    ensures |tr[n].dtq| == |tr[0].dtq|
    ensures Total(g, tr, ops, i, n).delivered + Logical(tr[n].c, tr[n].dtq[i], i)
         == Logical(tr[0].c, tr[0].dtq[i], i) + Total(g, tr, ops, i, n).sent
  {
    hide SysInv, May, Step, Sub, Logical, Total, Overtakes, Balances;
    RunConserves(g, tr, ops, i, n);
    NoneOvertook(g, tr, ops, i, n);
    RunInOrder(g, tr, ops, i, n);
    var l0, l, f := Logical(tr[0].c, tr[0].dtq[i], i), Logical(tr[n].c, tr[n].dtq[i], i), Total(g, tr, ops, i, n);
    SizesAgree(l0, f, l);
    SubSameLength(f.delivered + l, l0 + f.sent);
  }

  /** Whose datum is withdrawn learns it: the call of the sender ends with an error code, or the sender is
      terminated. */
  lemma WithdrawnIsTold(g: Config, s: Sys, op: Op, i: nat)
    requires SysInv(g, s) && May(g, s, op) && i < |s.dtq| && FlowOf(g, s, op, i).withdrawn != []
    ensures Ended(op).Some? && Ended(op).value in WaitQ(s.c, SDtqQ(i))
    ensures var t, s' := Ended(op).value, Step(g, s, op);
            op == OnTask(Ter(t)) || Finds(s', t, E_RLWAI, DataOf(s.c, t)) || Finds(s', t, E_TMOUT, DataOf(s.c, t))
  {
    hide SysInv, May, Step, Codes, Logical, SndDtq, FsndDtq, RcvDtq;
    var t := Ended(op).value;
    EndedIsOut(g, s, op, SDtqQ(i), t);
    if op != OnTask(Ter(t)) { CodeGiven(g, s, op, t); }
  }

  /** A sending call that hands its datum to a receiver ends the wait of the first one. */
  lemma HandedOver(g: Config, s: Sys, op: Op, i: nat)
    requires SysInv(g, s) && May(g, s, op) && i < |s.dtq| && op.OnDtq? && op.i == i && (op.dop.Snd? || op.dop.Fsnd?)
    requires FlowOf(g, s, op, i).delivered != []
    ensures var r := WaitQ(s.c, RDtqQ(i)); r != [] && WaitingIn(s, r[0]) && !WaitingIn(Step(g, s, op), r[0])
  {
    hide ObjectsInv, Sorted, TimersInv, TimeInv, DispInv, Linked, Rehome, Logical, Top, WakeAll;
    WaitersAreWaiting(s.c, RDtqQ(i));
    assert WaitQ(s.c, RDtqQ(i)) != [] ==> WaitQ(s.c, RDtqQ(i))[0] in WaitQ(s.c, RDtqQ(i));
    if WaitQ(s.c, RDtqQ(i)) != [] { WokenTcb(g, s.c, WaitQ(s.c, RDtqQ(i))[0], E_OK, MsgData(op.dop.x, 0)); }
  }

  lemma WokenTcb(g: Config, c: Core, t: Tid, code: ER, d: WData)
    requires t < |c.ts.tcb| && c.ts.tcb[t].tstat.Waiting?
    ensures !Wake(g, c, t, code, d).ts.tcb[t].tstat.Waiting? && |Wake(g, c, t, code, d).ts.tcb| == |c.ts.tcb|
  {
  }

  /** And that receiver finds E_OK and the datum when it resumes. */
  lemma DeliveredIsFound(g: Config, tr: seq<Sys>, ops: seq<Op>, i: nat, k: nat, n: nat)
    requires IsRun(g, tr, ops) && SysInv(g, tr[0]) && k < n < |tr| && i < |tr[k].dtq|
    requires ops[k].OnDtq? && ops[k].i == i && (ops[k].dop.Snd? || ops[k].dop.Fsnd?)
    requires FlowOf(g, tr[k], ops[k], i).delivered != []
    ensures var r := WaitQ(tr[k].c, RDtqQ(i));
            && r != [] && !WaitingIn(tr[k + 1], r[0])
            && ((forall j :: k < j <= n ==> !WaitingIn(tr[j], r[0])) ==>
                  Finds(tr[n], r[0], E_OK, MsgData(ops[k].dop.x, 0)))
  {
    hide SysInv, May, Step, FlowOf, WaitingIn, Finds;
    RunsKeepInv(g, tr, ops, k);
    assert tr[k + 1] == Step(g, tr[k], ops[k]);
    HandedOver(g, tr[k], ops[k], i);
    var t := WaitQ(tr[k].c, RDtqQ(i))[0];
    if forall j :: k < j <= n ==> !WaitingIn(tr[j], t) { CodeReachesTask(g, tr, ops, t, k, n); }
  }
}
