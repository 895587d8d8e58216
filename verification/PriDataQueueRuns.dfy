/** What becomes of the messages sent to a priority data queue, over whole runs of the kernel: none is lost
    or doubled, and those of one priority come out in the order in which they went in. */
module PriDataQueueRuns {
  import opened Types
  import opened Seqs
  import opened TaskQueues
  import opened Core
  import opened CoreProofs
  import opened TaskCalls
  import opened WaitQueues
  import opened PriDataQueue
  import opened System
  import opened SystemProofs
  import opened StepFrames
  import opened DataFlow

  // ----- the messages of one priority -----

  function One(m: Msg, p: int): seq<int> { if m.pri == p then [m.data] else [] }

  /** The data of the messages of priority p. */
  function Only(s: seq<Msg>, p: int): seq<int> {
    if s == [] then [] else One(s[0], p) + Only(s[1..], p)
  }

  /** The data of priority p that the tasks of s want to send. */
  function Held(tcb: seq<TCB>, s: seq<Tid>, p: int): seq<int> {
    if s == [] then [] else One(MsgIn(Data(tcb, s[0])), p) + Held(tcb, s[1..], p)
  }

  /** What the buffer and the waiting senders hold of priority p. */
  function There(c: Core, d: Pdq, i: nat, p: int): seq<int> {
    Only(d.arr, p) + Held(c.ts.tcb, WaitQ(c, SPdqQ(i)), p)
  }

  lemma {:induction false} OnlyConcat(a: seq<Msg>, b: seq<Msg>, p: int)
    ensures Only(a + b, p) == Only(a, p) + Only(b, p)
  {
    if a == [] {
      assert a + b == b;
    } else {
      OnlyConcat(a[1..], b, p);
      assert (a + b)[1..] == a[1..] + b;
      Regrouped(One(a[0], p), Only(a[1..], p), Only(b, p));
    }
  }

  lemma {:induction false} HeldConcat(tcb: seq<TCB>, a: seq<Tid>, b: seq<Tid>, p: int)
    ensures Held(tcb, a + b, p) == Held(tcb, a, p) + Held(tcb, b, p)
  {
    if a == [] {
      assert a + b == b;
    } else {
      HeldConcat(tcb, a[1..], b, p);
      assert (a + b)[1..] == a[1..] + b;
      Regrouped(One(MsgIn(Data(tcb, a[0])), p), Held(tcb, a[1..], p), Held(tcb, b, p));
    }
  }

  lemma HeldInsert(tcb: seq<TCB>, a: seq<Tid>, t: Tid, b: seq<Tid>, p: int)
    ensures Held(tcb, a + [t] + b, p) == Held(tcb, a, p) + One(MsgIn(Data(tcb, t)), p) + Held(tcb, b, p)
  {
    HeldConcat(tcb, a + [t], b, p);
    HeldConcat(tcb, a, [t], p);
    assert [t][1..] == [];
  }

  lemma {:induction false} HeldFrame(tcb: seq<TCB>, tcb': seq<TCB>, s: seq<Tid>, p: int)
    requires forall t: Tid :: t in s ==> Data(tcb', t) == Data(tcb, t)
    ensures Held(tcb', s, p) == Held(tcb, s, p)
  {
    if s != [] { HeldFrame(tcb, tcb', s[1..], p); }
  }

  /** A sender that leaves takes its message with it. */
  lemma HeldWithout(tcb: seq<TCB>, s: seq<Tid>, t: Tid, p: int) returns (a: seq<int>, b: seq<int>)
    requires NoDup(s) && t in s
    ensures Held(tcb, s, p) == a + One(MsgIn(Data(tcb, t)), p) + b && Held(tcb, Remove(s, t), p) == a + b
  {
    var k :| 0 <= k < |s| && s[k] == t;
    RemoveAt(s, k);
    a, b := Held(tcb, s[..k], p), Held(tcb, s[k + 1..], p);
    assert s == s[..k] + [t] + s[k + 1..];
    HeldInsert(tcb, s[..k], t, s[k + 1..], p);
    HeldConcat(tcb, s[..k], s[k + 1..], p);
  }

  /** The order of the senders does not matter for what they hold. */
  lemma {:induction false} HeldPerm(tcb: seq<TCB>, s: seq<Tid>, s': seq<Tid>, p: int)
    requires NoDup(s') && multiset(s') == multiset(s)
    ensures multiset(Held(tcb, s', p)) == multiset(Held(tcb, s, p))
    decreases |s|
  {
    if s == [] {
      assert |s'| == |multiset(s')| == 0;
    } else {
      assert s[0] in multiset(s');
      var r := Remove(s', s[0]);
      var a, b := HeldWithout(tcb, s', s[0], p);
      RestPerm(s, s');
      RemoveMembers(s', s[0]);
      HeldPerm(tcb, s[1..], r, p);
      var x := One(MsgIn(Data(tcb, s[0])), p);
      assert multiset(a + x + b) == multiset(x) + multiset(a + b);
    }
  }

  lemma RestPerm(s: seq<Tid>, s': seq<Tid>)
    requires s != [] && s[0] in s' && multiset(s') == multiset(s)
    ensures multiset(Remove(s', s[0])) == multiset(s[1..])
  {
    RemovedOne(s', s[0]);
    assert s == [s[0]] + s[1..];
    assert multiset(Remove(s', s[0])) == multiset(s') - multiset{s[0]};
  }

  lemma {:induction false} NoneOf(a: seq<Msg>, p: int)
    requires forall j :: 0 <= j < |a| ==> a[j].pri != p
    ensures Only(a, p) == []
  {
    if a != [] { NoneOf(a[1..], p); }
  }

  lemma FirstAt(a: seq<Msg>, m: Msg, b: seq<Msg>, p: int)
    requires m.pri == p ==> Only(a, p) == []
    ensures Only(a + [m] + b, p) == One(m, p) + Only(a + b, p)
  {
    OnlyConcat(a + [m], b, p);
    Snoc(a, m, p);
    OnlyConcat(a, b, p);
  }

  /** The best message is the first of its priority. */
  lemma BestIsFirst(a: seq<Msg>, p: int)
    requires a != []
    ensures Only(a, p) == One(a[Best(a)], p) + Only(Without(a, Best(a)), p)
  {
    hide Best, Only;
    var k := Best(a);
    assert a == a[..k] + [a[k]] + a[k + 1..];
    if a[k].pri == p { NoneOf(a[..k], p); }
    FirstAt(a[..k], a[k], a[k + 1..], p);
  }

  lemma Snoc(a: seq<Msg>, m: Msg, p: int)
    ensures Only(a + [m], p) == Only(a, p) + One(m, p)
  {
    OnlyConcat(a, [m], p);
    assert [m][1..] == [];
  }

  // ----- what a step does with messages -----

  /** A call on the queue, as far as messages of priority p are concerned. */
  function CallFlow(g: Config, c: Core, d: Pdq, i: nat, op: PdqOp, p: int): Flow
    requires PdqArgs(g, c, d, i)
  {
    match op
    case SndP(m, w) =>
      var er := SndPdq(g, c, d, i, m, w).2;
      if er == E_OK && WaitQ(c, RPdqQ(i)) != [] then Flow(One(m, p), One(m, p), [], [])
      else if er == E_OK || er == BLOCKED then Flow(One(m, p), [], [], [])
      else NoFlow
    case RcvP(w) =>
      var (c', d', er, m) := RcvPdq(g, c, d, i, w);
      if er == E_OK then Flow([], One(m, p), [], []) else NoFlow
    case IniP => if InTask(c) then Flow([], [], There(c, d, i, p), []) else NoFlow
  }

  /** Another step withdraws the message of the task whose wait to send it ends from outside. */
  function Withdrawal(c: Core, c': Core, op: Op, i: nat, p: int): Flow {
    match Ended(op)
    case Some(t) =>
      if t in WaitQ(c, SPdqQ(i)) && t !in WaitQ(c', SPdqQ(i)) then Flow([], [], [], One(MsgIn(DataOf(c, t)), p))
      else NoFlow
    case None => NoFlow
  }

  ghost function FlowOf(g: Config, s: Sys, op: Op, i: nat, p: int): Flow {
    if !May(g, s, op) || i >= |s.pdq| then NoFlow
    else if op.OnPdq? && op.i == i then CallFlow(g, s.c, s.pdq[i], i, op.pop, p)
    else Withdrawal(s.c, Step(g, s, op).c, op, i, p)
  }

  /** The data of priority p balance; and without TA_TPRI they keep their order. */
  ghost predicate Flows(g: Config, i: nat, l: seq<int>, f: Flow, l': seq<int>) {
    Balances(l, f, l') && (!Tpri(g, SPdqQ(i)) ==> Sub(f.delivered + l', l + f.sent))
  }

  // ----- calls on the queue -----

  lemma SenderSleeps(g: Config, c: Core, d: Pdq, i: nat, m: Msg, timer: Option<nat>, p: int)
    requires Inv(g, c) && MayBlock(c)
    ensures c.run.value < |c.ts.tcb|
    ensures Flows(g, i, There(c, d, i, p), Flow(One(m, p), [], [], []),
                  There(Block(g, c, Obj(SPdqQ(i)), ToData(m), timer), d, i, p))
  {
    hide Inv, Block, Sub, Balances, Only;
    HasQueue(g, c, SPdqQ(i));
    BlockQueues(g, c, SPdqQ(i), ToData(m), timer);
    SleeperFrame(g, c, i, m, timer, p);
    var s, c' := WaitQ(c, SPdqQ(i)), Block(g, c, Obj(SPdqQ(i)), ToData(m), timer);
    var k := if Tpri(g, SPdqQ(i)) then PriPos(c'.ts.tcb, s, Prio(c'.ts.tcb, c.run.value)) else |s|;
    assert s == s[..k] + s[k..];
    assert WaitQ(c', SPdqQ(i)) == s[..k] + [c.run.value] + s[k..];
    HeldConcat(c'.ts.tcb, s[..k], s[k..], p);
    HeldInsert(c'.ts.tcb, s[..k], c.run.value, s[k..], p);
    var a, b := Held(c'.ts.tcb, s[..k], p), Held(c'.ts.tcb, s[k..], p);
    ComingIn(Only(d.arr, p) + a, One(m, p), b);
    Regrouped(Only(d.arr, p), a, b);
    Regrouped(Only(d.arr, p), a + One(m, p), b);
    Regrouped(Only(d.arr, p), a, One(m, p));
  }

  /** Those that were there keep their messages. */
  lemma SleeperFrame(g: Config, c: Core, i: nat, m: Msg, timer: Option<nat>, p: int)
    requires Inv(g, c) && MayBlock(c)
    ensures c.run.value < |c.ts.tcb|
    ensures var c' := Block(g, c, Obj(SPdqQ(i)), ToData(m), timer);
            && Data(c'.ts.tcb, c.run.value) == ToData(m)
            && Held(c'.ts.tcb, WaitQ(c, SPdqQ(i)), p) == Held(c.ts.tcb, WaitQ(c, SPdqQ(i)), p)
  {
    hide Held, Linked, Sorted, TimersInv, TimeInv, DispInv, Unlink, Insert;
    HasQueue(g, c, SPdqQ(i));
    WaitersAreWaiting(c, SPdqQ(i));
    BlockQueues(g, c, SPdqQ(i), ToData(m), timer);
    HeldFrame(c.ts.tcb, Block(g, c, Obj(SPdqQ(i)), ToData(m), timer).ts.tcb, WaitQ(c, SPdqQ(i)), p);
  }

  lemma SndFlow(g: Config, c: Core, d: Pdq, i: nat, m: Msg, w: Patience, p: int)
    requires Inv(g, c) && PdqInv(c, d, i) && PdqArgs(g, c, d, i)
    ensures var (c', d') := PdqStep(g, c, d, i, SndP(m, w));
            Flows(g, i, There(c, d, i, p), CallFlow(g, c, d, i, SndP(m, w), p), There(c', d', i, p))
  {
    hide Inv, Block, Wake, Sub, Balances, WakeAll, Only, Held, SendPridata;
    Passing(There(c, d, i, p), []);
    SendCases(g, c, d, i, m, w);
    var (c', d', er) := SndPdq(g, c, d, i, m, w);
    if er == BLOCKED {
      SenderSleeps(g, c, d, i, m, TimerOf(w), p);
    } else if er == E_OK && WaitQ(c, RPdqQ(i)) == [] {
      Snoc(d.arr, m, p);
      NoSenders(c, d, i, p);
      NoSenders(c', d', i, p);
      Passing(Only(d.arr, p), One(m, p));
    } else if er == E_OK {
      NoSenders(c, d, i, p);
      NoSenders(c', d', i, p);
      Passing([], One(m, p));
    }
  }

  lemma NoSenders(c: Core, d: Pdq, i: nat, p: int)
    requires WaitQ(c, SPdqQ(i)) == []
    ensures There(c, d, i, p) == Only(d.arr, p) && (d.arr == [] ==> There(c, d, i, p) == [])
  {
  }

  /** How a sending call ends. */
  lemma SendCases(g: Config, c: Core, d: Pdq, i: nat, m: Msg, w: Patience)
    requires Inv(g, c) && PdqInv(c, d, i) && PdqArgs(g, c, d, i)
    ensures var (c', d', er) := SndPdq(g, c, d, i, m, w); var s := WaitQ(c, SPdqQ(i));
            if er == BLOCKED then MayBlock(c) && d' == d && c' == Block(g, c, Obj(SPdqQ(i)), ToData(m), TimerOf(w))
            else if er != E_OK then c' == c && d' == d
            else if WaitQ(c, RPdqQ(i)) != [] then d' == d && d.arr == [] && s == [] == WaitQ(c', SPdqQ(i))
            else d' == d.(arr := d.arr + [m]) && c' == c && s == []
  {
    hide Block, Wake, WakeAll, Linked, Sorted, TimersInv, TimeInv, DispInv;
    if WaitQ(c, RPdqQ(i)) != [] { WakeHead(g, c, RPdqQ(i), E_OK, ToData(m)); }
  }

  lemma RcvFlow(g: Config, c: Core, d: Pdq, i: nat, w: Patience, p: int)
    requires Inv(g, c) && PdqInv(c, d, i) && PdqArgs(g, c, d, i)
    ensures var (c', d') := PdqStep(g, c, d, i, RcvP(w));
            Flows(g, i, There(c, d, i, p), CallFlow(g, c, d, i, RcvP(w), p), There(c', d', i, p))
  {
    hide Inv, PdqInv, Block, RcvPdq, Sub, Balances, WakeAll, There, ReceivePridata, Finish;
    Passing(There(c, d, i, p), []);
    ReceiveTakes(g, c, d, i, p);
    ReceiveEnds(g, c, d, i, w);
    var (c', d', er, m) := RcvPdq(g, c, d, i, w);
    if er == E_OK { TakenFirst(One(m, p), There(c', d', i, p)); }
    if MayBlock(c) { ReceiverSleeps(g, c, d, i, TimerOf(w), p); }
  }

  /** How a receiving call ends. */
  lemma ReceiveEnds(g: Config, c: Core, d: Pdq, i: nat, w: Patience)
    requires RunsTask(c) && QueueOk(c, SPdqQ(i))
    ensures var (c', d', er, m) := RcvPdq(g, c, d, i, w); var (c1, d1, ok, m1, req) := ReceivePridata(g, c, d, i);
            if er == E_OK then ok && c' == Finish(c1, req) && d' == d1 && m == m1
            else d' == d && (c' == c || (!ok && MayBlock(c) && c' == Block(g, c, Obj(RPdqQ(i)), NoData, TimerOf(w))))
  {
    hide ReceivePridata, Block, Finish;
  }

  lemma ReceiverSleeps(g: Config, c: Core, d: Pdq, i: nat, timer: Option<nat>, p: int)
    requires Inv(g, c) && MayBlock(c)
    ensures c.run.value < |c.ts.tcb|
    ensures WaitQ(c, SPdqQ(i)) == [] ==>
              There(Block(g, c, Obj(RPdqQ(i)), NoData, timer), d, i, p) == There(c, d, i, p)
  {
    hide Inv, Block;
    HasQueue(g, c, RPdqQ(i));
    BlockQueues(g, c, RPdqQ(i), NoData, timer);
  }

  /** Receiving takes the first datum of the priority of the message, and none of another priority. */
  lemma ReceiveTakes(g: Config, c: Core, d: Pdq, i: nat, p: int)
    requires Inv(g, c) && PdqInv(c, d, i) && QueueOk(c, SPdqQ(i))
    ensures var (c', d', ok, m, req) := ReceivePridata(g, c, d, i); var l := There(c, d, i, p);
            && (ok ==> l == One(m, p) + There(Finish(c', req), d', i, p))
            && (!ok ==> c' == c && d' == d && WaitQ(c, SPdqQ(i)) == [])
  {
    hide Inv, Wake, Held, Only, Without, One;
    var (c', d', ok, m, req) := ReceivePridata(g, c, d, i);
    var s := WaitQ(c, SPdqQ(i));
    if d.arr != [] { BestIsFirst(d.arr, p); }
    if s != [] {
      FirstSender(g, c, i, p);
      var x, h := MsgIn(DataOf(c, s[0])), Held(c'.ts.tcb, WaitQ(c', SPdqQ(i)), p);
      if d.arr == [] {
        NoneOf(d.arr, p);
      } else {
        var rest := Without(d.arr, Best(d.arr));
        Snoc(rest, x, p);
        Regrouped(One(m, p), Only(rest, p), One(x, p) + h);
        Regrouped(Only(rest, p), One(x, p), h);
      }
    }
  }

  /** The first sender takes its message with it. */
  lemma FirstSender(g: Config, c: Core, i: nat, p: int)
    requires Inv(g, c) && WaitQ(c, SPdqQ(i)) != []
    ensures WaitQ(c, SPdqQ(i))[0] < |c.ts.tcb|
    ensures var s := WaitQ(c, SPdqQ(i)); var c1 := Wake(g, c, s[0], E_OK, DataOf(c, s[0]));
            Held(c.ts.tcb, s, p) == One(MsgIn(DataOf(c, s[0])), p) + Held(c1.ts.tcb, WaitQ(c1, SPdqQ(i)), p)
  {
    var s := WaitQ(c, SPdqQ(i));
    WaitersAreWaiting(c, SPdqQ(i));
    WakeHead(g, c, SPdqQ(i), E_OK, DataOf(c, s[0]));
    HeldFrame(c.ts.tcb, Wake(g, c, s[0], E_OK, DataOf(c, s[0])).ts.tcb, s[1..], p);
  }

  lemma IniFlow(g: Config, c: Core, d: Pdq, i: nat, p: int)
    requires Inv(g, c) && PdqInv(c, d, i) && PdqArgs(g, c, d, i)
    ensures var (c', d') := PdqStep(g, c, d, i, IniP);
            Flows(g, i, There(c, d, i, p), CallFlow(g, c, d, i, IniP, p), There(c', d', i, p))
  {
    hide Inv, PdqInv, Sub, WakeAll, Finish, Balances, Only, Held;
    var l := There(c, d, i, p);
    InitTwoQueuesOk(g, c, SPdqQ(i), RPdqQ(i));
    var (c', d') := PdqStep(g, c, d, i, IniP);
    if InTask(c) {
      assert d'.arr == [] && WaitQ(c', SPdqQ(i)) == [];
      NoSenders(c', d', i, p);
      Cleared(l);
    } else {
      Passing(l, []);
    }
  }

  // ----- other steps -----

  /** What a step that does not work on the queue does to the senders. */
  lemma SendersFlow(g: Config, c: Core, c': Core, op: Op, d: Pdq, i: nat, p: int)
    requires NoDup(WaitQ(c, SPdqQ(i))) && QueueKept(g, op, SPdqQ(i), WaitQ(c, SPdqQ(i)), WaitQ(c', SPdqQ(i)))
    requires NoDup(WaitQ(c', SPdqQ(i)))
    requires forall t: Tid :: t in WaitQ(c', SPdqQ(i)) ==> DataOf(c', t) == DataOf(c, t)
    ensures Flows(g, i, There(c, d, i, p), Withdrawal(c, c', op, i, p), There(c', d, i, p))
  {
    hide Sub, Remove, Held, Only, Balances, NoDup, One, Data;
    var s, s' := WaitQ(c, SPdqQ(i)), WaitQ(c', SPdqQ(i));
    HeldFrame(c.ts.tcb, c'.ts.tcb, s', p);
    assert There(c', d, i, p) == Only(d.arr, p) + Held(c.ts.tcb, s', p);
    if s' == s {
      Passing(There(c, d, i, p), []);
    } else if Ended(op).Some? {
      RemoveMembers(s, Ended(op).value);
      SenderLeaves(c.ts.tcb, Only(d.arr, p), s, Ended(op).value, p);
    } else {
      HeldPerm(c.ts.tcb, s, s', p);
      Reordered(Only(d.arr, p), Held(c.ts.tcb, s, p), Held(c.ts.tcb, s', p));
    }
  }

  lemma SenderLeaves(tcb: seq<TCB>, buf: seq<int>, s: seq<Tid>, t: Tid, p: int)
    requires NoDup(s) && t in s
    ensures var l, l' := buf + Held(tcb, s, p), buf + Held(tcb, Remove(s, t), p);
            var f := Flow([], [], [], One(MsgIn(Data(tcb, t)), p));
            Balances(l, f, l') && Sub(f.delivered + l', l + f.sent)
  {
    hide Sub, Balances, Held, Remove;
    var a, b := HeldWithout(tcb, s, t, p);
    var x := One(MsgIn(Data(tcb, t)), p);
    Leaving(buf + a, x, b);
    Regrouped(buf, a, b);
    Regrouped(buf, a, x + b);
    Regrouped(a, x, b);
    Regrouped(buf + a, x, b);
  }

  // ----- every step, every run -----

  lemma OwnFlows(g: Config, s: Sys, op: PdqOp, i: nat, p: int)
    requires SysInv(g, s) && May(g, s, OnPdq(i, op))
    ensures var d := s.pdq[i]; var (c', d') := PdqStep(g, s.c, d, i, op);
            Flows(g, i, There(s.c, d, i, p), CallFlow(g, s.c, d, i, op, p), There(c', d', i, p))
  {
    hide Inv, Flows, There, CallFlow, PdqStep, PdqInv;
    match op
    case SndP(m, w) => SndFlow(g, s.c, s.pdq[i], i, m, w, p);
    case RcvP(w) => RcvFlow(g, s.c, s.pdq[i], i, w, p);
    case IniP => IniFlow(g, s.c, s.pdq[i], i, p);
  }

  lemma SomeQueue(g: Config, s: Sys, wq: WQ)
    requires SysInv(g, s)
    ensures NoDup(WaitQ(s.c, wq))
  {
    WaitersAreWaiting(s.c, wq);
  }

  /** In every step the messages of every priority balance, and keep their order unless the queue of senders
      is ordered by the priority of tasks. */
  lemma StepFlows(g: Config, s: Sys, op: Op, i: nat, p: int)
    requires SysInv(g, s) && May(g, s, op) && i < |s.pdq|
    ensures var s' := Step(g, s, op);
            && |s'.pdq| == |s.pdq|
            && Flows(g, i, There(s.c, s.pdq[i], i, p), FlowOf(g, s, op, i, p), There(s'.c, s'.pdq[i], i, p))
  {
    hide SysInv, Flows, There, CallFlow, Withdrawal, PdqStep, QueueKept;
    StepOthersSame(g, s, op);
    if op.OnPdq? && op.i == i {
      OwnFlows(g, s, op.pop, i, p);
    } else {
      ForeignQueue(g, s, op, SPdqQ(i));
      SomeQueue(g, s, SPdqQ(i));
      StepKeepsInv(g, s, op);
      SomeQueue(g, Step(g, s, op), SPdqQ(i));
      SendersFlow(g, s.c, Step(g, s, op).c, op, s.pdq[i], i, p);
    }
  }

  /** What n steps of a run have done with the messages of priority p in queue i. */
  ghost function Total(g: Config, tr: seq<Sys>, ops: seq<Op>, i: nat, p: int, n: nat): Flow
    requires n <= |ops| < |tr|
  {
    if n == 0 then NoFlow else Plus(Total(g, tr, ops, i, p, n - 1), FlowOf(g, tr[n - 1], ops[n - 1], i, p))
  }

  /** Over any run and for every priority: the messages there were and those sent are those delivered, those
      dropped by reinitialisation, those withdrawn, and those there are.  And if the senders wait in the order
      of their arrival: what has been delivered, followed by what is there, is what was there followed by what
      was sent, without the messages dropped and withdrawn. */
  lemma {:induction false} RunFlows(g: Config, tr: seq<Sys>, ops: seq<Op>, i: nat, p: int, n: nat)
    requires IsRun(g, tr, ops) && SysInv(g, tr[0]) && i < |tr[0].pdq| && n <= |ops|
    ensures |tr[n].pdq| == |tr[0].pdq|
    ensures Flows(g, i, There(tr[0].c, tr[0].pdq[i], i, p), Total(g, tr, ops, i, p, n),
                  There(tr[n].c, tr[n].pdq[i], i, p))
  {
    hide SysInv, May, Step, Sub, There, FlowOf, Balances;
    var l0 := There(tr[0].c, tr[0].pdq[i], i, p);
    if n == 0 {
      NothingFlows(l0);
      Passing(l0, []);
    } else {
      RunFlows(g, tr, ops, i, p, n - 1);
      RunsKeepInv(g, tr, ops, n - 1);
      assert tr[n - 1 + 1] == Step(g, tr[n - 1], ops[n - 1]);
      StepFlows(g, tr[n - 1], ops[n - 1], i, p);
      var l, l' := There(tr[n - 1].c, tr[n - 1].pdq[i], i, p), There(tr[n].c, tr[n].pdq[i], i, p);
      var t, f := Total(g, tr, ops, i, p, n - 1), FlowOf(g, tr[n - 1], ops[n - 1], i, p);
      BalancesOn(l0, t, l, f, l');
      if !Tpri(g, SPdqQ(i)) { InOrderOn(l0, t.delivered, l, t.sent, f.delivered, l', f.sent); }
    }
  }

  /** If nothing of priority p was dropped or withdrawn, the messages of this priority form a FIFO queue. */
  lemma RunIsFifo(g: Config, tr: seq<Sys>, ops: seq<Op>, i: nat, p: int, n: nat)
    requires IsRun(g, tr, ops) && SysInv(g, tr[0]) && i < |tr[0].pdq| && n <= |ops|
    requires !Tpri(g, SPdqQ(i))
    requires Total(g, tr, ops, i, p, n).dropped == [] == Total(g, tr, ops, i, p, n).withdrawn
    ensures |tr[n].pdq| == |tr[0].pdq|
    ensures Total(g, tr, ops, i, p, n).delivered + There(tr[n].c, tr[n].pdq[i], i, p)
         == There(tr[0].c, tr[0].pdq[i], i, p) + Total(g, tr, ops, i, p, n).sent
  {
    hide SysInv, May, Step, Sub, There, Total, Balances;
    RunFlows(g, tr, ops, i, p, n);
    var l0, l := There(tr[0].c, tr[0].pdq[i], i, p), There(tr[n].c, tr[n].pdq[i], i, p);
    var f := Total(g, tr, ops, i, p, n);
    SizesAgree(l0, f, l);
    SubSameLength(f.delivered + l, l0 + f.sent);
  }
}
