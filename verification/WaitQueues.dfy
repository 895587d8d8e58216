/** Releasing the tasks of a wait queue: one from its head, or all of them. */
module WaitQueues {
  import opened Types
  import opened Seqs
  import opened TaskQueues
  import opened Core
  import opened CoreProofs
  import opened TaskCalls
  import opened TaskCallProofs

  predicate TasksIn(c: Core, s: seq<Tid>) { forall i :: 0 <= i < |s| ==> IsTask(c, s[i]) }

  /** Every task of the queue has a control block. */
  predicate QueueOk(c: Core, wq: WQ) { TasksIn(c, WaitQ(c, wq)) }

  /** The data in the wait-information block of a task. */
  function Data(tcb: seq<TCB>, t: Tid): WData {
    if t < |tcb| then tcb[t].wdata else NoData
  }

  function DataOf(c: Core, t: Tid): WData { Data(c.ts.tcb, t) }

  /** init_wait_queue, and any loop that ends the waits of the tasks of s in this order. */
  function WakeAll(g: Config, c: Core, s: seq<Tid>, code: ER): (r: (Core, bool))
    requires TasksIn(c, s)
    ensures |r.0.ts.tcb| == |c.ts.tcb|
    decreases |s|
  {
    if s == [] then (c, false)
    else
      var c1 := Wake(g, c, s[0], code, c.ts.tcb[s[0]].wdata);
      var (c2, req) := WakeAll(g, c1, s[1..], code);
      (c2, Req(c, c1) || req)
  }

  lemma WaitersAreWaiting(c: Core, wq: WQ)
    requires Linked(c.ts)
    ensures QueueOk(c, wq) && NoDup(WaitQ(c, wq))
    ensures forall t: Tid :: t in WaitQ(c, wq) <==> IsTask(c, t) && Home(c.ts.tcb[t]) == Some(Wait(wq))
    ensures forall t: Tid :: t in WaitQ(c, wq) ==> c.ts.tcb[t].tstat.Waiting? && c.ts.tcb[t].tstat.why == Obj(wq)
  {
    forall t: Tid ensures t in WaitQ(c, wq) <==> IsTask(c, t) && Home(c.ts.tcb[t]) == Some(Wait(wq)) {
      assert On(c.ts.q, Wait(wq), t) <==> Belongs(c.ts.tcb, Wait(wq), t);
    }
  }

  lemma HasQueue(g: Config, c: Core, wq: WQ)
    requires Inv(g, c)
    ensures QueueOk(c, wq) && RunsTask(c)
  {
    WaitersAreWaiting(c, wq);
  }

  /** Waking the first task of a queue takes exactly that task out of it, and leaves the other wait
      queues as they are. */
  lemma WakeHead(g: Config, c: Core, wq: WQ, code: ER, d: WData)
    requires Linked(c.ts) && WaitQ(c, wq) != []
    ensures IsTask(c, WaitQ(c, wq)[0])
    ensures var c1 := Wake(g, c, WaitQ(c, wq)[0], code, d);
            && WaitQ(c1, wq) == WaitQ(c, wq)[1..]
            && forall wq' :: wq' != wq ==> WaitQ(c1, wq') == WaitQ(c, wq')
  {
    WaitersAreWaiting(c, wq);
    var s := WaitQ(c, wq);
    assert s[0] in s;
    RemoveAt(s, 0);
    assert s[..0] + s[1..] == s[1..];
  }

  /** Quiet steps compose. */
  lemma QuietTrans(c0: Core, c1: Core, c2: Core)
    requires Quiet(c0, c1) && Quiet(c1, c2)
    ensures Quiet(c0, c2)
  {
  }

  lemma EmptyOrNot<T>(s: seq<T>)
    ensures s == [] || exists t :: t in s
  {
    if s != [] { assert s[0] in s; }
  }

  lemma {:induction false} WakeAllGood(g: Config, c: Core, s: seq<Tid>, code: ER)
    requires Good(g, c) && TasksIn(c, s) && NoDup(s)
    requires forall i :: 0 <= i < |s| ==> c.ts.tcb[s[i]].tstat.Waiting?
    ensures var (c', req) := WakeAll(g, c, s, code);
            && Good(g, c') && Quiet(c, c') && Follows(c, c', {})
            && (Req(c, c') ==> req) && (req ==> c.fl.dspflg)
    decreases |s|
  {
    if s != [] {
      WakeGood(g, c, s[0], code, c.ts.tcb[s[0]].wdata);
      var c1 := Wake(g, c, s[0], code, c.ts.tcb[s[0]].wdata);
      WakeAllGood(g, c1, s[1..], code);
      var c2 := WakeAll(g, c1, s[1..], code).0;
      FollowsTrans(c, c1, c2, {});
    }
  }

  lemma {:induction false} WakeAllTasks(g: Config, c: Core, s: seq<Tid>, code: ER)
    requires TasksIn(c, s) && NoDup(s)
    ensures var c' := WakeAll(g, c, s, code).0;
            && (forall t: Tid :: t in s ==> c'.ts.tcb[t] == Woken(c.ts.tcb[t], code, c.ts.tcb[t].wdata))
            && (forall t: Tid :: IsTask(c, t) && t !in s ==> c'.ts.tcb[t] == c.ts.tcb[t])
    decreases |s|
  {
    if s != [] {
      var t, c1 := s[0], Wake(g, c, s[0], code, c.ts.tcb[s[0]].wdata);
      assert c1.ts.tcb == c.ts.tcb[t := Woken(c.ts.tcb[t], code, c.ts.tcb[t].wdata)];
      WakeAllTasks(g, c1, s[1..], code);
      assert s == [t] + s[1..] && t !in s[1..];
    }
  }

  /** After init_wait_queue the queue is empty, and every task that was in it returns with E_DLT. */
  lemma InitWaitQueueOk(g: Config, c: Core, wq: WQ)
    requires Good(g, c)
    ensures QueueOk(c, wq)
    ensures var (c', req) := WakeAll(g, c, WaitQ(c, wq), E_DLT);
            && Good(g, c') && Quiet(c, c') && Follows(c, c', {}) && WaitQ(c', wq) == []
            && (Req(c, c') ==> req) && (req ==> c.fl.dspflg)
            && (forall t: Tid :: t in WaitQ(c, wq) ==> c'.ts.tcb[t].winfo == Wercd(E_DLT))
            && (forall t: Tid :: IsTask(c, t) && t !in WaitQ(c, wq) ==> c'.ts.tcb[t] == c.ts.tcb[t])
  {
    WaitersAreWaiting(c, wq);
    WakeAllGood(g, c, WaitQ(c, wq), E_DLT);
    WakeAllTasks(g, c, WaitQ(c, wq), E_DLT);
    var c' := WakeAll(g, c, WaitQ(c, wq), E_DLT).0;
    WaitersAreWaiting(c', wq);
    EmptyOrNot(WaitQ(c', wq));
  }

  /** The re-initialisation of an object with one wait queue, as a whole call. */
  lemma InitCallOk(g: Config, c: Core, wq: WQ)
    requires Inv(g, c)
    ensures QueueOk(c, wq)
    ensures var (c1, req) := WakeAll(g, c, WaitQ(c, wq), E_DLT);
            CallOk(g, c, Finish(c1, req), {}) && WaitQ(Finish(c1, req), wq) == []
  {
    InitWaitQueueOk(g, c, wq);
    var (c1, req) := WakeAll(g, c, WaitQ(c, wq), E_DLT);
    DoneOk(g, c, c1, req, {});
  }

  /** What an object relies on while other calls run: its queue only loses tasks, and the data of
      those that stay do not change. */
  lemma RelyQueue(c: Core, c': Core, own: set<WQ>, wq: WQ)
    requires Linked(c.ts) && Linked(c'.ts) && Rely(c.ts.tcb, c'.ts.tcb, own) && wq !in own
    ensures QueueOk(c, wq) && QueueOk(c', wq)
    ensures forall t: Tid :: t in WaitQ(c', wq) ==> t in WaitQ(c, wq) && DataOf(c', t) == DataOf(c, t)
  {
    WaitersAreWaiting(c, wq);
    WaitersAreWaiting(c', wq);
  }

  lemma RelyEmpty(c: Core, c': Core, own: set<WQ>, wq: WQ)
    requires Linked(c.ts) && Linked(c'.ts) && Rely(c.ts.tcb, c'.ts.tcb, own) && wq !in own
    requires WaitQ(c, wq) == []
    ensures WaitQ(c', wq) == []
  {
    RelyQueue(c, c', own, wq);
    EmptyOrNot(WaitQ(c', wq));
  }

  /** Where a task that goes to sleep is queued. */
  lemma BlockQueues(g: Config, c: Core, wq: WQ, d: WData, timer: Option<nat>)
    requires Inv(g, c) && c.run.Some? && c.run.value < |c.ts.tcb|
    ensures var c' := Block(g, c, Obj(wq), d, timer); var t := c.run.value;
            && WaitQ(c', wq) == Insert(g, c'.ts.tcb, Wait(wq), WaitQ(c, wq), t)
            && t !in WaitQ(c, wq)
            && (forall wq' :: wq' != wq ==> WaitQ(c', wq') == WaitQ(c, wq'))
            && c'.ts.tcb[t].wdata == d
            && (forall u: Tid :: IsTask(c, u) && u != t ==> c'.ts.tcb[u] == c.ts.tcb[u])
  {
    WaitersAreWaiting(c, wq);
  }

  /** Going to sleep on a wait queue: the other queues stay as they are. */
  lemma BlockOk(g: Config, c: Core, wq: WQ, d: WData, timer: Option<nat>)
    requires Inv(g, c) && MayBlock(c) && BlockArgs(Obj(wq), timer)
    ensures RunsTask(c)
    ensures var c' := Block(g, c, Obj(wq), d, timer);
            CallOk(g, c, c', {wq}) && forall wq' :: wq' != wq ==> WaitQ(c', wq') == WaitQ(c, wq')
  {
    BlockInv(g, c, Obj(wq), d, timer);
    BlockQueues(g, c, wq, d, timer);
  }

  /** Waking the first task of a queue, as a whole call. */
  lemma WakeHeadOk(g: Config, c: Core, wq: WQ, d: WData)
    requires Inv(g, c) && WaitQ(c, wq) != []
    ensures QueueOk(c, wq)
    ensures var c1 := Wake(g, c, WaitQ(c, wq)[0], E_OK, d); var c' := Finish(c1, Req(c, c1));
            && CallOk(g, c, c', {})
            && WaitQ(c', wq) == WaitQ(c, wq)[1..] && forall wq' :: wq' != wq ==> WaitQ(c', wq') == WaitQ(c, wq')
  {
    WaitersAreWaiting(c, wq);
    assert WaitQ(c, wq)[0] in WaitQ(c, wq);
    WakeOk(g, c, WaitQ(c, wq)[0], E_OK, d);
    WakeHead(g, c, wq, E_OK, d);
  }

  /** Both queues of a message object are emptied when it is initialised again. */
  lemma InitTwoQueuesOk(g: Config, c: Core, sq: WQ, rq: WQ)
    requires Inv(g, c) && sq != rq
    ensures QueueOk(c, sq)
    ensures var (c1, req1) := WakeAll(g, c, WaitQ(c, sq), E_DLT);
            && QueueOk(c1, rq)
            && var (c2, req2) := WakeAll(g, c1, WaitQ(c1, rq), E_DLT);
            && CallOk(g, c, Finish(c2, req1 || req2), {})
            && WaitQ(Finish(c2, req1 || req2), sq) == [] && WaitQ(Finish(c2, req1 || req2), rq) == []
  {
    InitWaitQueueOk(g, c, sq);
    var (c1, req1) := WakeAll(g, c, WaitQ(c, sq), E_DLT);
    InitWaitQueueOk(g, c1, rq);
    var (c2, req2) := WakeAll(g, c1, WaitQ(c1, rq), E_DLT);
    QuietTrans(c, c1, c2);
    FollowsTrans(c, c1, c2, {});
    DoneOk(g, c, c2, req1 || req2, {});
    RelyEmpty(c1, c2, {}, sq);
  }
}
