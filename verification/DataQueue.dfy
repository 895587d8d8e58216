/** Data queues (kernel/dataqueue.c): a bounded buffer, senders that wait with their datum, and
    receivers that wait for one. */
module DataQueue {
  import opened Types
  import opened Seqs
  import opened TaskQueues
  import opened Core
  import opened CoreProofs
  import opened TaskCalls
  import opened TaskCallProofs
  import opened WaitQueues

  /** The buffered data, oldest first, and the capacity.  Class DataBuffer is the ring buffer that
      holds them. */
  datatype Dtq = Dtq(buf: seq<int>, cap: nat)

  function MsgOf(d: WData): int { if d.MsgData? then d.data else 0 }

  // ----- transitions -----

  function SendData(g: Config, c: Core, d: Dtq, i: nat, data: int): (Core, Dtq, bool, bool)
    requires QueueOk(c, RDtqQ(i))
  {
    if WaitQ(c, RDtqQ(i)) != [] then
      var c1 := Wake(g, c, WaitQ(c, RDtqQ(i))[0], E_OK, MsgData(data, 0));
      (c1, d, true, Req(c, c1))
    else if |d.buf| < d.cap then (c, d.(buf := d.buf + [data]), true, false)
    else (c, d, false, false)
  }

  /** The oldest datum makes room if there is none. */
  function ForceBuf(d: Dtq, data: int): seq<int>
    requires d.cap > 0 && |d.buf| <= d.cap
  {
    (if |d.buf| < d.cap then d.buf else d.buf[1..]) + [data]
  }

  function ForceSendData(g: Config, c: Core, d: Dtq, i: nat, data: int): (Core, Dtq, bool)
    requires QueueOk(c, RDtqQ(i)) && d.cap > 0 && |d.buf| <= d.cap
  {
    if WaitQ(c, RDtqQ(i)) != [] then
      var c1 := Wake(g, c, WaitQ(c, RDtqQ(i))[0], E_OK, MsgData(data, 0));
      (c1, d, Req(c, c1))
    else (c, d.(buf := ForceBuf(d, data)), false)
  }

  /** The last three components: success, the datum, the dispatch request. */
  function ReceiveData(g: Config, c: Core, d: Dtq, i: nat): (Core, Dtq, bool, int, bool)
    requires QueueOk(c, SDtqQ(i))
  {
    var s := WaitQ(c, SDtqQ(i));
    if d.buf != [] && s == [] then (c, d.(buf := d.buf[1..]), true, d.buf[0], false)
    else if s != [] then
      var c1 := Wake(g, c, s[0], E_OK, DataOf(c, s[0]));
      var x := MsgOf(DataOf(c, s[0]));
      if d.buf != [] then (c1, d.(buf := d.buf[1..] + [x]), true, d.buf[0], Req(c, c1))
      else (c1, d, true, x, Req(c, c1))
    else (c, d, false, 0, false)
  }

  /** snd_dtq, tsnd_dtq, psnd_dtq, ipsnd_dtq. */
  function SndDtq(g: Config, c: Core, d: Dtq, i: nat, data: int, p: Patience): (Core, Dtq, ER)
    requires QueueOk(c, RDtqQ(i)) && RunsTask(c)
  {
    if !(if p.Polling? then Live(c) else MayBlock(c)) then (c, d, E_CTX)
    else if !TmoOk(p) then (c, d, E_PAR)
    else
      var (c1, d1, ok, req) := SendData(g, c, d, i, data);
      if ok then (Finish(c1, req), d1, E_OK)
      else if p.Polling? || p.tmo == TMO_POL then (c, d, E_TMOUT)
      else (Block(g, c, Obj(SDtqQ(i)), MsgData(data, 0), TimerOf(p)), d, BLOCKED)
  }

  /** fsnd_dtq, ifsnd_dtq. */
  function FsndDtq(g: Config, c: Core, d: Dtq, i: nat, data: int): (Core, Dtq, ER)
    requires QueueOk(c, RDtqQ(i)) && |d.buf| <= d.cap
  {
    if !Live(c) then (c, d, E_CTX)
    else if d.cap == 0 then (c, d, E_ILUSE)
    else
      var (c1, d1, req) := ForceSendData(g, c, d, i, data);
      (Finish(c1, req), d1, E_OK)
  }

  /** rcv_dtq, trcv_dtq, prcv_dtq. */
  function RcvDtq(g: Config, c: Core, d: Dtq, i: nat, p: Patience): (Core, Dtq, ER, int)
    requires QueueOk(c, SDtqQ(i)) && RunsTask(c)
  {
    if !(if p.Polling? then InTask(c) else MayBlock(c)) then (c, d, E_CTX, 0)
    else if !TmoOk(p) then (c, d, E_PAR, 0)
    else
      var (c1, d1, ok, x, req) := ReceiveData(g, c, d, i);
      if ok then (Finish(c1, req), d1, E_OK, x)
      else if p.Polling? || p.tmo == TMO_POL then (c, d, E_TMOUT, 0)
      else (Block(g, c, Obj(RDtqQ(i)), NoData, TimerOf(p)), d, BLOCKED, 0)
  }

  function IniDtq(g: Config, c: Core, d: Dtq, i: nat): (Core, Dtq, ER)
    requires QueueOk(c, SDtqQ(i)) && QueueOk(WakeAll(g, c, WaitQ(c, SDtqQ(i)), E_DLT).0, RDtqQ(i))
  {
    if !InTask(c) then (c, d, E_CTX)
    else
      var (c1, req1) := WakeAll(g, c, WaitQ(c, SDtqQ(i)), E_DLT);
      var (c2, req2) := WakeAll(g, c1, WaitQ(c1, RDtqQ(i)), E_DLT);
      (Finish(c2, req1 || req2), d.(buf := []), E_OK)
  }

  // ----- the logical queue -----

  function Msgs(tcb: seq<TCB>, s: seq<Tid>): (r: seq<int>)
    ensures |r| == |s|
  {
    if s == [] then [] else [MsgOf(Data(tcb, s[0]))] + Msgs(tcb, s[1..])
  }

  /** What the buffer and the waiting senders hold together, in the order of delivery. */
  function Logical(c: Core, d: Dtq, i: nat): seq<int> {
    d.buf + Msgs(c.ts.tcb, WaitQ(c, SDtqQ(i)))
  }

  predicate Balanced(receivers: seq<Tid>, senders: seq<Tid>, d: Dtq) {
    && |d.buf| <= d.cap
    && (receivers != [] ==> d.buf == [] && senders == [])
    && (senders != [] ==> |d.buf| == d.cap)
  }

  /** Receivers wait only while there is nothing to receive, senders only while the buffer is full;
      a queue of capacity 0 has a buffer that is always full and always empty. */
  ghost predicate DtqInv(c: Core, d: Dtq, i: nat) {
    Balanced(WaitQ(c, RDtqQ(i)), WaitQ(c, SDtqQ(i)), d)
  }

  lemma DtqRely(c: Core, c': Core, own: set<WQ>, d: Dtq, i: nat)
    requires DtqInv(c, d, i) && Linked(c.ts) && Linked(c'.ts)
    requires Rely(c.ts.tcb, c'.ts.tcb, own) && SDtqQ(i) !in own && RDtqQ(i) !in own
    ensures DtqInv(c', d, i)
  {
    if WaitQ(c, RDtqQ(i)) == [] { RelyEmpty(c, c', own, RDtqQ(i)); }
    if WaitQ(c, SDtqQ(i)) == [] { RelyEmpty(c, c', own, SDtqQ(i)); }
  }

  lemma SndDtqCases(g: Config, c: Core, d: Dtq, i: nat, data: int, p: Patience)
    requires RunsTask(c) && QueueOk(c, RDtqQ(i)) && DtqInv(c, d, i)
    ensures var (c', d', er) := SndDtq(g, c, d, i, data, p); var r := WaitQ(c, RDtqQ(i));
            || (er == BLOCKED && MayBlock(c) && TmoOk(p) && r == [] && |d.buf| == d.cap && d' == d
                && c' == Block(g, c, Obj(SDtqQ(i)), MsgData(data, 0), TimerOf(p)))
            || (er == E_OK && r != [] && d' == d
                && var c1 := Wake(g, c, r[0], E_OK, MsgData(data, 0)); c' == Finish(c1, Req(c, c1)))
            || (er != BLOCKED && c' == c
                && (d' == d || (r == [] && |d.buf| < d.cap && d' == d.(buf := d.buf + [data]))))
  {
  }

  lemma SndDtqOk(g: Config, c: Core, d: Dtq, i: nat, data: int, p: Patience)
    requires Inv(g, c) && DtqInv(c, d, i) && TmoType(p)
    ensures QueueOk(c, RDtqQ(i))
    ensures var (c', d', er) := SndDtq(g, c, d, i, data, p);
            CallOk(g, c, c', {SDtqQ(i)}) && DtqInv(c', d', i)
  {
    WaitersAreWaiting(c, RDtqQ(i));
    SndDtqCases(g, c, d, i, data, p);
    var (c', d', er) := SndDtq(g, c, d, i, data, p);
    if er == BLOCKED {
      BlockOk(g, c, SDtqQ(i), MsgData(data, 0), TimerOf(p));
    } else if c' == c {
      Unchanged(g, c);
    } else {
      ReceiverWokenOk(g, c, d, i, MsgData(data, 0), {SDtqQ(i)});
    }
  }

  lemma ReceiverWokenOk(g: Config, c: Core, d: Dtq, i: nat, w: WData, own: set<WQ>)
    requires Inv(g, c) && DtqInv(c, d, i) && WaitQ(c, RDtqQ(i)) != []
    ensures QueueOk(c, RDtqQ(i))
    ensures var c1 := Wake(g, c, WaitQ(c, RDtqQ(i))[0], E_OK, w); var c' := Finish(c1, Req(c, c1));
            CallOk(g, c, c', own) && DtqInv(c', d, i)
  {
    WakeHeadOk(g, c, RDtqQ(i), w);
    var c1 := Wake(g, c, WaitQ(c, RDtqQ(i))[0], E_OK, w);
    Widen(g, c, Finish(c1, Req(c, c1)), own);
  }

  lemma FsndDtqCases(g: Config, c: Core, d: Dtq, i: nat, data: int)
    requires QueueOk(c, RDtqQ(i)) && |d.buf| <= d.cap
    ensures var (c', d', er) := FsndDtq(g, c, d, i, data); var r := WaitQ(c, RDtqQ(i));
            || (r != [] && d' == d && var c1 := Wake(g, c, r[0], E_OK, MsgData(data, 0)); c' == Finish(c1, Req(c, c1)))
            || (c' == c && (d' == d || (r == [] && d'.cap == d.cap && |d.buf| <= |d'.buf| <= d.cap)))
  {
  }

  lemma FsndDtqOk(g: Config, c: Core, d: Dtq, i: nat, data: int)
    requires Inv(g, c) && DtqInv(c, d, i)
    ensures QueueOk(c, RDtqQ(i))
    ensures var (c', d', er) := FsndDtq(g, c, d, i, data);
            CallOk(g, c, c', {}) && DtqInv(c', d', i)
  {
    hide FsndDtq, Wake;
    WaitersAreWaiting(c, RDtqQ(i));
    FsndDtqCases(g, c, d, i, data);
    Unchanged(g, c);
    if WaitQ(c, RDtqQ(i)) != [] { ReceiverWokenOk(g, c, d, i, MsgData(data, 0), {}); }
  }

  lemma RcvDtqCases(g: Config, c: Core, d: Dtq, i: nat, p: Patience)
    requires RunsTask(c) && QueueOk(c, SDtqQ(i)) && DtqInv(c, d, i)
    ensures var (c', d', er, x) := RcvDtq(g, c, d, i, p); var s := WaitQ(c, SDtqQ(i));
            || (er == BLOCKED && MayBlock(c) && TmoOk(p) && s == [] && d.buf == [] && d' == d
                && c' == Block(g, c, Obj(RDtqQ(i)), NoData, TimerOf(p)))
            || (er == E_OK && s != [] && |d'.buf| == |d.buf| && d'.cap == d.cap
                && var c1 := Wake(g, c, s[0], E_OK, DataOf(c, s[0])); c' == Finish(c1, Req(c, c1)))
            || (er != BLOCKED && c' == c && (d' == d || (s == [] && d.buf != [] && d' == d.(buf := d.buf[1..]))))
  {
  }

  lemma RcvDtqOk(g: Config, c: Core, d: Dtq, i: nat, p: Patience)
    requires Inv(g, c) && DtqInv(c, d, i) && TmoType(p)
    ensures QueueOk(c, SDtqQ(i))
    ensures var (c', d', er, x) := RcvDtq(g, c, d, i, p);
            CallOk(g, c, c', {RDtqQ(i)}) && DtqInv(c', d', i)
  {
    WaitersAreWaiting(c, SDtqQ(i));
    RcvDtqCases(g, c, d, i, p);
    var (c', d', er, x) := RcvDtq(g, c, d, i, p);
    var s := WaitQ(c, SDtqQ(i));
    if er == BLOCKED {
      BlockOk(g, c, RDtqQ(i), NoData, TimerOf(p));
    } else if c' == c {
      Unchanged(g, c);
    } else {
      SenderWokenOk(g, c, d, d', i);
    }
  }

  lemma SenderWokenOk(g: Config, c: Core, d: Dtq, d': Dtq, i: nat)
    requires Inv(g, c) && DtqInv(c, d, i) && WaitQ(c, SDtqQ(i)) != [] && |d'.buf| == |d.buf| && d'.cap == d.cap
    ensures QueueOk(c, SDtqQ(i))
    ensures var t := WaitQ(c, SDtqQ(i))[0]; var c1 := Wake(g, c, t, E_OK, DataOf(c, t));
            var c' := Finish(c1, Req(c, c1));
            CallOk(g, c, c', {RDtqQ(i)}) && DtqInv(c', d', i)
  {
    var t := WaitQ(c, SDtqQ(i))[0];
    WakeHeadOk(g, c, SDtqQ(i), DataOf(c, t));
    var c1 := Wake(g, c, t, E_OK, DataOf(c, t));
    Widen(g, c, Finish(c1, Req(c, c1)), {RDtqQ(i)});
  }

  lemma IniDtqOk(g: Config, c: Core, d: Dtq, i: nat)
    requires Inv(g, c) && DtqInv(c, d, i)
    ensures QueueOk(c, SDtqQ(i)) && QueueOk(WakeAll(g, c, WaitQ(c, SDtqQ(i)), E_DLT).0, RDtqQ(i))
    ensures var (c', d', er) := IniDtq(g, c, d, i);
            CallOk(g, c, c', {}) && DtqInv(c', d', i)
  {
    InitTwoQueuesOk(g, c, SDtqQ(i), RDtqQ(i));
    if !InTask(c) { Unchanged(g, c); }
  }

  // ----- one logical FIFO -----

  lemma {:induction false} MsgsFrame(tcb: seq<TCB>, tcb': seq<TCB>, s: seq<Tid>)
    requires forall k :: 0 <= k < |s| ==> Data(tcb', s[k]) == Data(tcb, s[k])
    ensures Msgs(tcb', s) == Msgs(tcb, s)
  {
    if s != [] { MsgsFrame(tcb, tcb', s[1..]); }
  }

  lemma {:induction false} MsgsConcat(tcb: seq<TCB>, a: seq<Tid>, b: seq<Tid>)
    ensures Msgs(tcb, a + b) == Msgs(tcb, a) + Msgs(tcb, b)
  {
    if a == [] {
      assert a + b == b;
    } else {
      var ab := a + b;
      MsgsConcat(tcb, a[1..], b);
      assert ab[1..] == a[1..] + b && ab[0] == a[0];
      assert Msgs(tcb, ab) == [MsgOf(Data(tcb, a[0]))] + (Msgs(tcb, a[1..]) + Msgs(tcb, b));
      assert Msgs(tcb, a) == [MsgOf(Data(tcb, a[0]))] + Msgs(tcb, a[1..]);
    }
  }

  /** A task inserted into the queue of senders inserts its datum at the same place. */
  lemma MsgsInsert(tcb: seq<TCB>, a: seq<Tid>, t: Tid, b: seq<Tid>)
    ensures Msgs(tcb, a + [t] + b) == Msgs(tcb, a) + [MsgOf(Data(tcb, t))] + Msgs(tcb, b)
  {
    MsgsConcat(tcb, a + [t], b);
    MsgsConcat(tcb, a, [t]);
  }

  /** The first sender takes its datum, the first of the waiting ones, with it. */
  lemma FirstSenderLeaves(g: Config, c: Core, i: nat)
    requires Linked(c.ts) && WaitQ(c, SDtqQ(i)) != []
    ensures QueueOk(c, SDtqQ(i))
    ensures var s := WaitQ(c, SDtqQ(i)); var m := Msgs(c.ts.tcb, s); var c1 := Wake(g, c, s[0], E_OK, DataOf(c, s[0]));
            m[0] == MsgOf(DataOf(c, s[0])) && Msgs(c1.ts.tcb, WaitQ(c1, SDtqQ(i))) == m[1..]
  {
    var s := WaitQ(c, SDtqQ(i));
    WaitersAreWaiting(c, SDtqQ(i));
    WakeHead(g, c, SDtqQ(i), E_OK, DataOf(c, s[0]));
    MsgsFrame(c.ts.tcb, Wake(g, c, s[0], E_OK, DataOf(c, s[0])).ts.tcb, s[1..]);
  }

  /** Receiving takes the first element of the logical queue, whether it comes from the buffer or
      directly from a sender, and leaves the rest in order. */
  lemma ReceiveTakesFirst(g: Config, c: Core, d: Dtq, i: nat)
    requires Inv(g, c) && DtqInv(c, d, i)
    ensures QueueOk(c, SDtqQ(i))
    ensures var (c', d', ok, x, req) := ReceiveData(g, c, d, i); var l := Logical(c, d, i);
            && (ok <==> l != [])
            && (ok ==> x == l[0] && Logical(c', d', i) == l[1..])
            && (!ok ==> c' == c && d' == d)
  {
    hide Sorted, TimersInv, TimeInv, DispInv, Wake;
    WaitersAreWaiting(c, SDtqQ(i));
    if WaitQ(c, SDtqQ(i)) != [] { FirstSenderLeaves(g, c, i); }
  }

  /** Sending appends to the logical queue, or hands the datum to the longest waiting receiver of an
      empty one; it fails only if the buffer is full. */
  lemma SendAppends(g: Config, c: Core, d: Dtq, i: nat, data: int)
    requires Inv(g, c) && DtqInv(c, d, i)
    ensures QueueOk(c, RDtqQ(i))
    ensures var (c', d', ok, req) := SendData(g, c, d, i, data); var r := WaitQ(c, RDtqQ(i));
            && (!ok ==> c' == c && d' == d && |d.buf| == d.cap)
            && (ok && r == [] ==> Logical(c', d', i) == Logical(c, d, i) + [data])
            && (ok && r != [] ==> Logical(c', d', i) == [] && WaitQ(c', RDtqQ(i)) == r[1..]
                                  && IsTask(c', r[0]) && DataOf(c', r[0]) == MsgData(data, 0)
                                  && c'.ts.tcb[r[0]].winfo == Wercd(E_OK))
  {
    hide Sorted, TimersInv, TimeInv, DispInv;
    WaitersAreWaiting(c, RDtqQ(i));
    if WaitQ(c, RDtqQ(i)) != [] { WakeHead(g, c, RDtqQ(i), E_OK, MsgData(data, 0)); }
  }

  /** A sender that has to wait adds its datum to the logical queue: at the end, or, on a TA_TPRI
      queue, among the waiting senders by its priority. */
  lemma WaitingSenderAppends(g: Config, c: Core, d: Dtq, i: nat, data: int, timer: Option<nat>)
    requires Inv(g, c) && DtqInv(c, d, i) && MayBlock(c)
    ensures RunsTask(c)
    ensures var c' := Block(g, c, Obj(SDtqQ(i)), MsgData(data, 0), timer);
            var s, p := WaitQ(c, SDtqQ(i)), SenderPos(g, c, i);
            var before, after := d.buf + Msgs(c.ts.tcb, s[..p]), Msgs(c.ts.tcb, s[p..]);
            Logical(c, d, i) == before + after && Logical(c', d, i) == before + [data] + after
  {
    BlockedSender(g, c, i, data, timer);
    var c' := Block(g, c, Obj(SDtqQ(i)), MsgData(data, 0), timer);
    SendersGrow(d.buf, c.ts.tcb, c'.ts.tcb, WaitQ(c, SDtqQ(i)), SenderPos(g, c, i), c.run.value, data);
  }

  lemma SendersGrow(buf: seq<int>, tcb: seq<TCB>, tcb': seq<TCB>, s: seq<Tid>, p: nat, t: Tid, data: int)
    requires p <= |s| && Data(tcb', t) == MsgData(data, 0)
    requires forall k :: 0 <= k < |s| ==> Data(tcb', s[k]) == Data(tcb, s[k])
    ensures var before, after := buf + Msgs(tcb, s[..p]), Msgs(tcb, s[p..]);
            buf + Msgs(tcb, s) == before + after && buf + Msgs(tcb', s[..p] + [t] + s[p..]) == before + [data] + after
  {
    assert s == s[..p] + s[p..];
    MsgsConcat(tcb, s[..p], s[p..]);
    MsgsInsert(tcb', s[..p], t, s[p..]);
    MsgsFrame(tcb, tcb', s[..p]);
    MsgsFrame(tcb, tcb', s[p..]);
  }

  lemma BlockedSender(g: Config, c: Core, i: nat, data: int, timer: Option<nat>)
    requires Inv(g, c) && MayBlock(c)
    ensures RunsTask(c)
    ensures var c' := Block(g, c, Obj(SDtqQ(i)), MsgData(data, 0), timer);
            var s, p, t := WaitQ(c, SDtqQ(i)), SenderPos(g, c, i), c.run.value;
            && WaitQ(c', SDtqQ(i)) == s[..p] + [t] + s[p..]
            && Data(c'.ts.tcb, t) == MsgData(data, 0)
            && forall k :: 0 <= k < |s| ==> Data(c'.ts.tcb, s[k]) == Data(c.ts.tcb, s[k])
  {
    BlockQueues(g, c, SDtqQ(i), MsgData(data, 0), timer);
    var c' := Block(g, c, Obj(SDtqQ(i)), MsgData(data, 0), timer);
    WaitersAreWaiting(c, SDtqQ(i));
    SendersKeep(c, c', i);
    PriPosFrame(c.ts.tcb, c'.ts.tcb, WaitQ(c, SDtqQ(i)), Prio(c.ts.tcb, c.run.value));
  }

  lemma SendersKeep(c: Core, c': Core, i: nat)
    requires c.run.Some? && QueueOk(c, SDtqQ(i)) && |c'.ts.tcb| == |c.ts.tcb| && c.run.value !in WaitQ(c, SDtqQ(i))
    requires forall u: Tid :: IsTask(c, u) && u != c.run.value ==> c'.ts.tcb[u] == c.ts.tcb[u]
    ensures var s := WaitQ(c, SDtqQ(i));
            forall k :: 0 <= k < |s| ==>
              Data(c'.ts.tcb, s[k]) == Data(c.ts.tcb, s[k]) && Prio(c'.ts.tcb, s[k]) == Prio(c.ts.tcb, s[k])
  {
    var s := WaitQ(c, SDtqQ(i));
    forall k | 0 <= k < |s| ensures s[k] != c.run.value { assert s[k] in s; }
  }

  /** The place of the running task among the waiting senders. */
  function SenderPos(g: Config, c: Core, i: nat): (p: nat)
    requires c.run.Some?
    ensures p <= |WaitQ(c, SDtqQ(i))|
  {
    if Tpri(g, SDtqQ(i)) then PriPos(c.ts.tcb, WaitQ(c, SDtqQ(i)), Prio(c.ts.tcb, c.run.value))
    else |WaitQ(c, SDtqQ(i))|
  }

  lemma {:induction false} PriPosFrame(tcb: seq<TCB>, tcb': seq<TCB>, s: seq<Tid>, pri: nat)
    requires forall k :: 0 <= k < |s| ==> Prio(tcb', s[k]) == Prio(tcb, s[k])
    ensures PriPos(tcb', s, pri) == PriPos(tcb, s, pri)
  {
    if s != [] { PriPosFrame(tcb, tcb', s[1..], pri); }
  }

  /** Forced sending never fails and never waits: it appends to the buffered data, and drops the
      oldest of them if and only if the buffer is full.  The data of waiting senders stay behind. */
  lemma ForcedSendDropsOldest(g: Config, c: Core, d: Dtq, i: nat, data: int)
    requires Inv(g, c) && DtqInv(c, d, i) && d.cap > 0
    ensures QueueOk(c, RDtqQ(i))
    ensures var (c', d', req) := ForceSendData(g, c, d, i, data); var m := Msgs(c.ts.tcb, WaitQ(c, SDtqQ(i)));
            && (WaitQ(c, RDtqQ(i)) == [] && |d.buf| < d.cap ==> Logical(c', d', i) == Logical(c, d, i) + [data])
            && (WaitQ(c, RDtqQ(i)) == [] && |d.buf| == d.cap ==> Logical(c', d', i) == d.buf[1..] + [data] + m)
            && (WaitQ(c, RDtqQ(i)) != [] ==>
                  d' == d && Logical(c', d', i) == [] && DataOf(c', WaitQ(c, RDtqQ(i))[0]) == MsgData(data, 0))
  {
    WaitersAreWaiting(c, RDtqQ(i));
    if WaitQ(c, RDtqQ(i)) != [] { WakeHead(g, c, RDtqQ(i), E_OK, MsgData(data, 0)); }
  }
}
