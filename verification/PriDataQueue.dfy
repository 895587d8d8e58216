/** Priority data queues (kernel/pridataq.c). */
module PriDataQueue {
  import opened Types
  import opened Seqs
  import opened TaskQueues
  import opened Core
  import opened CoreProofs
  import opened TaskCalls
  import opened TaskCallProofs
  import opened WaitQueues

  datatype Msg = Msg(data: int, pri: int)

  /** The buffered messages in the order of their arrival, and the capacity.  Class PriDataBuffer
      keeps them as a linked list sorted by priority. */
  datatype Pdq = Pdq(arr: seq<Msg>, cap: nat, maxdpri: int)

  // ----- the message to deliver -----

  /** The earliest of the messages of the best priority. */
  function Best(a: seq<Msg>): (k: nat)
    requires a != []
    ensures k < |a|
    ensures forall j :: 0 <= j < k ==> a[k].pri < a[j].pri
    ensures forall j :: 0 <= j < |a| ==> a[k].pri <= a[j].pri
  {
    if |a| == 1 then 0
    else
      var k := Best(a[..|a| - 1]);
      if a[k].pri <= a[|a| - 1].pri then k else |a| - 1
  }

  function Without(a: seq<Msg>, k: nat): seq<Msg>
    requires k < |a|
  {
    a[..k] + a[k + 1..]
  }

  /** Position of a message in the sorted list: behind all of at least its priority. */
  function MsgPos(s: seq<Msg>, pri: int): (k: nat)
    ensures k <= |s|
  {
    if s == [] || s[0].pri > pri then 0 else 1 + MsgPos(s[1..], pri)
  }

  function InsertMsg(s: seq<Msg>, m: Msg): seq<Msg> {
    s[..MsgPos(s, m.pri)] + [m] + s[MsgPos(s, m.pri)..]
  }

  /** The stable sort by priority, as insertion in the order of arrival. */
  function StableSort(a: seq<Msg>): (s: seq<Msg>)
    ensures |s| == |a|
  {
    if a == [] then [] else InsertMsg(StableSort(a[..|a| - 1]), a[|a| - 1])
  }

  lemma InsertBehindHead(s: seq<Msg>, m: Msg)
    requires s != [] && s[0].pri <= m.pri
    ensures InsertMsg(s, m) == [s[0]] + InsertMsg(s[1..], m)
  {
    var k := MsgPos(s[1..], m.pri);
    assert s[..k + 1] == [s[0]] + s[1..][..k];
    assert s[k + 1..] == s[1..][k..];
  }

  lemma SortSnoc(p: seq<Msg>, m: Msg)
    ensures StableSort(p + [m]) == InsertMsg(StableSort(p), m)
  {
    assert (p + [m])[..|p|] == p;
  }

  lemma BestSnoc(p: seq<Msg>, m: Msg)
    requires p != []
    ensures Best(p + [m]) == if p[Best(p)].pri <= m.pri then Best(p) else |p|
  {
    assert (p + [m])[..|p|] == p;
  }

  /** A message behind the best one is sorted into the rest of the list. */
  lemma BestStays(p: seq<Msg>, m: Msg, s: seq<Msg>)
    requires p != [] && s != [] && s[0] == p[Best(p)] && s[0].pri <= m.pri
    requires s[1..] == StableSort(Without(p, Best(p)))
    ensures InsertMsg(s, m)[0] == s[0]
    ensures InsertMsg(s, m)[1..] == StableSort(Without(p + [m], Best(p)))
  {
    InsertBehindHead(s, m);
    assert Without(p + [m], Best(p)) == Without(p, Best(p)) + [m];
    SortSnoc(Without(p, Best(p)), m);
  }

  /** The head of the sorted list is the earliest message of the best priority, and the rest of the
      list is the stable sort of the other messages. */
  lemma {:induction false} HeadIsBest(a: seq<Msg>)
    requires a != []
    ensures StableSort(a)[0] == a[Best(a)]
    ensures StableSort(a)[1..] == StableSort(Without(a, Best(a)))
    decreases |a|
  {
    var p, m := a[..|a| - 1], a[|a| - 1];
    assert a == p + [m];
    SortSnoc(p, m);
    var s := StableSort(p);
    if p == [] {
      assert a == [m] && Without(a, 0) == [];
    } else {
      HeadIsBest(p);
      BestSnoc(p, m);
      if s[0].pri <= m.pri {
        BestStays(p, m, s);
      } else {
        assert InsertMsg(s, m) == [m] + s;
        assert Without(a, |p|) == p;
      }
    }
  }

  // ----- transitions -----

  function MsgIn(d: WData): Msg { if d.MsgData? then Msg(d.data, d.datapri) else Msg(0, 0) }

  function ToData(m: Msg): WData { MsgData(m.data, m.pri) }

  function SendPridata(g: Config, c: Core, d: Pdq, i: nat, m: Msg): (Core, Pdq, bool, bool)
    requires QueueOk(c, RPdqQ(i))
  {
    if WaitQ(c, RPdqQ(i)) != [] then
      var c1 := Wake(g, c, WaitQ(c, RPdqQ(i))[0], E_OK, ToData(m));
      (c1, d, true, Req(c, c1))
    else if |d.arr| < d.cap then (c, d.(arr := d.arr + [m]), true, false)
    else (c, d, false, false)
  }

  /** The last three components: success, the message, the dispatch request. */
  function ReceivePridata(g: Config, c: Core, d: Pdq, i: nat): (Core, Pdq, bool, Msg, bool)
    requires QueueOk(c, SPdqQ(i))
  {
    var s := WaitQ(c, SPdqQ(i));
    if d.arr != [] && s == [] then (c, d.(arr := Without(d.arr, Best(d.arr))), true, d.arr[Best(d.arr)], false)
    else if s != [] then
      var c1 := Wake(g, c, s[0], E_OK, DataOf(c, s[0]));
      var m := MsgIn(DataOf(c, s[0]));
      if d.arr != [] then (c1, d.(arr := Without(d.arr, Best(d.arr)) + [m]), true, d.arr[Best(d.arr)], Req(c, c1))
      else (c1, d, true, m, Req(c, c1))
    else (c, d, false, Msg(0, 0), false)
  }

  /** snd_pdq, tsnd_pdq, psnd_pdq, ipsnd_pdq.  TMIN_DPRI is 1. */
  function SndPdq(g: Config, c: Core, d: Pdq, i: nat, m: Msg, p: Patience): (Core, Pdq, ER)
    requires QueueOk(c, RPdqQ(i)) && RunsTask(c)
  {
    if !(if p.Polling? then Live(c) else MayBlock(c)) then (c, d, E_CTX)
    else if !TmoOk(p) || !(1 <= m.pri <= d.maxdpri) then (c, d, E_PAR)
    else
      var (c1, d1, ok, req) := SendPridata(g, c, d, i, m);
      if ok then (Finish(c1, req), d1, E_OK)
      else if p.Polling? || p.tmo == TMO_POL then (c, d, E_TMOUT)
      else (Block(g, c, Obj(SPdqQ(i)), ToData(m), TimerOf(p)), d, BLOCKED)
  }

  /** rcv_pdq, trcv_pdq, prcv_pdq. */
  function RcvPdq(g: Config, c: Core, d: Pdq, i: nat, p: Patience): (Core, Pdq, ER, Msg)
    requires QueueOk(c, SPdqQ(i)) && RunsTask(c)
  {
    if !(if p.Polling? then InTask(c) else MayBlock(c)) then (c, d, E_CTX, Msg(0, 0))
    else if !TmoOk(p) then (c, d, E_PAR, Msg(0, 0))
    else
      var (c1, d1, ok, m, req) := ReceivePridata(g, c, d, i);
      if ok then (Finish(c1, req), d1, E_OK, m)
      else if p.Polling? || p.tmo == TMO_POL then (c, d, E_TMOUT, Msg(0, 0))
      else (Block(g, c, Obj(RPdqQ(i)), NoData, TimerOf(p)), d, BLOCKED, Msg(0, 0))
  }

  function IniPdq(g: Config, c: Core, d: Pdq, i: nat): (Core, Pdq, ER)
    requires QueueOk(c, SPdqQ(i)) && QueueOk(WakeAll(g, c, WaitQ(c, SPdqQ(i)), E_DLT).0, RPdqQ(i))
  {
    if !InTask(c) then (c, d, E_CTX)
    else
      var (c1, req1) := WakeAll(g, c, WaitQ(c, SPdqQ(i)), E_DLT);
      var (c2, req2) := WakeAll(g, c1, WaitQ(c1, RPdqQ(i)), E_DLT);
      (Finish(c2, req1 || req2), d.(arr := []), E_OK)
  }

  // ----- invariant -----

  predicate Balanced(receivers: seq<Tid>, senders: seq<Tid>, d: Pdq) {
    && |d.arr| <= d.cap
    && (receivers != [] ==> d.arr == [] && senders == [])
    && (senders != [] ==> |d.arr| == d.cap)
  }

  /** Receivers wait only while there is nothing to receive, senders only while the buffer is full. */
  ghost predicate PdqInv(c: Core, d: Pdq, i: nat) {
    Balanced(WaitQ(c, RPdqQ(i)), WaitQ(c, SPdqQ(i)), d)
  }

  lemma PdqRely(c: Core, c': Core, own: set<WQ>, d: Pdq, i: nat)
    requires PdqInv(c, d, i) && Linked(c.ts) && Linked(c'.ts)
    requires Rely(c.ts.tcb, c'.ts.tcb, own) && SPdqQ(i) !in own && RPdqQ(i) !in own
    ensures PdqInv(c', d, i)
  {
    if WaitQ(c, RPdqQ(i)) == [] { RelyEmpty(c, c', own, RPdqQ(i)); }
    if WaitQ(c, SPdqQ(i)) == [] { RelyEmpty(c, c', own, SPdqQ(i)); }
  }

  lemma SndPdqCases(g: Config, c: Core, d: Pdq, i: nat, m: Msg, p: Patience)
    requires RunsTask(c) && QueueOk(c, RPdqQ(i)) && PdqInv(c, d, i)
    ensures var (c', d', er) := SndPdq(g, c, d, i, m, p); var r := WaitQ(c, RPdqQ(i));
            || (er == BLOCKED && MayBlock(c) && TmoOk(p) && r == [] && |d.arr| == d.cap && d' == d
                && c' == Block(g, c, Obj(SPdqQ(i)), ToData(m), TimerOf(p)))
            || (er == E_OK && r != [] && d' == d
                && var c1 := Wake(g, c, r[0], E_OK, ToData(m)); c' == Finish(c1, Req(c, c1)))
            || (er != BLOCKED && c' == c && (d' == d || (r == [] && |d.arr| < d.cap && d' == d.(arr := d.arr + [m]))))
  {
  }

  lemma SndPdqOk(g: Config, c: Core, d: Pdq, i: nat, m: Msg, p: Patience)
    requires Inv(g, c) && PdqInv(c, d, i) && TmoType(p)
    ensures QueueOk(c, RPdqQ(i))
    ensures var (c', d', er) := SndPdq(g, c, d, i, m, p);
            CallOk(g, c, c', {SPdqQ(i)}) && PdqInv(c', d', i)
  {
    WaitersAreWaiting(c, RPdqQ(i));
    SndPdqCases(g, c, d, i, m, p);
    var (c', d', er) := SndPdq(g, c, d, i, m, p);
    if er == BLOCKED {
      BlockOk(g, c, SPdqQ(i), ToData(m), TimerOf(p));
    } else if c' == c {
      Unchanged(g, c);
    } else {
      ReceiverWokenOk(g, c, d, i, ToData(m));
    }
  }

  lemma ReceiverWokenOk(g: Config, c: Core, d: Pdq, i: nat, w: WData)
    requires Inv(g, c) && PdqInv(c, d, i) && WaitQ(c, RPdqQ(i)) != []
    ensures QueueOk(c, RPdqQ(i))
    ensures var c1 := Wake(g, c, WaitQ(c, RPdqQ(i))[0], E_OK, w); var c' := Finish(c1, Req(c, c1));
            CallOk(g, c, c', {SPdqQ(i)}) && PdqInv(c', d, i)
  {
    WakeHeadOk(g, c, RPdqQ(i), w);
    var c1 := Wake(g, c, WaitQ(c, RPdqQ(i))[0], E_OK, w);
    Widen(g, c, Finish(c1, Req(c, c1)), {SPdqQ(i)});
  }

  lemma RcvPdqCases(g: Config, c: Core, d: Pdq, i: nat, p: Patience)
    requires RunsTask(c) && QueueOk(c, SPdqQ(i)) && PdqInv(c, d, i)
    ensures var (c', d', er, m) := RcvPdq(g, c, d, i, p); var s := WaitQ(c, SPdqQ(i));
            || (er == BLOCKED && MayBlock(c) && TmoOk(p) && s == [] && d.arr == [] && d' == d
                && c' == Block(g, c, Obj(RPdqQ(i)), NoData, TimerOf(p)))
            || (er == E_OK && s != [] && |d'.arr| == |d.arr| && d'.cap == d.cap
                && var c1 := Wake(g, c, s[0], E_OK, DataOf(c, s[0])); c' == Finish(c1, Req(c, c1)))
            || (er != BLOCKED && c' == c
                && (d' == d || (s == [] && d.arr != [] && |d'.arr| < |d.arr| && d'.cap == d.cap)))
  {
  }

  lemma RcvPdqOk(g: Config, c: Core, d: Pdq, i: nat, p: Patience)
    requires Inv(g, c) && PdqInv(c, d, i) && TmoType(p)
    ensures QueueOk(c, SPdqQ(i))
    ensures var (c', d', er, m) := RcvPdq(g, c, d, i, p);
            CallOk(g, c, c', {RPdqQ(i)}) && PdqInv(c', d', i)
  {
    WaitersAreWaiting(c, SPdqQ(i));
    RcvPdqCases(g, c, d, i, p);
    var (c', d', er, m) := RcvPdq(g, c, d, i, p);
    if er == BLOCKED {
      BlockOk(g, c, RPdqQ(i), NoData, TimerOf(p));
    } else if c' == c {
      PdqLess(c, d, d', i);
      Unchanged(g, c);
    } else {
      SenderWokenOk(g, c, d, d', i);
    }
  }

  lemma PdqLess(c: Core, d: Pdq, d': Pdq, i: nat)
    requires PdqInv(c, d, i)
    requires d' == d || (WaitQ(c, SPdqQ(i)) == [] && d.arr != [] && |d'.arr| < |d.arr| && d'.cap == d.cap)
    ensures PdqInv(c, d', i)
  {
  }

  lemma SenderWokenOk(g: Config, c: Core, d: Pdq, d': Pdq, i: nat)
    requires Inv(g, c) && PdqInv(c, d, i) && WaitQ(c, SPdqQ(i)) != [] && |d'.arr| == |d.arr| && d'.cap == d.cap
    ensures QueueOk(c, SPdqQ(i))
    ensures var t := WaitQ(c, SPdqQ(i))[0]; var c1 := Wake(g, c, t, E_OK, DataOf(c, t));
            var c' := Finish(c1, Req(c, c1));
            CallOk(g, c, c', {RPdqQ(i)}) && PdqInv(c', d', i)
  {
    var t := WaitQ(c, SPdqQ(i))[0];
    WakeHeadOk(g, c, SPdqQ(i), DataOf(c, t));
    var c1 := Wake(g, c, t, E_OK, DataOf(c, t));
    Widen(g, c, Finish(c1, Req(c, c1)), {RPdqQ(i)});
  }

  lemma IniPdqOk(g: Config, c: Core, d: Pdq, i: nat)
    requires Inv(g, c) && PdqInv(c, d, i)
    ensures QueueOk(c, SPdqQ(i)) && QueueOk(WakeAll(g, c, WaitQ(c, SPdqQ(i)), E_DLT).0, RPdqQ(i))
    ensures var (c', d', er) := IniPdq(g, c, d, i);
            CallOk(g, c, c', {}) && PdqInv(c', d', i)
  {
    InitTwoQueuesOk(g, c, SPdqQ(i), RPdqQ(i));
    if !InTask(c) { Unchanged(g, c); }
  }
}
