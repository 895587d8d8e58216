/** What the service calls on synchronisation objects do with the tasks, told by what can be observed: who
    gets what he asks for, who waits, for how long, and who wakes up. */
module ObjectEffects {
  import opened Types
  import opened Seqs
  import opened TaskQueues
  import opened SystemClock
  import opened Core
  import opened CoreProofs
  import opened TaskCalls
  import opened TaskCallProofs
  import opened TaskEffects
  import opened WaitQueues
  import opened Semaphore
  import opened EventFlag
  import D = DataQueue
  import P = PriDataQueue
  import opened MemoryPool

  /** Who may call: the polling form any task, the others a task that may wait. */
  predicate MayAsk(c: Core, p: Patience) { if p.Polling? then InTask(c) else MayBlock(c) }

  /** As MayAsk, for calls whose polling form interrupt handlers have as well. */
  predicate MaySend(c: Core, p: Patience) { if p.Polling? then Live(c) else MayBlock(c) }

  /** The first task of the queue wakes up with d. */
  ghost predicate HeadEnds(c: Core, c': Core, wq: WQ, d: WData) {
    WaitQ(c, wq) != [] && Ends(c, c', WaitQ(c, wq)[0], E_OK, d)
  }

  lemma WakesHead(g: Config, c: Core, wq: WQ, d: WData)
    requires Inv(g, c) && WaitQ(c, wq) != []
    ensures QueueOk(c, wq)
    ensures var c1 := Wake(g, c, WaitQ(c, wq)[0], E_OK, d); HeadEnds(c, Finish(c1, Req(c, c1)), wq, d)
  {
    hide Good, DispInv, Ends, Wake;
    HasQueue(g, c, wq);
    HeadWaits(g, c, wq);
    WakeEnds(g, c, WaitQ(c, wq)[0], E_OK, d);
  }

  lemma HeadWaits(g: Config, c: Core, wq: WQ)
    requires Inv(g, c) && WaitQ(c, wq) != []
    ensures WaitQ(c, wq)[0] < |c.ts.tcb| && c.ts.tcb[WaitQ(c, wq)[0]].tstat.Waiting?
  {
    WaitersAreWaiting(c, wq);
    assert WaitQ(c, wq)[0] in WaitQ(c, wq);
  }

  // ----- semaphores -----

  /** The first waiting task gets the resource; without one it is counted, up to the maximum. */
  lemma SigSemDoes(g: Config, c: Core, s: Sem, i: nat)
    requires Inv(g, c) && Live(c)
    ensures QueueOk(c, SemQ(i))
    ensures var (c', s', er) := SigSem(g, c, s, i);
            if WaitQ(c, SemQ(i)) != [] then
              er == E_OK && s'.cnt == s.cnt && HeadEnds(c, c', SemQ(i), DataOf(c, WaitQ(c, SemQ(i))[0]))
            else c' == c && if s.cnt < s.max then er == E_OK && s'.cnt == s.cnt + 1 else er == E_QOVR && s' == s
  {
    hide Good, DispInv, HeadEnds, Wake;
    HasQueue(g, c, SemQ(i));
    if WaitQ(c, SemQ(i)) != [] { WakesHead(g, c, SemQ(i), DataOf(c, WaitQ(c, SemQ(i))[0])); }
  }

  lemma WaiSemDoes(g: Config, c: Core, s: Sem, i: nat, p: Patience)
    requires Inv(g, c) && TmoType(p)
    ensures RunsTask(c)
    ensures var (c', s', er) := WaiSem(g, c, s, i, p);
            && er == Outcome(MayAsk(c, p), p, s.cnt > 0)
            && (er != BLOCKED ==> c' == c)
            && (er == BLOCKED ==> Sleeps(g, c, c', Obj(SemQ(i)), NoData, p.tmo))
            && s'.cnt == if er == E_OK then s.cnt - 1 else s.cnt
  {
    hide Good, DispInv, Block, Sleeps;
    HasRun(g, c);
    if MayBlock(c) && p.Tmo? { BlockSleeps(g, c, Obj(SemQ(i)), NoData, p); }
  }

  /** All tasks of the queue wake up with E_DLT, and no others. */
  ghost predicate AllEnd(c: Core, c': Core, q: seq<Tid>) {
    && |c'.ts.tcb| == |c.ts.tcb|
    && forall t :: 0 <= t < |c.ts.tcb| ==>
         if t !in q then c'.ts.tcb[t] == c.ts.tcb[t]
         else
           && TaskBlk(t) !in c'.tm && c.ts.tcb[t].tstat.Waiting?
           && c'.ts.tcb[t] == c.ts.tcb[t].(tstat := if c.ts.tcb[t].tstat.susp then Suspended else Runnable,
                                           winfo := Wercd(E_DLT))
  }

  lemma WakesAll(g: Config, c: Core, wq: WQ)
    requires Inv(g, c)
    ensures QueueOk(c, wq)
    ensures var (c1, req) := WakeAll(g, c, WaitQ(c, wq), E_DLT);
            AllEnd(c, Finish(c1, req), WaitQ(c, wq)) && WaitQ(Finish(c1, req), wq) == []
  {
    hide Sorted, CycTimers, AlmTimers, TimeInv, DispInv, WakeAll;
    WaitersAreWaiting(c, wq);
    InitWaitQueueOk(g, c, wq);
    WakeAllTasks(g, c, WaitQ(c, wq), E_DLT);
  }

  lemma IniSemDoes(g: Config, c: Core, s: Sem, i: nat)
    requires Inv(g, c) && InTask(c)
    ensures QueueOk(c, SemQ(i))
    ensures var (c', s', er) := IniSem(g, c, s, i);
            er == E_OK && s'.cnt == s.init && AllEnd(c, c', WaitQ(c, SemQ(i))) && WaitQ(c', SemQ(i)) == []
  {
    hide Inv, AllEnd, WakeAll, Finish;
    WakesAll(g, c, SemQ(i));
  }

  // ----- event flags -----

  /** A second waiter is refused unless the flag has the attribute TA_WMUL; who is let through gets the
      pattern, which TA_CLR then clears. */
  lemma WaiFlgDoes(g: Config, c: Core, f: Flg, i: nat, waiptn: bv32, orw: bool, p: Patience)
    requires Inv(g, c) && TmoType(p)
    ensures RunsTask(c)
    ensures var (c', f', er, ptn) := WaiFlg(g, c, f, i, waiptn, orw, p); var may := MayAsk(c, p);
            && er == (if may && waiptn == 0 then E_PAR
                      else if may && TmoOk(p) && !f.wmul && WaitQ(c, FlgQ(i)) != [] then E_ILUSE
                      else Outcome(may, p, Cond(f.ptn, waiptn, orw)))
            && (er != BLOCKED ==> c' == c)
            && (er == BLOCKED ==> Sleeps(g, c, c', Obj(FlgQ(i)), FlgData(waiptn, orw, 0), p.tmo))
            && (er == E_OK ==> ptn == f.ptn && f'.ptn == if f.clr then 0 else f.ptn)
            && (er != E_OK ==> f' == f)
  {
    hide Good, DispInv, Block, Sleeps, Cond;
    HasRun(g, c);
    if MayBlock(c) && p.Tmo? { BlockSleeps(g, c, Obj(FlgQ(i)), FlgData(waiptn, orw, 0), p); }
  }

  /** The initial pattern comes back. */
  lemma IniFlgDoes(g: Config, c: Core, f: Flg, i: nat)
    requires Inv(g, c) && InTask(c)
    ensures QueueOk(c, FlgQ(i))
    ensures var (c', f', er) := IniFlg(g, c, f, i);
            er == E_OK && f'.ptn == f.init && AllEnd(c, c', WaitQ(c, FlgQ(i))) && WaitQ(c', FlgQ(i)) == []
  {
    hide Inv, AllEnd, WakeAll, Finish;
    WakesAll(g, c, FlgQ(i));
  }

  // ----- data queues -----

  lemma SndDtqDoes(g: Config, c: Core, d: D.Dtq, i: nat, x: int, p: Patience)
    requires Inv(g, c) && D.DtqInv(c, d, i) && TmoType(p)
    ensures RunsTask(c) && QueueOk(c, RDtqQ(i))
    ensures var (c', d', er) := D.SndDtq(g, c, d, i, x, p); var handed := WaitQ(c, RDtqQ(i)) != [];
            && er == Outcome(MaySend(c, p), p, handed || |d.buf| < d.cap)
            && (er == E_OK && handed ==> HeadEnds(c, c', RDtqQ(i), MsgData(x, 0)))
            && (er == BLOCKED ==> Sleeps(g, c, c', Obj(SDtqQ(i)), MsgData(x, 0), p.tmo))
            && (er != BLOCKED && !(er == E_OK && handed) ==> c' == c)
            && d' == if er == E_OK && !handed then d.(buf := d.buf + [x]) else d
  {
    hide Good, DispInv, Block, Sleeps, HeadEnds, Wake;
    HasQueue(g, c, RDtqQ(i));
    if WaitQ(c, RDtqQ(i)) != [] { WakesHead(g, c, RDtqQ(i), MsgData(x, 0)); }
    if MayBlock(c) && p.Tmo? { BlockSleeps(g, c, Obj(SDtqQ(i)), MsgData(x, 0), p); }
  }

  lemma FsndDtqDoes(g: Config, c: Core, d: D.Dtq, i: nat, x: int)
    requires Inv(g, c) && D.DtqInv(c, d, i) && Live(c)
    ensures QueueOk(c, RDtqQ(i)) && |d.buf| <= d.cap
    ensures var (c', d', er) := D.FsndDtq(g, c, d, i, x);
            if d.cap == 0 then er == E_ILUSE && c' == c && d' == d
            else if WaitQ(c, RDtqQ(i)) != [] then er == E_OK && HeadEnds(c, c', RDtqQ(i), MsgData(x, 0)) && d' == d
            else
              && er == E_OK && c' == c && d'.cap == d.cap
              && d'.buf == (if |d.buf| == d.cap then d.buf[1..] else d.buf) + [x]
  {
    hide Good, DispInv, HeadEnds, Wake;
    HasQueue(g, c, RDtqQ(i));
    if WaitQ(c, RDtqQ(i)) != [] { WakesHead(g, c, RDtqQ(i), MsgData(x, 0)); }
  }

  lemma RcvDtqDoes(g: Config, c: Core, d: D.Dtq, i: nat, p: Patience)
    requires Inv(g, c) && D.DtqInv(c, d, i) && TmoType(p)
    ensures RunsTask(c) && QueueOk(c, SDtqQ(i))
    ensures var (c', d', er, x) := D.RcvDtq(g, c, d, i, p); var s := WaitQ(c, SDtqQ(i));
            && er == Outcome(MayAsk(c, p), p, s != [] || d.buf != [])
            && (er == E_OK && s != [] ==> HeadEnds(c, c', SDtqQ(i), DataOf(c, s[0])))
            && (er == BLOCKED ==> Sleeps(g, c, c', Obj(RDtqQ(i)), NoData, p.tmo))
            && (er != BLOCKED && !(er == E_OK && s != []) ==> c' == c)
            && (er != E_OK ==> d' == d)
  {
    hide Good, DispInv, Block, Sleeps, HeadEnds, Wake;
    HasQueue(g, c, SDtqQ(i));
    if WaitQ(c, SDtqQ(i)) != [] { WakesHead(g, c, SDtqQ(i), DataOf(c, WaitQ(c, SDtqQ(i))[0])); }
    if MayBlock(c) && p.Tmo? { BlockSleeps(g, c, Obj(RDtqQ(i)), NoData, p); }
  }

  lemma WakesTwo(g: Config, c: Core, sq: WQ, rq: WQ)
    requires Inv(g, c) && sq != rq
    ensures QueueOk(c, sq) && QueueOk(WakeAll(g, c, WaitQ(c, sq), E_DLT).0, rq)
    ensures var (c1, req1) := WakeAll(g, c, WaitQ(c, sq), E_DLT);
            var (c2, req2) := WakeAll(g, c1, WaitQ(c1, rq), E_DLT);
            && AllEnd(c, Finish(c2, req1 || req2), WaitQ(c, sq) + WaitQ(c, rq))
            && WaitQ(Finish(c2, req1 || req2), sq) == [] && WaitQ(Finish(c2, req1 || req2), rq) == []
  {
    hide Sorted, CycTimers, AlmTimers, TimeInv, DispInv, WakeAll, NoDup;
    InitTwoQueuesOk(g, c, sq, rq);
    InitWaitQueueOk(g, c, sq);
    WaitersAreWaiting(c, sq);
    WaitersAreWaiting(c, rq);
    WakeAllTasks(g, c, WaitQ(c, sq), E_DLT);
    var c1 := WakeAll(g, c, WaitQ(c, sq), E_DLT).0;
    WaitersAreWaiting(c1, rq);
    WakeAllTasks(g, c1, WaitQ(c1, rq), E_DLT);
    OtherQueueSame(g, c, sq, rq);
  }

  lemma OtherQueueSame(g: Config, c: Core, sq: WQ, rq: WQ)
    requires Inv(g, c) && sq != rq
    ensures QueueOk(c, sq)
    ensures forall t: Tid :: t in WaitQ(WakeAll(g, c, WaitQ(c, sq), E_DLT).0, rq) <==> t in WaitQ(c, rq)
  {
    hide Sorted, TimersInv, TimeInv, DispInv, WakeAll, NoDup;
    InitWaitQueueOk(g, c, sq);
    WaitersAreWaiting(c, sq);
    WaitersAreWaiting(c, rq);
    WakeAllTasks(g, c, WaitQ(c, sq), E_DLT);
    var c1 := WakeAll(g, c, WaitQ(c, sq), E_DLT).0;
    WaitersAreWaiting(c1, rq);
    forall t: Tid ensures t in WaitQ(c1, rq) <==> t in WaitQ(c, rq) {
      if IsTask(c, t) && t !in WaitQ(c, sq) { assert c1.ts.tcb[t] == c.ts.tcb[t]; }
    }
  }

  /** The buffer is empty again, and all senders and receivers wake up. */
  lemma IniDtqDoes(g: Config, c: Core, d: D.Dtq, i: nat)
    requires Inv(g, c) && InTask(c)
    ensures QueueOk(c, SDtqQ(i)) && QueueOk(WakeAll(g, c, WaitQ(c, SDtqQ(i)), E_DLT).0, RDtqQ(i))
    ensures var (c', d', er) := D.IniDtq(g, c, d, i);
            && er == E_OK && d'.buf == [] && AllEnd(c, c', WaitQ(c, SDtqQ(i)) + WaitQ(c, RDtqQ(i)))
            && WaitQ(c', SDtqQ(i)) == [] && WaitQ(c', RDtqQ(i)) == []
  {
    hide Inv, AllEnd, WakeAll, Finish;
    WakesTwo(g, c, SDtqQ(i), RDtqQ(i));
  }

  // ----- priority data queues -----

  lemma IniPdqDoes(g: Config, c: Core, d: P.Pdq, i: nat)
    requires Inv(g, c) && InTask(c)
    ensures QueueOk(c, SPdqQ(i)) && QueueOk(WakeAll(g, c, WaitQ(c, SPdqQ(i)), E_DLT).0, RPdqQ(i))
    ensures var (c', d', er) := P.IniPdq(g, c, d, i);
            && er == E_OK && d'.arr == [] && AllEnd(c, c', WaitQ(c, SPdqQ(i)) + WaitQ(c, RPdqQ(i)))
            && WaitQ(c', SPdqQ(i)) == [] && WaitQ(c', RPdqQ(i)) == []
  {
    hide Inv, AllEnd, WakeAll, Finish;
    WakesTwo(g, c, SPdqQ(i), RPdqQ(i));
  }

  lemma SndPdqDoes(g: Config, c: Core, d: P.Pdq, i: nat, m: P.Msg, p: Patience)
    requires Inv(g, c) && P.PdqInv(c, d, i) && TmoType(p)
    ensures RunsTask(c) && QueueOk(c, RPdqQ(i))
    ensures var (c', d', er) := P.SndPdq(g, c, d, i, m, p); var handed := WaitQ(c, RPdqQ(i)) != [];
            && er == (if MaySend(c, p) && !(1 <= m.pri <= d.maxdpri) then E_PAR
                      else Outcome(MaySend(c, p), p, handed || |d.arr| < d.cap))
            && (er == E_OK && handed ==> HeadEnds(c, c', RPdqQ(i), MsgData(m.data, m.pri)))
            && (er == BLOCKED ==> Sleeps(g, c, c', Obj(SPdqQ(i)), MsgData(m.data, m.pri), p.tmo))
            && (er != BLOCKED && !(er == E_OK && handed) ==> c' == c)
            && d' == if er == E_OK && !handed then d.(arr := d.arr + [m]) else d
  {
    hide Good, DispInv, Block, Sleeps, HeadEnds, Wake;
    HasQueue(g, c, RPdqQ(i));
    if WaitQ(c, RPdqQ(i)) != [] { WakesHead(g, c, RPdqQ(i), MsgData(m.data, m.pri)); }
    if MayBlock(c) && p.Tmo? { BlockSleeps(g, c, Obj(SPdqQ(i)), MsgData(m.data, m.pri), p); }
  }

  /** m is the earliest of the messages of the best priority in a, and r are the others in their order. */
  ghost predicate Best(a: seq<P.Msg>, m: P.Msg, r: seq<P.Msg>, k: nat) {
    && k < |a| && a[k] == m && r == a[..k] + a[k + 1..]
    && (forall j :: 0 <= j < |a| ==> m.pri <= a[j].pri) && forall j :: 0 <= j < k ==> m.pri < a[j].pri
  }

  /** A receiver gets the best message of the buffer, which the first waiting sender fills up; if the buffer is
      empty, it gets that of this sender. */
  lemma RcvPdqDoes(g: Config, c: Core, d: P.Pdq, i: nat, p: Patience)
    requires Inv(g, c) && P.PdqInv(c, d, i) && TmoType(p)
    ensures RunsTask(c) && QueueOk(c, SPdqQ(i))
    ensures var (c', d', er, m) := P.RcvPdq(g, c, d, i, p); var s := WaitQ(c, SPdqQ(i));
            && er == Outcome(MayAsk(c, p), p, s != [] || d.arr != [])
            && (er == E_OK && s != [] ==> HeadEnds(c, c', SPdqQ(i), DataOf(c, s[0])))
            && (er == BLOCKED ==> Sleeps(g, c, c', Obj(RPdqQ(i)), NoData, p.tmo))
            && (er != BLOCKED && !(er == E_OK && s != []) ==> c' == c)
            && (er != E_OK ==> d' == d)
            && (er == E_OK ==> Delivers(c, d, d', s, m))
  {
    hide Good, DispInv, Block, Sleeps, HeadEnds, Wake;
    HasQueue(g, c, SPdqQ(i));
    if WaitQ(c, SPdqQ(i)) != [] { WakesHead(g, c, SPdqQ(i), DataOf(c, WaitQ(c, SPdqQ(i))[0])); }
    if MayBlock(c) && p.Tmo? { BlockSleeps(g, c, Obj(RPdqQ(i)), NoData, p); }
    if d.arr != [] {
      var k := P.Best(d.arr);
      assert Best(d.arr, d.arr[k], P.Without(d.arr, k), k);
    }
  }

  ghost predicate Delivers(c: Core, d: P.Pdq, d': P.Pdq, s: seq<Tid>, m: P.Msg) {
    && d' == d.(arr := d'.arr)
    && if d.arr == [] then d'.arr == [] && s != [] && m == P.MsgIn(DataOf(c, s[0]))
       else exists k: nat, r: seq<P.Msg> :: Best(d.arr, m, r, k)
              && d'.arr == r + if s != [] then [P.MsgIn(DataOf(c, s[0]))] else []
  }

  // ----- memory pools -----

  /** A block is had at once whenever one is free, counted from the blocks of the pool. */
  lemma GetMpfDoes(g: Config, c: Core, m: Mpf, i: nat, p: Patience)
    requires Inv(g, c) && MpfInv(c, m, i) && TmoType(p)
    ensures RunsTask(c)
    ensures var (c', m', er, blk) := GetMpf(g, c, m, i, p);
            && er == Outcome(MayAsk(c, p), p, exists b: nat :: b < m.blkcnt && !InUse(m, b))
            && (er != BLOCKED ==> c' == c)
            && (er == BLOCKED ==> Sleeps(g, c, c', Obj(MpfQ(i)), NoData, p.tmo))
            && (er != E_OK ==> m' == m)
            && (er == E_OK ==> exists b: nat :: b < m.blkcnt && !InUse(m, b) && InUse(m', b) && blk == Address(m, b))
  {
    hide Good, DispInv, Block, Sleeps;
    HasRun(g, c);
    FreeIsUnused(m);
    if FreeCount(m) > 0 && c.run.Some? { GetBlockExclusive(m, c.run.value); }
    if MayBlock(c) && p.Tmo? { BlockSleeps(g, c, Obj(MpfQ(i)), NoData, p); }
  }

  /** The count of free blocks is positive iff some block is not in use. */
  lemma FreeIsUnused(m: Mpf)
    requires PoolOk(m)
    ensures FreeCount(m) > 0 <==> exists b: nat :: b < m.blkcnt && !InUse(m, b)
  {
    FreeBlocksFit(m);
    if FreeCount(m) > 0 {
      GetBlockExclusive(m, 0);
      assert NextBlock(m) < m.blkcnt && !InUse(m, NextBlock(m));
    }
    if b: nat :| b < m.blkcnt && !InUse(m, b) { assert b in m.free || m.unused < m.blkcnt; }
  }

  /** A block that is given back goes to the first waiting task, or becomes free. */
  lemma RelMpfDoes(g: Config, c: Core, m: Mpf, i: nat, b: nat)
    requires Inv(g, c) && MpfInv(c, m, i) && InTask(c) && InUse(m, b)
    ensures QueueOk(c, MpfQ(i))
    ensures var blk := Address(m, b); var (c', m', er) := RelMpf(g, c, m, i, blk);
            && er == E_OK
            && if WaitQ(c, MpfQ(i)) != [] then HeadEnds(c, c', MpfQ(i), BlkData(blk)) && InUse(m', b)
               else c' == c && !InUse(m', b)
  {
    hide Good, DispInv, HeadEnds, Wake;
    HasQueue(g, c, MpfQ(i));
    ValidBlockExact(m, Address(m, b));
    DivExact(m.blksz, b);
    if WaitQ(c, MpfQ(i)) != [] { WakesHead(g, c, MpfQ(i), BlkData(Address(m, b))); }
  }

  /** All blocks are free again. */
  lemma IniMpfDoes(g: Config, c: Core, m: Mpf, i: nat)
    requires Inv(g, c) && InTask(c)
    ensures QueueOk(c, MpfQ(i))
    ensures var (c', m', er) := IniMpf(g, c, m, i);
            && er == E_OK && (forall b :: !InUse(m', b)) && m'.owner == map[]
            && AllEnd(c, c', WaitQ(c, MpfQ(i))) && WaitQ(c', MpfQ(i)) == []
  {
    hide Inv, AllEnd, WakeAll, Finish;
    WakesAll(g, c, MpfQ(i));
  }

  /** The blocks of a pool lie one behind the other, within it, and do not overlap. */
  lemma BlocksApart(m: Mpf, a: nat, b: nat)
    requires PoolOk(m) && a < b < m.blkcnt
    ensures m.base <= Address(m, a) && Address(m, a) + m.blksz <= Address(m, b)
    ensures Address(m, b) + m.blksz <= m.base + m.blkcnt * m.blksz
  {
    MulOrder(m.blksz, a + 1, b);
    MulOrder(m.blksz, b + 1, m.blkcnt);
  }

  // ----- the order in which several tasks are woken -----

  /** The tasks of s that become runnable with priority p when their waits end. */
  function Readied(tcb: seq<TCB>, s: seq<Tid>, p: nat): seq<Tid> {
    if s == [] then []
    else if s[0] < |tcb| && tcb[s[0]].tstat.Waiting? && !tcb[s[0]].tstat.susp && tcb[s[0]].priority == p then
      [s[0]] + Readied(tcb, s[1..], p)
    else Readied(tcb, s[1..], p)
  }

  lemma {:induction false} ReadiedFrame(tcb: seq<TCB>, tcb': seq<TCB>, s: seq<Tid>, p: nat)
    requires |tcb'| == |tcb| && forall k :: 0 <= k < |s| && s[k] < |tcb| ==> tcb'[s[k]] == tcb[s[k]]
    ensures Readied(tcb', s, p) == Readied(tcb, s, p)
  {
    if s != [] { ReadiedFrame(tcb, tcb', s[1..], p); }
  }

  lemma WakeReady(g: Config, c: Core, t: Tid, code: ER, d: WData, p: nat)
    requires t < |c.ts.tcb| && c.ts.tcb[t].tstat.Waiting?
    ensures var c1 := Wake(g, c, t, code, d);
            && |c1.ts.tcb| == |c.ts.tcb| && (forall u :: 0 <= u < |c.ts.tcb| && u != t ==> c1.ts.tcb[u] == c.ts.tcb[u])
            && At(c1.ts.q, Ready(p)) == At(c.ts.q, Ready(p)) + Readied(c.ts.tcb, [t], p)
  {
    assert [t][1..] == [];
  }

  lemma ReadiedNone(tcb: seq<TCB>, p: nat)
    ensures Readied(tcb, [], p) == []
  {
  }

  /** One task after the other joins a ready queue. */
  lemma JoinTwice(q: seq<Tid>, a: seq<Tid>, b: seq<Tid>)
    ensures (q + a) + b == q + (a + b) && q + [] == q
  {
  }

  lemma ReadiedFirst(tcb: seq<TCB>, s: seq<Tid>, p: nat)
    requires s != []
    ensures Readied(tcb, s, p) == Readied(tcb, [s[0]], p) + Readied(tcb, s[1..], p)
  {
    assert [s[0]][1..] == [];
  }

  lemma {:induction false} WakeAllInOrder(g: Config, c: Core, s: seq<Tid>, code: ER, p: nat)
    requires TasksIn(c, s) && NoDup(s) && forall k :: 0 <= k < |s| ==> c.ts.tcb[s[k]].tstat.Waiting?
    ensures At(WakeAll(g, c, s, code).0.ts.q, Ready(p)) == At(c.ts.q, Ready(p)) + Readied(c.ts.tcb, s, p)
    decreases |s|
  {
    hide Wake, Readied, At;
    ReadiedNone(c.ts.tcb, p);
    JoinTwice(At(c.ts.q, Ready(p)), [], []);
    if s != [] {
      var d := c.ts.tcb[s[0]].wdata;
      var c1 := Wake(g, c, s[0], code, d);
      JoinTwice(At(c.ts.q, Ready(p)), Readied(c.ts.tcb, [s[0]], p), Readied(c.ts.tcb, s[1..], p));
      WakeReady(g, c, s[0], code, d, p);
      forall k | 0 <= k < |s[1..]| ensures s[1..][k] != s[0] { assert s[1..][k] == s[k + 1]; }
      WakeAllInOrder(g, c1, s[1..], code, p);
      ReadiedFrame(c.ts.tcb, c1.ts.tcb, s[1..], p);
      ReadiedFirst(c.ts.tcb, s, p);
    }
  }

  /** When an object is initialised again its waiting tasks become ready in the order of their queue. */
  lemma ReadyInQueueOrder(g: Config, c: Core, wq: WQ, p: nat)
    requires Inv(g, c)
    ensures QueueOk(c, wq)
    ensures At(WakeAll(g, c, WaitQ(c, wq), E_DLT).0.ts.q, Ready(p))
         == At(c.ts.q, Ready(p)) + Readied(c.ts.tcb, WaitQ(c, wq), p)
  {
    WaitersAreWaiting(c, wq);
    forall k | 0 <= k < |WaitQ(c, wq)| ensures c.ts.tcb[WaitQ(c, wq)[k]].tstat.Waiting? {
      assert WaitQ(c, wq)[k] in WaitQ(c, wq);
    }
    WakeAllInOrder(g, c, WaitQ(c, wq), E_DLT, p);
  }

  lemma {:induction false} ScanInOrder(g: Config, c: Core, f: Flg, s: seq<Tid>, p: nat)
    requires FlagWaiters(c, s)
    ensures At(EventFlag.Scan(g, c, f, s).0.ts.q, Ready(p))
         == At(c.ts.q, Ready(p)) + Readied(c.ts.tcb, Released(c.ts.tcb, f, s), p)
    decreases |s|
  {
    hide Wake, Cond, Readied, At;
    ReadiedNone(c.ts.tcb, p);
    JoinTwice(At(c.ts.q, Ready(p)), [], []);
    if s != [] {
      if CondOf(f.ptn, DataOf(c, s[0])) {
        var d := Handed(DataOf(c, s[0]), f.ptn);
        var c1 := Wake(g, c, s[0], E_OK, d);
        WakeReady(g, c, s[0], E_OK, d, p);
        forall k | 0 <= k < |s[1..]| ensures s[1..][k] != s[0] { assert s[1..][k] == s[k + 1]; }
        if f.clr {
          assert Released(c.ts.tcb, f, s) == [s[0]];
        } else {
          assert Released(c.ts.tcb, f, s)[1..] == Released(c.ts.tcb, f, s[1..]);
          ScanInOrder(g, c1, f, s[1..], p);
          ReleasedFrame(c.ts.tcb, c1.ts.tcb, f, s[1..]);
          ReleasedWithin(c.ts.tcb, f, s[1..]);
          ReadiedFrame(c.ts.tcb, c1.ts.tcb, Released(c.ts.tcb, f, s[1..]), p);
          ReadiedFirst(c.ts.tcb, Released(c.ts.tcb, f, s), p);
          var rest := Readied(c.ts.tcb, Released(c.ts.tcb, f, s[1..]), p);
          JoinTwice(At(c.ts.q, Ready(p)), Readied(c.ts.tcb, [s[0]], p), rest);
        }
      } else {
        ScanInOrder(g, c, f, s[1..], p);
      }
    }
  }

  lemma {:induction false} ReleasedWithin(tcb: seq<TCB>, f: Flg, s: seq<Tid>)
    ensures forall k :: 0 <= k < |Released(tcb, f, s)| ==> Released(tcb, f, s)[k] in s
  {
    hide CondOf;
    if s != [] {
      ReleasedWithin(tcb, f, s[1..]);
      assert s == [s[0]] + s[1..];
    }
  }

  /** And set_flg makes those that it releases ready in the order of the queue. */
  lemma SetFlgInOrder(g: Config, c: Core, f: Flg, i: nat, setptn: bv32, p: nat)
    requires Inv(g, c) && FlgInv(c, f, i) && Live(c)
    ensures QueueOk(c, FlgQ(i))
    ensures At(SetFlg(g, c, f, i, setptn).0.ts.q, Ready(p))
         == At(c.ts.q, Ready(p)) + Readied(c.ts.tcb, Released(c.ts.tcb, Raised(f, setptn), WaitQ(c, FlgQ(i))), p)
  {
    hide EventFlag.Scan, Raised, Released, FlagWaiters, FlgInv;
    WaitersAreFlagWaiters(c, f, i);
    ScanInOrder(g, c, Raised(f, setptn), WaitQ(c, FlgQ(i)), p);
    FinishKeepsTasks(EventFlag.Scan(g, c, Raised(f, setptn), WaitQ(c, FlgQ(i))).0,
                     EventFlag.Scan(g, c, Raised(f, setptn), WaitQ(c, FlgQ(i))).2);
  }
}
