/** Event flags (kernel/eventflag.c). */
module EventFlag {
  import opened Types
  import opened Seqs
  import opened TaskQueues
  import opened Core
  import opened CoreProofs
  import opened TaskCalls
  import opened TaskCallProofs
  import opened WaitQueues

  /** clr and wmul are the attributes TA_CLR and TA_WMUL. */
  datatype Flg = Flg(ptn: bv32, init: bv32, clr: bool, wmul: bool)

  type FlgResult = (Core, Flg, ER)

  /** The release condition of check_flg_cond. */
  predicate Cond(ptn: bv32, waiptn: bv32, orw: bool) {
    if orw then ptn & waiptn != 0 else ptn & waiptn == waiptn
  }

  predicate CondOf(ptn: bv32, d: WData) { d.FlgData? && Cond(ptn, d.waiptn, d.orw) }

  /** check_flg_cond: the pattern left when the condition holds. */
  function AfterMatch(f: Flg): Flg { if f.clr then f.(ptn := 0) else f }

  function Handed(d: WData, ptn: bv32): WData
    requires d.FlgData?
  {
    d.(flgptn := ptn)
  }

  /** The scan of set_flg over the waiting tasks s, in the order of the queue. */
  function Scan(g: Config, c: Core, f: Flg, s: seq<Tid>): (r: (Core, Flg, bool))
    requires TasksIn(c, s)
    decreases |s|
  {
    if s == [] then (c, f, false)
    else if CondOf(f.ptn, DataOf(c, s[0])) then
      var c1 := Wake(g, c, s[0], E_OK, Handed(DataOf(c, s[0]), f.ptn));
      if f.clr then (c1, AfterMatch(f), Req(c, c1))
      else
        var (c2, f2, req) := Scan(g, c1, f, s[1..]);
        (c2, f2, Req(c, c1) || req)
    else Scan(g, c, f, s[1..])
  }

  function Or(a: bv32, b: bv32): bv32 { a | b }

  function Raised(f: Flg, setptn: bv32): Flg { f.(ptn := Or(f.ptn, setptn)) }

  /** set_flg and iset_flg. */
  function SetFlg(g: Config, c: Core, f: Flg, i: nat, setptn: bv32): FlgResult
    requires QueueOk(c, FlgQ(i))
  {
    if !Live(c) then (c, f, E_CTX)
    else
      var (c1, f1, req) := Scan(g, c, Raised(f, setptn), WaitQ(c, FlgQ(i)));
      (Finish(c1, req), f1, E_OK)
  }

  function ClrFlg(c: Core, f: Flg, clrptn: bv32): FlgResult {
    if !InTask(c) then (c, f, E_CTX) else (c, f.(ptn := f.ptn & clrptn), E_OK)
  }

  /** wai_flg, pol_flg, twai_flg; the last component is the pattern returned through p_flgptn. */
  function WaiFlg(g: Config, c: Core, f: Flg, i: nat, waiptn: bv32, orw: bool, p: Patience): (Core, Flg, ER, bv32)
    requires RunsTask(c)
  {
    if !(if p.Polling? then InTask(c) else MayBlock(c)) then (c, f, E_CTX, 0)
    else if waiptn == 0 || !TmoOk(p) then (c, f, E_PAR, 0)
    else if !f.wmul && WaitQ(c, FlgQ(i)) != [] then (c, f, E_ILUSE, 0)
    else if Cond(f.ptn, waiptn, orw) then (c, AfterMatch(f), E_OK, f.ptn)
    else if p.Polling? || p.tmo == TMO_POL then (c, f, E_TMOUT, 0)
    else (Block(g, c, Obj(FlgQ(i)), FlgData(waiptn, orw, 0), TimerOf(p)), f, BLOCKED, 0)
  }

  function IniFlg(g: Config, c: Core, f: Flg, i: nat): FlgResult
    requires QueueOk(c, FlgQ(i))
  {
    if !InTask(c) then (c, f, E_CTX)
    else
      var (c1, req) := WakeAll(g, c, WaitQ(c, FlgQ(i)), E_DLT);
      (Finish(c1, req), f.(ptn := f.init), E_OK)
  }

  ghost predicate Unsatisfied(ptn: bv32, d: WData) {
    d.FlgData? && d.waiptn != 0 && !Cond(ptn, d.waiptn, d.orw)
  }

  ghost predicate NoneSatisfied(tcb: seq<TCB>, s: seq<Tid>, ptn: bv32) {
    forall t: Tid :: t in s ==> Unsatisfied(ptn, Data(tcb, t))
  }

  /** No satisfied waiter: whoever waits does so for a pattern that is not there. */
  ghost predicate FlgInv(c: Core, f: Flg, i: nat) {
    NoneSatisfied(c.ts.tcb, WaitQ(c, FlgQ(i)), f.ptn)
  }

  lemma FlgRely(c: Core, c': Core, own: set<WQ>, f: Flg, i: nat)
    requires FlgInv(c, f, i) && Linked(c.ts) && Linked(c'.ts)
    requires Rely(c.ts.tcb, c'.ts.tcb, own) && FlgQ(i) !in own
    ensures FlgInv(c', f, i)
  {
    RelyQueue(c, c', own, FlgQ(i));
  }

  lemma AndSwap(a: bv32, b: bv32, d: bv32)
    ensures (a & b) & d == (a & d) & b
  {
  }

  lemma AndInto(a: bv32, b: bv32, d: bv32)
    requires (a & b) & d == d
    ensures a & d == d
  {
  }

  /** A condition that does not hold is not made to hold by clearing bits. */
  lemma CondMonotone(ptn: bv32, clrptn: bv32, waiptn: bv32, orw: bool)
    ensures Cond(ptn & clrptn, waiptn, orw) ==> Cond(ptn, waiptn, orw)
  {
    if orw {
      AndSwap(ptn, clrptn, waiptn);
    } else if (ptn & clrptn) & waiptn == waiptn {
      AndInto(ptn, clrptn, waiptn);
    }
  }

  lemma CondOfZero(waiptn: bv32, orw: bool)
    requires waiptn != 0
    ensures !Cond(0, waiptn, orw)
  {
  }

  lemma ClrFlgOk(g: Config, c: Core, f: Flg, i: nat, clrptn: bv32)
    requires Inv(g, c) && FlgInv(c, f, i)
    ensures var (c', f', er) := ClrFlg(c, f, clrptn);
            CallOk(g, c, c', {}) && FlgInv(c', f', i)
  {
    ClearingSatisfiesNone(c.ts.tcb, WaitQ(c, FlgQ(i)), f.ptn, clrptn);
    Unchanged(g, c);
  }

  lemma ClearingSatisfiesNone(tcb: seq<TCB>, s: seq<Tid>, ptn: bv32, clrptn: bv32)
    requires NoneSatisfied(tcb, s, ptn)
    ensures NoneSatisfied(tcb, s, ptn & clrptn)
  {
    forall t: Tid | t in s ensures Unsatisfied(ptn & clrptn, Data(tcb, t)) {
      CondMonotone(ptn, clrptn, Data(tcb, t).waiptn, Data(tcb, t).orw);
    }
  }

  /** The tasks of s that the scan releases. */
  function Released(tcb: seq<TCB>, f: Flg, s: seq<Tid>): seq<Tid> {
    if s == [] then []
    else if CondOf(f.ptn, Data(tcb, s[0])) then
      [s[0]] + (if f.clr then [] else Released(tcb, f, s[1..]))
    else Released(tcb, f, s[1..])
  }

  predicate FirstMatch(tcb: seq<TCB>, ptn: bv32, s: seq<Tid>, k: nat) {
    k < |s| && CondOf(ptn, Data(tcb, s[k])) && forall j :: 0 <= j < k ==> !CondOf(ptn, Data(tcb, s[j]))
  }

  /** Without TA_CLR exactly the tasks are released whose condition holds for the new pattern. */
  lemma {:induction false} ReleasedAll(tcb: seq<TCB>, f: Flg, s: seq<Tid>)
    requires !f.clr
    ensures forall t: Tid :: t in Released(tcb, f, s) <==> t in s && CondOf(f.ptn, Data(tcb, t))
  {
    if s != [] {
      ReleasedAll(tcb, f, s[1..]);
      assert s == [s[0]] + s[1..];
    }
  }

  /** With TA_CLR it is the first of them, if there is one. */
  lemma {:induction false} ReleasedFirst(tcb: seq<TCB>, f: Flg, s: seq<Tid>)
    requires f.clr
    ensures Released(tcb, f, s) == [] ==> forall t: Tid :: t in s ==> !CondOf(f.ptn, Data(tcb, t))
    ensures Released(tcb, f, s) != [] ==>
              exists k :: 0 <= k < |s| && FirstMatch(tcb, f.ptn, s, k) && Released(tcb, f, s) == [s[k]]
  {
    if s != [] {
      ReleasedFirst(tcb, f, s[1..]);
      assert s == [s[0]] + s[1..];
      if CondOf(f.ptn, Data(tcb, s[0])) {
        assert FirstMatch(tcb, f.ptn, s, 0);
      } else if Released(tcb, f, s[1..]) != [] {
        var k :| 0 <= k < |s[1..]| && FirstMatch(tcb, f.ptn, s[1..], k) && Released(tcb, f, s[1..]) == [s[1..][k]];
        forall j | 0 <= j < k + 1 ensures !CondOf(f.ptn, Data(tcb, s[j])) {
          if j > 0 { assert s[j] == s[1..][j - 1]; }
        }
        assert FirstMatch(tcb, f.ptn, s, k + 1);
      }
    }
  }

  lemma {:induction false} ReleasedFrame(tcb: seq<TCB>, tcb': seq<TCB>, f: Flg, s: seq<Tid>)
    requires forall i :: 0 <= i < |s| ==> Data(tcb', s[i]) == Data(tcb, s[i])
    ensures Released(tcb', f, s) == Released(tcb, f, s)
  {
    if s != [] { ReleasedFrame(tcb, tcb', f, s[1..]); }
  }

  ghost predicate FlagWaiters(c: Core, s: seq<Tid>) {
    && TasksIn(c, s) && NoDup(s)
    && forall i :: 0 <= i < |s| ==> c.ts.tcb[s[i]].tstat.Waiting? && c.ts.tcb[s[i]].wdata.FlgData?
  }

  /** The released tasks r, and only they, are woken with E_OK and the pattern that released them. */
  ghost predicate WokenBy(tcb: seq<TCB>, tcb': seq<TCB>, r: seq<Tid>, ptn: bv32) {
    && |tcb'| == |tcb|
    && forall t :: 0 <= t < |tcb| ==> tcb'[t] == Freed(tcb[t], t in r, ptn)
  }

  function Freed(b: TCB, released: bool, ptn: bv32): TCB {
    if released && b.wdata.FlgData? then Woken(b, E_OK, Handed(b.wdata, ptn)) else b
  }

  lemma WokenByStep(tcb: seq<TCB>, tcb1: seq<TCB>, tcb': seq<TCB>, t: Tid, r: seq<Tid>, ptn: bv32)
    requires t < |tcb| && tcb[t].wdata.FlgData? && t !in r
    requires tcb1 == tcb[t := Woken(tcb[t], E_OK, Handed(tcb[t].wdata, ptn))]
    requires WokenBy(tcb1, tcb', r, ptn)
    ensures WokenBy(tcb, tcb', [t] + r, ptn)
  {
  }

  /** The scan ends the waits of the released tasks, and nothing else happens. */
  lemma {:induction false} ScanGood(g: Config, c: Core, f: Flg, s: seq<Tid>)
    requires Good(g, c) && FlagWaiters(c, s)
    ensures var (c', f', req) := Scan(g, c, f, s);
            && Good(g, c') && Quiet(c, c') && Follows(c, c', {})
            && (Req(c, c') ==> req) && (req ==> c.fl.dspflg)
    decreases |s|
  {
    if s != [] {
      if CondOf(f.ptn, DataOf(c, s[0])) {
        var d := Handed(DataOf(c, s[0]), f.ptn);
        WakeGood(g, c, s[0], E_OK, d);
        if !f.clr {
          var c1 := Wake(g, c, s[0], E_OK, d);
          ScanGood(g, c1, f, s[1..]);
          FollowsTrans(c, c1, Scan(g, c1, f, s[1..]).0, {});
        }
      } else {
        ScanGood(g, c, f, s[1..]);
      }
    }
  }

  lemma {:induction false} ScanReleases(g: Config, c: Core, f: Flg, s: seq<Tid>)
    requires FlagWaiters(c, s)
    ensures var (c', f', req) := Scan(g, c, f, s); var r := Released(c.ts.tcb, f, s);
            && f' == (if r == [] then f else AfterMatch(f))
            && WokenBy(c.ts.tcb, c'.ts.tcb, r, f.ptn)
            && (forall t: Tid :: t in r ==> t in s)
    decreases |s|
  {
    if s != [] {
      assert s == [s[0]] + s[1..];
      if CondOf(f.ptn, DataOf(c, s[0])) {
        var c1 := Wake(g, c, s[0], E_OK, Handed(DataOf(c, s[0]), f.ptn));
        if f.clr {
          assert WokenBy(c1.ts.tcb, c1.ts.tcb, [], f.ptn);
          WokenByStep(c.ts.tcb, c1.ts.tcb, c1.ts.tcb, s[0], [], f.ptn);
        } else {
          ScanReleases(g, c1, f, s[1..]);
          ReleasedFrame(c.ts.tcb, c1.ts.tcb, f, s[1..]);
          WokenByStep(c.ts.tcb, c1.ts.tcb, Scan(g, c1, f, s[1..]).0.ts.tcb, s[0], Released(c.ts.tcb, f, s[1..]), f.ptn);
        }
      } else {
        ScanReleases(g, c, f, s[1..]);
      }
    }
  }

  lemma WaitersAreFlagWaiters(c: Core, f: Flg, i: nat)
    requires Linked(c.ts) && FlgInv(c, f, i)
    ensures FlagWaiters(c, WaitQ(c, FlgQ(i))) && QueueOk(c, FlgQ(i))
  {
    WaitersAreWaiting(c, FlgQ(i));
    var s := WaitQ(c, FlgQ(i));
    forall k | 0 <= k < |s| ensures c.ts.tcb[s[k]].tstat.Waiting? && c.ts.tcb[s[k]].wdata.FlgData? {
      assert s[k] in s;
      assert Unsatisfied(f.ptn, Data(c.ts.tcb, s[k]));
    }
  }

  /** set_flg releases exactly the waiters that it should: they leave the queue with E_OK and the
      pattern that released them, the others stay; under TA_CLR a release clears the flag. */
  lemma SetFlgReleases(g: Config, c: Core, f: Flg, i: nat, setptn: bv32)
    requires Inv(g, c) && FlgInv(c, f, i) && Live(c)
    ensures QueueOk(c, FlgQ(i))
    ensures var (c', f', er) := SetFlg(g, c, f, i, setptn);
            var f0 := Raised(f, setptn); var r := Released(c.ts.tcb, f0, WaitQ(c, FlgQ(i)));
            && f' == (if r == [] then f0 else AfterMatch(f0))
            && WokenBy(c.ts.tcb, c'.ts.tcb, r, f0.ptn)
            && (forall t: Tid :: t in WaitQ(c', FlgQ(i)) <==> t in WaitQ(c, FlgQ(i)) && t !in r)
  {
    var f0 := Raised(f, setptn);
    ScanEffect(g, c, f, f0, i);
    FinishKeepsTasks(Scan(g, c, f0, WaitQ(c, FlgQ(i))).0, Scan(g, c, f0, WaitQ(c, FlgQ(i))).2);
  }

  lemma FinishKeepsTasks(c: Core, req: bool)
    ensures Finish(c, req).ts == c.ts
  {
  }

  lemma ScanEffect(g: Config, c: Core, f: Flg, f0: Flg, i: nat)
    requires Inv(g, c) && FlgInv(c, f, i)
    ensures QueueOk(c, FlgQ(i))
    ensures var (c', f', req) := Scan(g, c, f0, WaitQ(c, FlgQ(i))); var r := Released(c.ts.tcb, f0, WaitQ(c, FlgQ(i)));
            && f' == (if r == [] then f0 else AfterMatch(f0))
            && WokenBy(c.ts.tcb, c'.ts.tcb, r, f0.ptn)
            && (forall t: Tid :: t in WaitQ(c', FlgQ(i)) <==> t in WaitQ(c, FlgQ(i)) && t !in r)
  {
    var s := WaitQ(c, FlgQ(i));
    WaitersAreFlagWaiters(c, f, i);
    ScanReleases(g, c, f0, s);
    ScanLinked(g, c, f0, s);
    ReleasedLeave(c, Scan(g, c, f0, s).0, Released(c.ts.tcb, f0, s), f0.ptn, i);
  }

  lemma ScanLinked(g: Config, c: Core, f: Flg, s: seq<Tid>)
    requires Good(g, c) && FlagWaiters(c, s)
    ensures Linked(Scan(g, c, f, s).0.ts)
  {
    ScanGood(g, c, f, s);
  }

  lemma ReleasedLeave(c: Core, c': Core, r: seq<Tid>, ptn: bv32, i: nat)
    requires Linked(c.ts) && Linked(c'.ts) && WokenBy(c.ts.tcb, c'.ts.tcb, r, ptn) && FlagWaiters(c, WaitQ(c, FlgQ(i)))
    requires forall t: Tid :: t in r ==> t in WaitQ(c, FlgQ(i))
    ensures forall t: Tid :: t in WaitQ(c', FlgQ(i)) <==> t in WaitQ(c, FlgQ(i)) && t !in r
  {
    WaitersAreWaiting(c, FlgQ(i));
    WaitersAreWaiting(c', FlgQ(i));
    forall t: Tid ensures t in WaitQ(c', FlgQ(i)) <==> t in WaitQ(c, FlgQ(i)) && t !in r {
      if t in WaitQ(c, FlgQ(i)) { var k :| 0 <= k < |WaitQ(c, FlgQ(i))| && WaitQ(c, FlgQ(i))[k] == t; }
    }
  }

  /** Those that stay are not satisfied by the pattern that remains. */
  lemma RestUnsatisfied(c: Core, c': Core, f: Flg, f0: Flg, i: nat)
    requires FlgInv(c, f, i)
    requires var r := Released(c.ts.tcb, f0, WaitQ(c, FlgQ(i)));
             && WokenBy(c.ts.tcb, c'.ts.tcb, r, f0.ptn)
             && (forall t: Tid :: t in WaitQ(c', FlgQ(i)) ==> IsTask(c, t) && t in WaitQ(c, FlgQ(i)) && t !in r)
    ensures FlgInv(c', if Released(c.ts.tcb, f0, WaitQ(c, FlgQ(i))) == [] then f0 else AfterMatch(f0), i)
  {
    var s := WaitQ(c, FlgQ(i));
    if f0.clr { ReleasedFirst(c.ts.tcb, f0, s); } else { ReleasedAll(c.ts.tcb, f0, s); }
    forall t: Tid | t in WaitQ(c', FlgQ(i))
      ensures Data(c'.ts.tcb, t) == Data(c.ts.tcb, t) && Unsatisfied(0, Data(c.ts.tcb, t))
    {
      assert Unsatisfied(f.ptn, Data(c.ts.tcb, t));
      CondOfZero(Data(c.ts.tcb, t).waiptn, Data(c.ts.tcb, t).orw);
    }
  }

  /** set_flg leaves no satisfied waiter. */
  lemma SetFlgOk(g: Config, c: Core, f: Flg, i: nat, setptn: bv32)
    requires Inv(g, c) && FlgInv(c, f, i)
    ensures QueueOk(c, FlgQ(i))
    ensures var (c', f', er) := SetFlg(g, c, f, i, setptn);
            CallOk(g, c, c', {}) && FlgInv(c', f', i)
  {
    var s, f0 := WaitQ(c, FlgQ(i)), Raised(f, setptn);
    WaitersAreFlagWaiters(c, f, i);
    WaitersAreWaiting(c, FlgQ(i));
    if Live(c) {
      ScanGood(g, c, f0, s);
      var (c1, f1, req) := Scan(g, c, f0, s);
      DoneOk(g, c, c1, req, {});
      SetFlgReleases(g, c, f, i, setptn);
      RestUnsatisfied(c, SetFlg(g, c, f, i, setptn).0, f, f0, i);
    }
  }

  lemma BlockFlgOk(g: Config, c: Core, f: Flg, i: nat, d: WData, timer: Option<nat>)
    requires Inv(g, c) && FlgInv(c, f, i) && MayBlock(c) && BlockArgs(Obj(FlgQ(i)), timer) && Unsatisfied(f.ptn, d)
    ensures RunsTask(c)
    ensures var c' := Block(g, c, Obj(FlgQ(i)), d, timer); CallOk(g, c, c', {FlgQ(i)}) && FlgInv(c', f, i)
  {
    BlockInv(g, c, Obj(FlgQ(i)), d, timer);
    BlockQueues(g, c, FlgQ(i), d, timer);
    var c1 := Block(g, c, Obj(FlgQ(i)), d, timer);
    WaitersAreWaiting(c, FlgQ(i));
    InsertLinks(g, c1.ts.tcb, Wait(FlgQ(i)), WaitQ(c, FlgQ(i)), c.run.value);
  }

  lemma ClearedOk(c: Core, f: Flg, i: nat)
    requires FlgInv(c, f, i)
    ensures FlgInv(c, AfterMatch(f), i)
  {
    forall t: Tid | t in WaitQ(c, FlgQ(i)) ensures Unsatisfied(0, DataOf(c, t)) {
      CondOfZero(DataOf(c, t).waiptn, DataOf(c, t).orw);
    }
  }

  lemma WaiFlgCases(g: Config, c: Core, f: Flg, i: nat, waiptn: bv32, orw: bool, p: Patience)
    requires RunsTask(c)
    ensures var (c', f', er, ptn) := WaiFlg(g, c, f, i, waiptn, orw, p);
            && (er != BLOCKED ==> c' == c && f' == if er == E_OK then AfterMatch(f) else f)
            && (er == E_OK ==> ptn == f.ptn && Cond(ptn, waiptn, orw))
            && (er == BLOCKED ==>
                  && MayBlock(c) && TmoOk(p) && waiptn != 0 && !Cond(f.ptn, waiptn, orw) && f' == f
                  && c' == Block(g, c, Obj(FlgQ(i)), FlgData(waiptn, orw, 0), TimerOf(p)))
  {
  }

  /** Who is let through sees a pattern that satisfies his condition; who is not goes to sleep. */
  lemma WaiFlgOk(g: Config, c: Core, f: Flg, i: nat, waiptn: bv32, orw: bool, p: Patience)
    requires Inv(g, c) && FlgInv(c, f, i) && TmoType(p)
    ensures var (c', f', er, ptn) := WaiFlg(g, c, f, i, waiptn, orw, p);
            && CallOk(g, c, c', {FlgQ(i)}) && FlgInv(c', f', i)
            && (er == E_OK ==> Cond(ptn, waiptn, orw))
  {
    WaiFlgCases(g, c, f, i, waiptn, orw, p);
    var er := WaiFlg(g, c, f, i, waiptn, orw, p).2;
    if er == BLOCKED {
      BlockFlgOk(g, c, f, i, FlgData(waiptn, orw, 0), TimerOf(p));
    } else {
      if er == E_OK { ClearedOk(c, f, i); }
      Unchanged(g, c);
    }
  }

  lemma IniFlgOk(g: Config, c: Core, f: Flg, i: nat)
    requires Inv(g, c) && FlgInv(c, f, i)
    ensures QueueOk(c, FlgQ(i))
    ensures var (c', f', er) := IniFlg(g, c, f, i);
            CallOk(g, c, c', {}) && FlgInv(c', f', i)
  {
    InitCallOk(g, c, FlgQ(i));
    if !InTask(c) { Unchanged(g, c); }
  }
}
