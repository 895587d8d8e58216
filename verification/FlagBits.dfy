/** Event flags bit by bit: which bits set_flg and clr_flg leave, whom they satisfy, and what a later call
    finds. */
module FlagBits {
  import opened Types
  import opened TaskQueues
  import opened Core
  import opened CoreProofs
  import opened TaskCalls
  import opened TaskCallProofs
  import opened WaitQueues
  import opened EventFlag

  // ----- bits -----

  predicate OneBit(m: bv32) { m != 0 && m & (m - 1) == 0 }

  /** Bit m is set in x. */
  predicate In(m: bv32, x: bv32) { x & m != 0 }

  function LowBit(x: bv32): bv32 { x & (0 - x) }

  lemma LowBitIn(x: bv32)
    requires x != 0
    ensures OneBit(LowBit(x)) && In(LowBit(x), x)
  {
  }

  lemma InBoth(m: bv32, a: bv32, b: bv32)
    requires OneBit(m)
    ensures In(m, a & b) <==> In(m, a) && In(m, b)
  {
  }

  lemma InFirst(m: bv32, a: bv32, b: bv32)
    requires In(m, a)
    ensures In(m, a | b) && In(m, b | a)
  {
  }

  lemma InNeither(m: bv32, a: bv32, b: bv32)
    requires !In(m, a) && !In(m, b)
    ensures !In(m, a | b)
  {
  }

  lemma InEither(m: bv32, a: bv32, b: bv32)
    ensures In(m, Or(a, b)) <==> In(m, a) || In(m, b)
  {
    hide In;
    assert Or(a, b) == a | b;
    if In(m, a) {
      InFirst(m, a, b);
    } else if In(m, b) {
      InFirst(m, b, a);
    } else {
      InNeither(m, a, b);
    }
  }

  /** p has exactly the bits that a or b has. */
  ghost predicate IsUnion(p: bv32, a: bv32, b: bv32) {
    forall m: bv32 :: OneBit(m) ==> (In(m, p) <==> In(m, a) || In(m, b))
  }

  ghost predicate IsIntersection(p: bv32, a: bv32, b: bv32) {
    forall m: bv32 :: OneBit(m) ==> (In(m, p) <==> In(m, a) && In(m, b))
  }

  lemma OrIsUnion(a: bv32, b: bv32)
    ensures Or(a, b) == a | b && IsUnion(Or(a, b), a, b)
  {
    hide OneBit, In;
    forall m: bv32 | OneBit(m) ensures In(m, Or(a, b)) <==> In(m, a) || In(m, b) { InEither(m, a, b); }
  }

  function And(a: bv32, b: bv32): bv32 { a & b }

  lemma AndIsIntersection(a: bv32, b: bv32)
    ensures IsIntersection(And(a, b), a, b)
  {
    hide OneBit, In;
    forall m: bv32 | OneBit(m) ensures In(m, And(a, b)) <==> In(m, a) && In(m, b) { InBoth(m, a, b); }
  }

  lemma Missing(ptn: bv32, waiptn: bv32)
    requires ptn & waiptn != waiptn
    ensures var m := LowBit(waiptn & !ptn); OneBit(m) && In(m, waiptn) && !In(m, ptn)
  {
  }

  lemma Present(m: bv32, ptn: bv32, waiptn: bv32)
    requires ptn & waiptn == waiptn && In(m, waiptn)
    ensures In(m, ptn)
  {
  }

  /** What a task waits for: any of the bits with TWF_ORW, else all of them. */
  ghost predicate Satisfied(ptn: bv32, waiptn: bv32, orw: bool) {
    if orw then exists m: bv32 :: OneBit(m) && In(m, waiptn) && In(m, ptn)
    else forall m: bv32 :: OneBit(m) && In(m, waiptn) ==> In(m, ptn)
  }

  /** The condition of check_flg_cond says this. */
  lemma CondIsSatisfied(ptn: bv32, waiptn: bv32, orw: bool)
    ensures Cond(ptn, waiptn, orw) <==> Satisfied(ptn, waiptn, orw)
  {
    hide OneBit, In;
    if orw {
      if ptn & waiptn != 0 {
        var m := LowBit(ptn & waiptn);
        LowBitIn(ptn & waiptn);
        InBoth(m, ptn, waiptn);
      }
      if m: bv32 :| OneBit(m) && In(m, waiptn) && In(m, ptn) {
        InBoth(m, ptn, waiptn);
        NotZero(m, ptn & waiptn);
      }
    } else if ptn & waiptn == waiptn {
      forall m: bv32 | OneBit(m) && In(m, waiptn) ensures In(m, ptn) { Present(m, ptn, waiptn); }
    } else {
      Missing(ptn, waiptn);
    }
  }

  lemma NotZero(m: bv32, x: bv32)
    requires In(m, x)
    ensures x != 0
  {
  }

  // ----- set_flg -----

  /** The task with these data waits for a pattern that ptn satisfies. */
  ghost predicate Wanted(ptn: bv32, d: WData) { d.FlgData? && Satisfied(ptn, d.waiptn, d.orw) }

  /** Whom set_flg releases: all those whom the pattern satisfies, or, under TA_CLR, the first of them. */
  ghost predicate Freeable(c: Core, f: Flg, q: seq<Tid>, ptn: bv32, k: nat)
    requires k < |q|
  {
    Wanted(ptn, DataOf(c, q[k])) && (f.clr ==> forall j :: 0 <= j < k ==> !Wanted(ptn, DataOf(c, q[j])))
  }

  /** A task that is released finds E_OK and the pattern that released it. */
  ghost predicate Let(b: TCB, b': TCB, ptn: bv32) {
    && b.tstat.Waiting? && b.wdata.FlgData?
    && b' == TCB(if b.tstat.susp then Suspended else Runnable, b.priority, b.actque, b.wupque, Wercd(E_OK),
                 FlgData(b.wdata.waiptn, b.wdata.orw, ptn))
  }

  /** Setting bits: no bit that was set is lost, and no other one is set but those of setptn.  The tasks
      released get this pattern; only if one is released under TA_CLR the flag is cleared. */
  lemma SetFlgDoes(g: Config, c: Core, f: Flg, i: nat, setptn: bv32)
    requires Inv(g, c) && FlgInv(c, f, i) && Live(c)
    ensures QueueOk(c, FlgQ(i))
    ensures var (c', f', er) := SetFlg(g, c, f, i, setptn); var q, ptn := WaitQ(c, FlgQ(i)), Or(f.ptn, setptn);
            && IsUnion(ptn, f.ptn, setptn) && er == E_OK && |c'.ts.tcb| == |c.ts.tcb|
            && f' == f.(ptn := if f.clr && (exists t :: t in q && Wanted(ptn, DataOf(c, t))) then 0 else ptn)
            && (forall k :: 0 <= k < |q| && Freeable(c, f, q, ptn, k) ==> Let(c.ts.tcb[q[k]], c'.ts.tcb[q[k]], ptn))
            && (forall k :: 0 <= k < |q| && !Freeable(c, f, q, ptn, k) ==> c'.ts.tcb[q[k]] == c.ts.tcb[q[k]])
            && (forall t :: 0 <= t < |c.ts.tcb| && t !in q ==> c'.ts.tcb[t] == c.ts.tcb[t])
  {
    hide Inv, SetFlg, Or, Wanted, Released, WokenBy, FlgInv, FlagWaiters, IsUnion;
    HasQueue(g, c, FlgQ(i));
    OrIsUnion(f.ptn, setptn);
    SetFlgReleases(g, c, f, i, setptn);
    SetFlgKept(g, c, f, i, setptn);
    var q, f0 := WaitQ(c, FlgQ(i)), Raised(f, setptn);
    QueueFlags(g, c, f, i);
    ReleasedIs(c, f0, q);
    WokenByIs(c, SetFlg(g, c, f, i, setptn).0, f0, q);
  }

  lemma SetFlgKept(g: Config, c: Core, f: Flg, i: nat, setptn: bv32)
    requires QueueOk(c, FlgQ(i)) && Live(c)
    ensures SetFlg(g, c, f, i, setptn).2 == E_OK
  {
  }

  lemma QueueFlags(g: Config, c: Core, f: Flg, i: nat)
    requires Inv(g, c) && FlgInv(c, f, i)
    ensures FlagWaiters(c, WaitQ(c, FlgQ(i)))
  {
    WaitersAreFlagWaiters(c, f, i);
  }

  lemma WantedIs(ptn: bv32, d: WData)
    ensures CondOf(ptn, d) <==> Wanted(ptn, d)
  {
    hide Cond, Satisfied;
    if d.FlgData? { CondIsSatisfied(ptn, d.waiptn, d.orw); }
  }

  /** The tasks released are those of the positions that Freeable says. */
  lemma ReleasedIs(c: Core, f: Flg, q: seq<Tid>)
    requires FlagWaiters(c, q)
    ensures var r := Released(c.ts.tcb, f, q);
            && (forall t: Tid :: t in r ==> t in q)
            && (forall k :: 0 <= k < |q| ==> (q[k] in r <==> Freeable(c, f, q, f.ptn, k)))
            && (r == [] <==> forall t: Tid :: t in q ==> !Wanted(f.ptn, DataOf(c, t)))
  {
    hide CondOf, Wanted, Released;
    forall d: WData ensures CondOf(f.ptn, d) <==> Wanted(f.ptn, d) { WantedIs(f.ptn, d); }
    var r := Released(c.ts.tcb, f, q);
    if f.clr {
      ReleasedFirst(c.ts.tcb, f, q);
      if r != [] {
        var k :| 0 <= k < |q| && FirstMatch(c.ts.tcb, f.ptn, q, k) && r == [q[k]];
        assert q[k] in q;
      }
    } else {
      ReleasedAll(c.ts.tcb, f, q);
      if r != [] { assert r[0] in r; }
      if t: Tid :| t in q && Wanted(f.ptn, DataOf(c, t)) { assert t in r; }
    }
  }

  lemma WokenByIs(c: Core, c': Core, f: Flg, q: seq<Tid>)
    requires FlagWaiters(c, q) && WokenBy(c.ts.tcb, c'.ts.tcb, Released(c.ts.tcb, f, q), f.ptn)
    ensures |c'.ts.tcb| == |c.ts.tcb|
    ensures forall k :: 0 <= k < |q| ==>
              if q[k] in Released(c.ts.tcb, f, q) then Let(c.ts.tcb[q[k]], c'.ts.tcb[q[k]], f.ptn)
              else c'.ts.tcb[q[k]] == c.ts.tcb[q[k]]
    ensures forall t :: 0 <= t < |c.ts.tcb| && t !in Released(c.ts.tcb, f, q) ==> c'.ts.tcb[t] == c.ts.tcb[t]
  {
    hide Released;
  }

  // ----- one call after another -----

  lemma {:induction false} ScanNone(g: Config, c: Core, f: Flg, q: seq<Tid>)
    requires TasksIn(c, q) && forall t: Tid :: t in q ==> !CondOf(f.ptn, DataOf(c, t))
    ensures Scan(g, c, f, q) == (c, f, false)
    decreases |q|
  {
    hide CondOf;
    if q != [] {
      assert q == [q[0]] + q[1..];
      ScanNone(g, c, f, q[1..]);
    }
  }

  /** What has been set is there: if it released nobody, pol_flg for it succeeds, and reports also the bits
      set before. */
  lemma SetThenPoll(g: Config, c: Core, f: Flg, i: nat, x: bv32, orw: bool)
    requires Inv(g, c) && InTask(c) && x != 0 && (f.wmul || WaitQ(c, FlgQ(i)) == [])
    requires forall t: Tid :: t in WaitQ(c, FlgQ(i)) ==> !Wanted(Or(f.ptn, x), DataOf(c, t))
    ensures QueueOk(c, FlgQ(i))
    ensures var (c1, f1, er) := SetFlg(g, c, f, i, x);
            && er == E_OK && c1 == c && RunsTask(c)
            && var (c2, f2, er2, ptn) := WaiFlg(g, c1, f1, i, x, orw, Polling); er2 == E_OK && IsUnion(ptn, f.ptn, x)
  {
    hide Good, Or, Cond, IsUnion, CondOf, Wanted, Scan;
    HasQueue(g, c, FlgQ(i));
    OrIsUnion(f.ptn, x);
    forall t: Tid | t in WaitQ(c, FlgQ(i)) ensures !CondOf(Or(f.ptn, x), DataOf(c, t)) {
      WantedIs(Or(f.ptn, x), DataOf(c, t));
    }
    ScanNone(g, c, Raised(f, x), WaitQ(c, FlgQ(i)));
    SetSatisfies(f.ptn, x, orw);
  }

  lemma SetSatisfies(ptn: bv32, x: bv32, orw: bool)
    requires x != 0
    ensures Cond(Or(ptn, x), x, orw)
  {
  }

  /** clr_flg leaves exactly the bits that are set both in the flag and in its argument. */
  lemma ClrFlgDoes(c: Core, f: Flg, clrptn: bv32)
    requires InTask(c)
    ensures var (c', f', er) := ClrFlg(c, f, clrptn);
            er == E_OK && c' == c && f' == f.(ptn := f'.ptn) && IsIntersection(f'.ptn, f.ptn, clrptn)
  {
    hide ClrFlg, And, IsIntersection;
    ClrFlgIs(c, f, clrptn);
    AndIsIntersection(f.ptn, clrptn);
  }

  lemma ClrFlgIs(c: Core, f: Flg, clrptn: bv32)
    requires InTask(c)
    ensures ClrFlg(c, f, clrptn) == (c, f.(ptn := And(f.ptn, clrptn)), E_OK)
  {
  }

  /** What has been cleared is not there: pol_flg for any of it fails; and for a pattern that has not been
      touched it is answered as before. */
  lemma ClearThenPoll(g: Config, c: Core, f: Flg, i: nat, clrptn: bv32, w: bv32, orw: bool)
    requires Inv(g, c) && InTask(c) && w != 0 && (f.wmul || WaitQ(c, FlgQ(i)) == [])
    ensures RunsTask(c)
    ensures var f1 := ClrFlg(c, f, clrptn).1;
            && (And(w, clrptn) == 0 ==> WaiFlg(g, c, f1, i, w, orw, Polling).2 == E_TMOUT)
            && (And(w, clrptn) == w ==>
                  WaiFlg(g, c, f1, i, w, orw, Polling).2 == WaiFlg(g, c, f, i, w, orw, Polling).2)
  {
    hide Good, Cond, ClrFlg, And;
    HasQueue(g, c, FlgQ(i));
    ClrFlgIs(c, f, clrptn);
    ClearedUnsatisfied(f.ptn, clrptn, w, orw);
    UntouchedSame(f.ptn, clrptn, w, orw);
  }

  lemma ClearedUnsatisfied(ptn: bv32, clrptn: bv32, w: bv32, orw: bool)
    requires w != 0
    ensures And(w, clrptn) == 0 ==> !Cond(And(ptn, clrptn), w, orw)
  {
  }

  lemma UntouchedSame(ptn: bv32, clrptn: bv32, w: bv32, orw: bool)
    ensures And(w, clrptn) == w ==> (Cond(And(ptn, clrptn), w, orw) <==> Cond(ptn, w, orw))
  {
    if w & clrptn == w { AndWithin(ptn, clrptn, w); }
  }

  lemma AndWithin(ptn: bv32, clrptn: bv32, w: bv32)
    requires w & clrptn == w
    ensures (ptn & clrptn) & w == ptn & w
  {
  }
}
