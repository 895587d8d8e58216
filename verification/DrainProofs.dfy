/** The callbacks of one tick come to an end, although cyclic handlers register themselves again
    during the tick and handlers may start alarms meanwhile. */
module DrainProofs {
  import opened Types
  import opened TaskQueues
  import opened SystemClock
  import opened Core
  import opened CoreProofs
  import opened TaskCalls
  import opened TimeCalls
  import opened TimeCallProofs

  /** How far the block is overdue. */
  function Overdue(tm: map<Blk, Ev>, cur: int, b: Blk): nat {
    if b in tm && tm[b].time <= cur then cur + 1 - tm[b].time else 0
  }

  function SumOverdue(tm: map<Blk, Ev>, cur: int, s: seq<Blk>): nat {
    if s == [] then 0 else Overdue(tm, cur, s[0]) + SumOverdue(tm, cur, s[1..])
  }

  /** The work left in a tick. */
  function Work(g: Config, c: Core): nat { SumOverdue(c.tm, c.clk.cur, AllBlks(g)) }

  lemma {:induction false} SumMono(tm: map<Blk, Ev>, tm': map<Blk, Ev>, cur: int, s: seq<Blk>)
    requires forall i :: 0 <= i < |s| ==> Overdue(tm', cur, s[i]) <= Overdue(tm, cur, s[i])
    ensures SumOverdue(tm', cur, s) <= SumOverdue(tm, cur, s)
    ensures (exists i :: 0 <= i < |s| && Overdue(tm', cur, s[i]) < Overdue(tm, cur, s[i])) ==>
              SumOverdue(tm', cur, s) < SumOverdue(tm, cur, s)
  {
    if s != [] {
      SumMono(tm, tm', cur, s[1..]);
      if i :| 0 < i < |s| && Overdue(tm', cur, s[i]) < Overdue(tm, cur, s[i]) {
        assert s[1..][i - 1] == s[i];
      }
    }
  }

  lemma Registered(g: Config, c: Core, b: Blk)
    requires Good(g, c) && b in c.tm
    ensures b in AllBlks(g)
  {
    match b
    case TaskBlk(t) => assert TimedWait(c.ts.tcb, t);
    case CycBlk(i) =>
    case AlmBlk(i) =>
  }

  /** Each callback reduces the work. */
  lemma FireReduces(g: Config, c: Core, b: Blk)
    requires Inv(g, c) && MayFire(c, b)
    ensures CallbackArgOk(g, c, c.tm[b].cb) && Work(g, Fire(g, c, b)) < Work(g, c)
  {
    CallbackArg(g, c, b);
    FiredTimers(g, c, b);
    Registered(g, c, b);
    SumMono(c.tm, Fire(g, c, b).tm, c.clk.cur, AllBlks(g));
  }

  /** After a callback its block is gone, or registered again for later; no other block appears. */
  lemma FiredTimers(g: Config, c: Core, b: Blk)
    requires Inv(g, c) && MayFire(c, b) && CallbackArgOk(g, c, c.tm[b].cb)
    ensures var c' := Fire(g, c, b);
            && c'.clk == c.clk
            && (b in c'.tm ==> b.CycBlk? && c'.tm[b].time > c.tm[b].time)
            && (forall x :: x != b ==> (x in c'.tm <==> x in c.tm) && (x in c.tm ==> c'.tm[x] == c.tm[x]))
  {
    CallbackArg(g, c, b);
    match b
    case TaskBlk(t) =>
    case CycBlk(i) =>
    case AlmBlk(i) =>
  }

  /** No service call, of whichever handler, adds to it. */
  lemma CallsAddNoWork(g: Config, c: Core, c': Core, own: set<WQ>)
    requires Follows(c, c', own)
    ensures Work(g, c') <= Work(g, c)
  {
    SumMono(c.tm, c'.tm, c.clk.cur, AllBlks(g));
  }

  /** As long as an event is due there is a callback to make, and when none is, the tick can end. */
  lemma WorkLeft(g: Config, c: Core)
    requires Inv(g, c) && c.drain == Some(c.nest)
    ensures Work(g, c) > 0 <==> exists b :: MayFire(c, b)
    ensures Work(g, c) == 0 <==> MayEnd(c)
  {
    if b :| b in c.tm && c.tm[b].time <= c.clk.cur {
      var m := SomeMin(c.tm, b);
      assert MayFire(c, m);
      FireReduces(g, c, m);
    } else {
      SumZero(c.tm, c.clk.cur, AllBlks(g));
    }
  }

  lemma {:induction false} SumZero(tm: map<Blk, Ev>, cur: int, s: seq<Blk>)
    requires forall b :: b in tm ==> tm[b].time > cur
    ensures SumOverdue(tm, cur, s) == 0
  {
    if s != [] { SumZero(tm, cur, s[1..]); }
  }

  lemma {:induction false} SomeMin(tm: map<Blk, Ev>, b: Blk) returns (m: Blk)
    requires b in tm
    ensures m in tm && forall b' :: b' in tm ==> tm[m].time <= tm[b'].time
    decreases |tm|
  {
    var r := tm - {b};
    assert r.Keys == tm.Keys - {b};
    m := b;
    if b2 :| b2 in r {
      var n := SomeMin(r, b2);
      if tm[n].time <= tm[b].time { m := n; }
      forall b' | b' in tm ensures tm[m].time <= tm[b'].time {
        if b' != b { assert b' in r; }
      }
    } else {
      forall b' | b' in tm ensures b' == b { assert b' !in r; }
    }
  }
}
