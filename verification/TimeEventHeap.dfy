/**
  Time event management (kernel/time_event.c, time_event.h): an indexed binary heap in an array and
  the system clock, both in 32-bit arithmetic.
 */
module TimeEventHeap {
  import opened Types
  import opened SystemClock
  import opened HeapNodes

  /** No more blocks are registered than exist. */
  ghost predicate Fits(ev: map<Blk, Ev>, blks: set<Blk>, size: nat) {
    ev.Keys <= blks && |blks| <= size
  }

  lemma {:induction false} SetOfDistinct(s: seq<Blk>, keys: set<Blk>)
    requires forall i, j :: 0 <= i < j < |s| ==> s[i] != s[j]
    requires forall b :: b in s <==> b in keys
    ensures |keys| == |s|
  {
    if s != [] {
      var r := s[1..];
      forall b ensures b in r <==> b in keys - {s[0]} {
        if b in keys && b != s[0] {
          var k :| 0 <= k < |s| && s[k] == b;
          assert r[k - 1] == b;
        }
        if b in r {
          var k :| 0 <= k < |r| && r[k] == b;
          assert s[k + 1] == b;
        }
      }
      SetOfDistinct(r, keys - {s[0]});
    }
  }

  /** There are as many nodes as registered events. */
  lemma NodesCounted(a: seq<TMEVTN>, last: nat, tb: map<Blk, TMEVTB>, ev: map<Blk, Ev>)
    requires NodesOk(a, last, tb, ev, 0)
    ensures |ev| == last
  {
    var s := seq(last, i requires 0 <= i < last => a[i].blk);
    forall i | 0 <= i < last ensures s[i] in ev && tb[s[i]].index == i + 1 { assert N(a, i + 1) == a[i]; }
    forall b ensures b in s <==> b in ev.Keys {
      if b in ev {
        var k := tb[b].index - 1;
        assert N(a, k + 1).blk == b;
        assert s[k] == b;
      }
    }
    SetOfDistinct(s, ev.Keys);
    assert |ev| == |ev.Keys|;
  }

  lemma SubsetSize(x: set<Blk>, y: set<Blk>)
    requires x <= y
    ensures |x| <= |y|
  {
    if x != {} {
      var b :| b in x;
      SubsetSize(x - {b}, y - {b});
    }
  }

  class Heap {
    const ticNume: nat
    const ticDeno: nat
    const tmevt_heap: array<TMEVTN>
    var last_index: nat
    /** The fields of the time event blocks. */
    var tmevtb: map<Blk, TMEVTB>
    var current_time: nat
    var min_time: nat
    var next_time: nat
    var next_subtime: nat

    /** The registered events with unbounded times, the unbounded clock, all existing blocks. */
    ghost var ev: map<Blk, Ev>
    ghost var clk: Clock
    ghost const blks: set<Blk>

    ghost predicate ClockOk()
      reads this
    {
      && current_time == Low(clk.cur) && min_time == Low(clk.min) && next_time == Low(clk.nxt)
      && next_subtime == clk.sub
      && clk.min <= clk.cur <= clk.nxt < clk.min + EVTTIM_MOD
    }

    /** The heap holds the events o and has an empty node at hole. */
    ghost predicate Holds(o: map<Blk, Ev>, hole: nat)
      reads this, tmevt_heap
    {
      Holding(tmevt_heap[..], last_index, tmevtb, o, hole, clk.min)
    }

    ghost predicate Valid()
      reads this, tmevt_heap
    {
      Holds(ev, 0) && ClockOk() && Fits(ev, blks, tmevt_heap.Length)
    }

    /** initialize_tmevt. */
    constructor (g: Config, ghost blks: set<Blk>, size: nat)
      requires ValidConfig(g) && |blks| <= size
      ensures Valid() && fresh(tmevt_heap) && ev == map[] && clk == InitClock(g)
      ensures this.blks == blks && ticNume == g.ticNume && ticDeno == g.ticDeno
    {
      ticNume, ticDeno := g.ticNume, g.ticDeno;
      tmevt_heap := new TMEVTN[size](i => TMEVTN(0, TaskBlk(0)));
      last_index, tmevtb := 0, map[];
      current_time, min_time := 0, 0;
      next_time := g.ticNume / g.ticDeno;
      next_subtime := g.ticNume % g.ticDeno;
      ev, clk, this.blks := map[], InitClock(g), blks;
    }

    /** EVTTIM_LT and EVTTIM_LE. */
    predicate Lt(t1: nat, t2: nat)
      reads this
    {
      Ahead(t1, min_time) < Ahead(t2, min_time)
    }

    predicate Le(t1: nat, t2: nat)
      reads this
    {
      Ahead(t1, min_time) <= Ahead(t2, min_time)
    }

    lemma Compare(t1: int, t2: int)
      requires min_time == Low(clk.min)
      requires clk.min <= t1 < clk.min + EVTTIM_MOD && clk.min <= t2 < clk.min + EVTTIM_MOD
      ensures Lt(Low(t1), Low(t2)) <==> t1 < t2
      ensures Le(Low(t1), Low(t2)) <==> t1 <= t2
    {
      AheadExact(t1, clk.min);
      AheadExact(t2, clk.min);
    }

    /** The times stored in the nodes compare like the times of their events. */
    lemma NodeVsTime(o: map<Blk, Ev>, hole: nat, i: nat, t: int)
      requires Holds(o, hole) && 1 <= i <= last_index && i != hole && min_time == Low(clk.min)
      requires clk.min <= t < clk.min + EVTTIM_MOD
      ensures Le(tmevt_heap[i - 1].time, Low(t)) <==> T(tmevt_heap[..], o, i) <= t
      ensures Le(Low(t), tmevt_heap[i - 1].time) <==> t <= T(tmevt_heap[..], o, i)
    {
      assert N(tmevt_heap[..], i) == tmevt_heap[i - 1];
      Compare(T(tmevt_heap[..], o, i), t);
    }

    lemma NodeVsNode(o: map<Blk, Ev>, hole: nat, i: nat, j: nat)
      requires Holds(o, hole) && 1 <= i <= last_index && i != hole && 1 <= j <= last_index && j != hole
               && min_time == Low(clk.min)
      ensures Lt(tmevt_heap[i - 1].time, tmevt_heap[j - 1].time) <==> T(tmevt_heap[..], o, i) < T(tmevt_heap[..], o, j)
    {
      assert N(tmevt_heap[..], i) == tmevt_heap[i - 1] && N(tmevt_heap[..], j) == tmevt_heap[j - 1];
      Compare(T(tmevt_heap[..], o, i), T(tmevt_heap[..], o, j));
    }

    /** What searching an insertion point leaves alone: all but the order of the nodes. */
    twostate predicate OnlyMoved()
      reads this, tmevt_heap
    {
      && last_index == old(last_index) && ev == old(ev) && clk == old(clk)
      && min_time == old(min_time) && current_time == old(current_time) && next_time == old(next_time)
      && next_subtime == old(next_subtime)
      && (forall i :: last_index <= i < tmevt_heap.Length ==> tmevt_heap[i] == old(tmevt_heap[i]))
      && (forall b :: b in old(tmevtb) ==> b in tmevtb && tmevtb[b].cb == old(tmevtb[b].cb))
    }

    /** Copies a node into the empty one and tells its block. */
    method MoveNode(hole: nat, from: nat)
      requires 1 <= hole <= last_index <= tmevt_heap.Length && 1 <= from <= tmevt_heap.Length
               && tmevt_heap[from - 1].blk in tmevtb
      modifies this`tmevtb, tmevt_heap
      ensures tmevt_heap[..] == Moved(old(tmevt_heap[..]), hole, from)
      ensures tmevtb == old(MovedTb(tmevt_heap[..], tmevtb, hole, from))
      ensures OnlyMoved()
    {
      ghost var a := tmevt_heap[..];
      tmevt_heap[hole - 1] := tmevt_heap[from - 1];
      var b := tmevt_heap[hole - 1].blk;
      assert b == N(a, from).blk;
      tmevtb := tmevtb[b := tmevtb[b].(index := hole)];
    }

    /** Moves the empty node up to where an event of the given time may be inserted. */
    method TmevtUp(hole: nat, time: nat, ghost t: int, ghost o: map<Blk, Ev>) returns (index: nat)
      requires Holds(o, hole) && 1 <= hole <= last_index && min_time == Low(clk.min)
      requires time == Low(t) && clk.min <= t < clk.min + EVTTIM_MOD
      requires ChildrenAfter(tmevt_heap[..], last_index, o, hole, t)
      modifies this`tmevtb, tmevt_heap
      ensures OnlyMoved() && Holds(o, index) && 1 <= index <= last_index
      ensures ChildrenAfter(tmevt_heap[..], last_index, o, index, t)
      ensures ParentBefore(tmevt_heap[..], last_index, o, index, t)
    {
      index := hole;
      while index > 1
        invariant OnlyMoved() && Holds(o, index) && 1 <= index <= last_index
        invariant ChildrenAfter(tmevt_heap[..], last_index, o, index, t)
      {
        var parent := index / 2;
        NodeVsTime(o, index, parent, t);
        if Le(tmevt_heap[parent - 1].time, time) {
          break;
        }
        StepUp(tmevt_heap[..], last_index, tmevtb, o, index, t, clk.min);
        MoveNode(index, parent);
        index := parent;
      }
    }

    /** The earlier of the two children. */
    method SelectChild(index: nat, lchild: nat, ghost o: map<Blk, Ev>) returns (child: nat)
      requires Holds(o, index) && 1 <= index && lchild == 2 * index <= last_index && min_time == Low(clk.min)
      ensures FirstChild(tmevt_heap[..], last_index, o, index, child) && index < child
    {
      FirstOfTwo(tmevt_heap[..], last_index, o, index);
      child := lchild;
      if child + 1 <= last_index {
        NodeVsNode(o, index, child + 1, child);
        if Lt(tmevt_heap[child].time, tmevt_heap[child - 1].time) {
          child := child + 1;
        }
      }
    }

    /** Moves the empty node down to where an event of the given time may be inserted. */
    method TmevtDown(hole: nat, time: nat, ghost t: int, ghost o: map<Blk, Ev>) returns (index: nat)
      requires Holds(o, hole) && 1 <= hole && min_time == Low(clk.min)
      requires time == Low(t) && clk.min <= t < clk.min + EVTTIM_MOD
      requires ParentBefore(tmevt_heap[..], last_index, o, hole, t)
      modifies this`tmevtb, tmevt_heap
      ensures OnlyMoved() && Holds(o, index) && (1 <= hole <= last_index ==> 1 <= index <= last_index)
      ensures hole > last_index ==> index == hole
      ensures ChildrenAfter(tmevt_heap[..], last_index, o, index, t)
      ensures ParentBefore(tmevt_heap[..], last_index, o, index, t)
    {
      index := hole;
      var child := 2 * index;
      while child <= last_index
        invariant OnlyMoved() && Holds(o, index) && 1 <= index && child == 2 * index
        invariant (hole <= last_index ==> index <= last_index) && (hole > last_index ==> index == hole)
        invariant ParentBefore(tmevt_heap[..], last_index, o, index, t)
        decreases last_index - index
      {
        child := SelectChild(index, child, o);
        NodeVsTime(o, index, child, t);
        if Le(time, tmevt_heap[child - 1].time) {
          AfterFirstChild(tmevt_heap[..], last_index, o, index, child, t);
          break;
        }
        StepDown(tmevt_heap[..], last_index, tmevtb, o, index, child, t, clk.min);
        MoveNode(index, child);
        index := child;
        child := 2 * index;
      }
    }

    /** Puts the event of block b into the empty node. */
    method PlaceNode(index: nat, time: nat, b: Blk, cb: Callback, ghost e: Ev, ghost o: map<Blk, Ev>)
      requires Holds(o, index) && 1 <= index <= last_index && b !in o
      requires time == Low(e.time) && cb == e.cb && clk.min <= e.time < clk.min + EVTTIM_MOD
      requires ChildrenAfter(tmevt_heap[..], last_index, o, index, e.time)
      requires ParentBefore(tmevt_heap[..], last_index, o, index, e.time)
      modifies this`tmevtb, tmevt_heap
      ensures Holds(o[b := e], 0)
    {
      ghost var a := tmevt_heap[..];
      Fill(a, last_index, tmevtb, o, index, b, e);
      tmevt_heap[index - 1] := TMEVTN(time, b);
      assert tmevt_heap[..] == a[index - 1 := TMEVTN(Low(e.time), b)];
      tmevtb := tmevtb[b := TMEVTB(index, cb)];
    }

    /** There is a node left for a block that is not registered. */
    lemma NotFull(b: Blk)
      requires Valid() && b in blks && b !in ev
      ensures last_index < tmevt_heap.Length
    {
      NodesCounted(tmevt_heap[..], last_index, tmevtb, ev);
      SubsetSize(ev.Keys + {b}, blks);
      assert |ev.Keys + {b}| == |ev.Keys| + 1;
    }

    /** tmevtb_insert, after the callback has been set as tmevtb_enqueue does. */
    method Insert(b: Blk, time: nat, cb: Callback, ghost e: Ev)
      requires Valid() && b in blks && b !in ev
      requires time == Low(e.time) && cb == e.cb && clk.min <= e.time < clk.min + EVTTIM_MOD
      modifies this, tmevt_heap
      ensures Valid() && ev == old(ev)[b := e] && clk == old(clk)
    {
      hide NodesOk, Ordered, ChildrenAfter, ParentBefore;
      NotFull(b);
      ghost var o := ev;
      OpenLast(tmevt_heap[..], last_index, tmevtb, o, e.time, clk.min);
      last_index := last_index + 1;
      var index := TmevtUp(last_index, time, e.time, o);
      PlaceNode(index, time, b, cb, e, o);
      ev := o[b := e];
    }

    /** tmevtb_enqueue: rel milliseconds from the end of the current tick interval. */
    method Enqueue(b: Blk, rel: nat, cb: Callback)
      requires Valid() && b in blks && b !in ev && ticDeno > 0
      requires clk.min <= Base(clk) + rel < clk.min + EVTTIM_MOD
      modifies this, tmevt_heap
      ensures Valid() && ev == old(ev)[b := Ev(Base(clk) + rel, cb, clk.ticks, rel)] && clk == old(clk)
    {
      var base_time := (next_time + if next_subtime > 0 then 1 else 0) % EVTTIM_MOD;
      ghost var e := Ev(Base(clk) + rel, cb, clk.ticks, rel);
      LowAdd(clk.nxt, if next_subtime > 0 then 1 else 0);
      LowAdd(Base(clk), rel);
      Insert(b, (base_time + rel) % EVTTIM_MOD, cb, e);
    }

    /** Copies the node behind the last one into the empty node and tells its block: the end of every
        deletion. */
    method PlaceLast(index: nat, ghost e: Ev, ghost o: map<Blk, Ev>)
      requires 1 <= index <= last_index + 1 <= tmevt_heap.Length && Holds(o, index)
      requires var x := tmevt_heap[last_index];
               x.blk !in o && x.blk in tmevtb && tmevtb[x.blk].cb == e.cb && x.time == Low(e.time)
      requires clk.min <= e.time < clk.min + EVTTIM_MOD
      requires ChildrenAfter(tmevt_heap[..], last_index, o, index, e.time)
      requires ParentBefore(tmevt_heap[..], last_index, o, index, e.time)
      modifies this`tmevtb, tmevt_heap
      ensures Holds(if index <= last_index then o[old(tmevt_heap[last_index].blk) := e] else o, 0)
    {
      ghost var a, tb := tmevt_heap[..], tmevtb;
      var b := tmevt_heap[last_index].blk;
      if index <= last_index {
        Fill(a, last_index, tmevtb, o, index, b, e);
      } else {
        HoleOutside(a, last_index, tmevtb, o, clk.min);
        ForeignBlock(a, last_index, tmevtb, o, 0, clk.min, b, tmevtb[b].(index := index));
      }
      tmevt_heap[index - 1] := tmevt_heap[last_index];
      tmevtb := tmevtb[b := tmevtb[b].(index := index)];
      assert tmevtb == tb[b := TMEVTB(index, e.cb)];
      if index <= last_index {
        assert tmevt_heap[..] == a[index - 1 := TMEVTN(Low(e.time), b)];
      } else {
        assert tmevt_heap[..] == a;
      }
    }

    /** Unregisters block b: its node becomes the empty one, the last node is cut off. */
    method Cut(b: Blk) returns (index: nat, event_time: nat, ghost e: Ev, ghost o: map<Blk, Ev>)
      requires Valid() && b in ev
      modifies this`last_index, this`ev
      ensures index == old(tmevtb[b].index) && last_index == old(last_index) - 1
      ensures 1 <= index <= last_index + 1 <= tmevt_heap.Length && ClockOk() && Fits(ev, blks, tmevt_heap.Length)
      ensures ev == old(ev) - {b} && Holds(o, index)
      ensures event_time == Low(e.time) && clk.min <= e.time < clk.min + EVTTIM_MOD
      ensures var x := tmevt_heap[last_index];
              && x.blk !in o && x.blk in tmevtb && tmevtb[x.blk].cb == e.cb && x.time == Low(e.time)
              && ev == if index <= last_index then o[x.blk := e] else o
      ensures index > last_index ==> ParentBefore(tmevt_heap[..], last_index, o, index, e.time)
    {
      OpenNode(tmevt_heap[..], last_index, tmevtb, ev, b, clk.min);
      assert N(tmevt_heap[..], last_index) == tmevt_heap[last_index - 1];
      index := tmevtb[b].index;
      event_time := tmevt_heap[last_index - 1].time;
      ghost var x := tmevt_heap[last_index - 1].blk;
      e, o := ev[x], ev - {b} - {x};
      ev := ev - {b};
      last_index := last_index - 1;
      assert ev == if index <= last_index then o[x := e] else o;
    }

    /** tmevtb_delete: any registered block, wherever its node is. */
    method Delete(b: Blk)
      requires Valid() && b in ev
      modifies this, tmevt_heap
      ensures Valid() && ev == old(ev) - {b} && clk == old(clk)
    {
      hide NodesOk, Ordered, ChildrenAfter, ParentBefore;
      var index, event_time;
      ghost var e, o;
      index, event_time, e, o := Cut(b);
      if last_index == 0 {
        HoleOutside(tmevt_heap[..], last_index, tmevtb, o, clk.min);
        return;
      }
      index := Reinsert(index, event_time, e.time, o);
      PlaceLast(index, e, o);
    }

    /** Searches, from the node of a deleted event, the place for the event of the last node: upwards
        if it is earlier than the parent of the deleted one, otherwise downwards. */
    method Reinsert(hole: nat, time: nat, ghost t: int, ghost o: map<Blk, Ev>) returns (index: nat)
      requires Holds(o, hole) && 1 <= hole <= last_index + 1 && 1 <= last_index && min_time == Low(clk.min)
      requires time == Low(t) && clk.min <= t < clk.min + EVTTIM_MOD
      requires hole > last_index ==> ParentBefore(tmevt_heap[..], last_index, o, hole, t)
      modifies this`tmevtb, tmevt_heap
      ensures OnlyMoved() && Holds(o, index) && (if hole <= last_index then 1 <= index <= last_index else index == hole)
      ensures ChildrenAfter(tmevt_heap[..], last_index, o, index, t)
      ensures ParentBefore(tmevt_heap[..], last_index, o, index, t)
    {
      var up := false;
      if hole > 1 {
        NodeVsTime(o, hole, hole / 2, t);
        up := Lt(time, tmevt_heap[hole / 2 - 1].time);
      }
      if up {
        StepUp(tmevt_heap[..], last_index, tmevtb, o, hole, t, clk.min);
        MoveNode(hole, hole / 2);
        index := TmevtUp(hole / 2, time, t, o);
      } else {
        index := TmevtDown(hole, time, t, o);
      }
    }

    /** tmevtb_delete_top: unregisters the block at the root. */
    method DeleteTop(ghost b: Blk)
      requires Valid() && b in ev && b in tmevtb && tmevtb[b].index == 1
      modifies this, tmevt_heap
      ensures Valid() && ev == old(ev) - {b} && clk == old(clk)
    {
      hide NodesOk, Ordered, ChildrenAfter, ParentBefore;
      var index, event_time;
      ghost var e, o;
      RootIs(b);
      index, event_time, e, o := Cut(tmevt_heap[0].blk);
      if last_index == 0 {
        HoleOutside(tmevt_heap[..], last_index, tmevtb, o, clk.min);
        return;
      }
      NoParent(tmevt_heap[..], last_index, o, e.time);
      index := TmevtDown(1, event_time, e.time, o);
      PlaceLast(index, e, o);
    }

    /** The block at the root, and its callback: an earliest event. */
    method TopBlock() returns (b: Blk, cb: Callback)
      requires Valid() && last_index > 0
      ensures b in ev && b in tmevtb && tmevtb[b].index == 1 && cb == ev[b].cb
      ensures forall b' :: b' in ev ==> ev[b].time <= ev[b'].time
    {
      RootInfo();
      b := tmevt_heap[0].blk;
      cb := tmevtb[b].cb;
    }

    lemma RootIs(b: Blk)
      requires Valid() && b in ev && b in tmevtb && tmevtb[b].index == 1
      ensures last_index > 0 && tmevt_heap.Length > 0 && tmevt_heap[0].blk == b
    {
      assert N(tmevt_heap[..], 1).blk == b;
    }

    lemma RootInfo()
      requires Valid() && last_index > 0
      ensures var b := tmevt_heap[0].blk;
              && b in ev && b in tmevtb && tmevtb[b] == TMEVTB(1, ev[b].cb) && tmevt_heap[0].time == Low(ev[b].time)
              && forall b' :: b' in ev ==> ev[b].time <= ev[b'].time
    {
      var b := tmevt_heap[0].blk;
      assert N(tmevt_heap[..], 1) == tmevt_heap[0];
      forall b' | b' in ev ensures ev[b].time <= ev[b'].time {
        assert N(tmevt_heap[..], tmevtb[b'].index).blk == b';
        RootIsEarliest(tmevt_heap[..], last_index, tmevtb, ev, tmevtb[b'].index);
      }
    }

    /** The test of the loop of signal_time: is an event due? */
    method TopIsDue() returns (r: bool)
      requires Valid()
      ensures r <==> exists b :: b in ev && ev[b].time <= clk.cur
      ensures r ==> last_index > 0
    {
      if last_index == 0 {
        HoleOutside(tmevt_heap[..], 0, tmevtb, ev, clk.min);
        return false;
      }
      RootInfo();
      NodeVsTime(ev, 0, 1, clk.cur);
      assert N(tmevt_heap[..], 1) == tmevt_heap[0];
      r := Le(tmevt_heap[0].time, current_time);
    }

    /** tmevt_lefttim. */
    method LeftTim(b: Blk) returns (left: nat)
      requires Valid() && b in ev
      requires clk.min <= Base(clk) < clk.min + EVTTIM_MOD
      ensures left == if ev[b].time <= clk.nxt then 0 else Low(ev[b].time - Base(clk))
    {
      var index := tmevtb[b].index;
      assert N(tmevt_heap[..], index).blk == b;
      assert N(tmevt_heap[..], index) == tmevt_heap[index - 1];
      var time := tmevt_heap[index - 1].time;
      NodeVsTime(ev, 0, index, clk.nxt);
      if Le(time, next_time) {
        return 0;
      }
      var base_time := (next_time + if next_subtime > 0 then 1 else 0) % EVTTIM_MOD;
      LowAdd(clk.nxt, if next_subtime > 0 then 1 else 0);
      LowSub(ev[b].time, Base(clk));
      left := (time - base_time) % EVTTIM_MOD;
    }

    /** First part of signal_time: the clock advances by a tick. */
    method Tick(ghost g: Config)
      requires Valid() && ValidConfig(g) && ticNume == g.ticNume && ticDeno == g.ticDeno
      requires Advance(g, clk).nxt < clk.min + EVTTIM_MOD
      modifies this
      ensures Valid() && ev == old(ev) && clk == Advance(g, old(clk))
    {
      var n, r := ticNume / ticDeno, ticNume % ticDeno;
      assert 0 <= n;
      LowAdd(clk.nxt, n);
      LowAdd(clk.nxt + n, 1);
      AdvanceIs(g, clk);
      current_time := next_time;
      next_subtime := next_subtime + r;
      next_time := (current_time + n) % EVTTIM_MOD;
      if next_subtime >= ticDeno {
        next_subtime := next_subtime - ticDeno;
        next_time := (next_time + 1) % EVTTIM_MOD;
      }
      clk := Advance(g, clk);
    }

    lemma AdvanceIs(g: Config, k: Clock)
      requires ValidConfig(g)
      ensures var n, s := g.ticNume / g.ticDeno, k.sub + g.ticNume % g.ticDeno; var k' := Advance(g, k);
              && 0 <= n && k'.cur == k.nxt && k'.min == k.min
              && k'.nxt == k.nxt + n + (if s >= g.ticDeno then 1 else 0)
              && k'.sub == (if s >= g.ticDeno then s - g.ticDeno else s)
    {
    }

    /** Last part of signal_time: min_time catches up.  All that is queued lies ahead of it. */
    method EndTick()
      requires Valid() && forall b :: b in ev ==> clk.cur < ev[b].time < clk.cur + EVTTIM_MOD
      modifies this
      ensures Valid() && ev == old(ev) && clk == old(clk).(min := old(clk).cur, ended := old(clk).ticks)
    {
      min_time := current_time;
      clk := clk.(min := clk.cur, ended := clk.ticks);
    }
  }
}
