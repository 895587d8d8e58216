/**
  The event heap as a sequence of nodes with one empty position, and what moving the empty position
  up or down does to it.  Times of the registered events are unbounded here; a node holds the lower
  32 bits.
 */
module HeapNodes {
  import opened Types

  /** A node of the heap, and the heap's part of a time event block. */
  datatype TMEVTN = TMEVTN(time: nat, blk: Blk)
  datatype TMEVTB = TMEVTB(index: nat, cb: Callback)

  function Low(t: int): nat { t % EVTTIM_MOD }

  /** TMEVT_NODE(i): positions count from 1. */
  function N(a: seq<TMEVTN>, i: int): TMEVTN
    requires 1 <= i <= |a|
  {
    a[i - 1]
  }

  /** Everywhere but at the hole a node and its block point at each other; ev are the registered
      events that have a node. */
  ghost predicate NodesOk(a: seq<TMEVTN>, last: nat, tb: map<Blk, TMEVTB>, ev: map<Blk, Ev>, hole: nat) {
    && last <= |a|
    && (forall i {:trigger N(a, i)} :: 1 <= i <= last && i != hole ==>
          N(a, i).blk in ev && N(a, i).time == Low(ev[N(a, i).blk].time)
          && N(a, i).blk in tb && tb[N(a, i).blk].index == i)
    && (forall b :: b in ev ==>
          b in tb && 1 <= tb[b].index <= last && tb[b].index != hole && N(a, tb[b].index).blk == b
            && tb[b].cb == ev[b].cb)
  }

  /** Occurrence time of the event at position i. */
  function T(a: seq<TMEVTN>, ev: map<Blk, Ev>, i: int): int
    requires 1 <= i <= |a|
  {
    if N(a, i).blk in ev then ev[N(a, i).blk].time else 0
  }

  /** No event is earlier than that of its parent; across the hole, than that of its grandparent. */
  ghost predicate Ordered(a: seq<TMEVTN>, last: nat, ev: map<Blk, Ev>, hole: nat) {
    && last <= |a|
    && (forall i, p {:trigger T(a, ev, i), T(a, ev, p)} :: 2 <= i <= last && p == i / 2 && i != hole && p != hole ==>
          T(a, ev, p) <= T(a, ev, i))
    && (hole >= 2 ==> forall i {:trigger T(a, ev, i)} :: 2 <= i <= last && i / 2 == hole && hole / 2 <= last ==>
          T(a, ev, hole / 2) <= T(a, ev, i))
  }

  /** Nothing below the hole is earlier than t. */
  ghost predicate ChildrenAfter(a: seq<TMEVTN>, last: nat, ev: map<Blk, Ev>, hole: nat, t: int) {
    last <= |a| && forall i {:trigger T(a, ev, i)} :: 2 <= i <= last && i / 2 == hole ==> t <= T(a, ev, i)
  }

  /** Nothing above the hole is later than t. */
  ghost predicate ParentBefore(a: seq<TMEVTN>, last: nat, ev: map<Blk, Ev>, hole: nat, t: int) {
    last <= |a| && (hole >= 2 && hole / 2 <= last ==> T(a, ev, hole / 2) <= t)
  }

  lemma NoParent(a: seq<TMEVTN>, last: nat, ev: map<Blk, Ev>, t: int)
    requires last <= |a|
    ensures ParentBefore(a, last, ev, 1, t)
  {
  }

  function Moved(a: seq<TMEVTN>, hole: nat, from: nat): seq<TMEVTN>
    requires 1 <= hole <= |a| && 1 <= from <= |a|
  {
    a[hole - 1 := a[from - 1]]
  }

  function MovedTb(a: seq<TMEVTN>, tb: map<Blk, TMEVTB>, hole: nat, from: nat): map<Blk, TMEVTB>
    requires 1 <= from <= |a| && N(a, from).blk in tb
  {
    tb[N(a, from).blk := tb[N(a, from).blk].(index := hole)]
  }

  lemma MoveNodes(a: seq<TMEVTN>, last: nat, tb: map<Blk, TMEVTB>, ev: map<Blk, Ev>, hole: nat, from: nat)
    requires NodesOk(a, last, tb, ev, hole) && 1 <= hole <= last && 1 <= from <= last && from != hole
    ensures N(a, from).blk in tb
    ensures NodesOk(Moved(a, hole, from), last, MovedTb(a, tb, hole, from), ev, from)
    ensures forall i :: 1 <= i <= last && i != hole ==> T(Moved(a, hole, from), ev, i) == T(a, ev, i)
    ensures T(Moved(a, hole, from), ev, hole) == T(a, ev, from)
  {
    var x := N(a, from);
    var a', tb' := Moved(a, hole, from), MovedTb(a, tb, hole, from);
    assert forall i :: 1 <= i <= last ==> N(a', i) == if i == hole then x else N(a, i);
    forall b | b in ev
      ensures b in tb' && 1 <= tb'[b].index <= last && tb'[b].index != from && N(a', tb'[b].index).blk == b
              && tb'[b].cb == ev[b].cb
    {
      if b != x.blk { assert N(a, tb[b].index).blk == b; }
    }
  }

  /** The parent moves down into the hole. */
  lemma MoveUp(a: seq<TMEVTN>, last: nat, tb: map<Blk, TMEVTB>, ev: map<Blk, Ev>, hole: nat, t: int)
    requires NodesOk(a, last, tb, ev, hole) && Ordered(a, last, ev, hole) && 2 <= hole <= last
    requires T(a, ev, hole / 2) > t
    ensures var a' := Moved(a, hole, hole / 2);
            Ordered(a', last, ev, hole / 2) && ChildrenAfter(a', last, ev, hole / 2, t)
  {
    var p := hole / 2;
    MoveNodes(a, last, tb, ev, hole, p);
    var a' := Moved(a, hole, p);
    forall i, q | 2 <= i <= last && q == i / 2 && i != p && q != p ensures T(a', ev, q) <= T(a', ev, i) {
      if i != hole && q != hole { assert T(a, ev, q) <= T(a, ev, i); }
      if q == hole { assert T(a, ev, p) <= T(a, ev, i); }
    }
    forall i | 2 <= i <= last && i / 2 == p
      ensures t <= T(a', ev, i) && (p >= 2 ==> T(a', ev, p / 2) <= T(a', ev, i))
    {
      if p >= 2 { assert T(a, ev, p / 2) <= T(a, ev, p); }
      if i != hole { assert T(a, ev, p) <= T(a, ev, i); }
    }
  }

  /** The earlier child moves up into the hole. */
  lemma MoveDown(a: seq<TMEVTN>, last: nat, tb: map<Blk, TMEVTB>, ev: map<Blk, Ev>, hole: nat, child: nat, t: int)
    requires NodesOk(a, last, tb, ev, hole) && Ordered(a, last, ev, hole) && 1 <= hole < child <= last
             && child / 2 == hole
    requires forall i {:trigger T(a, ev, i)} :: 2 <= i <= last && i / 2 == hole ==> T(a, ev, child) <= T(a, ev, i)
    requires T(a, ev, child) < t
    ensures var a' := Moved(a, hole, child);
            Ordered(a', last, ev, child) && ParentBefore(a', last, ev, child, t)
  {
    MoveNodes(a, last, tb, ev, hole, child);
    var a' := Moved(a, hole, child);
    forall i, q | 2 <= i <= last && q == i / 2 && i != child && q != child ensures T(a', ev, q) <= T(a', ev, i) {
      if i != hole && q != hole { assert T(a, ev, q) <= T(a, ev, i); }
      if i == hole { assert T(a, ev, hole / 2) <= T(a, ev, child); }
    }
    forall i | 2 <= i <= last && i / 2 == child ensures T(a', ev, child / 2) <= T(a', ev, i) {
      assert T(a, ev, child) <= T(a, ev, i);
    }
  }

  /** Every queued time is less than 2^32 ahead of min_time. */
  ghost predicate InRange(ev: map<Blk, Ev>, min: int) {
    forall b :: b in ev ==> min <= ev[b].time < min + EVTTIM_MOD
  }

  /** A heap of the events ev with an empty node at hole. */
  ghost predicate Holding(a: seq<TMEVTN>, last: nat, tb: map<Blk, TMEVTB>, ev: map<Blk, Ev>, hole: nat, min: int) {
    NodesOk(a, last, tb, ev, hole) && Ordered(a, last, ev, hole) && InRange(ev, min)
  }

  lemma StepUp(a: seq<TMEVTN>, last: nat, tb: map<Blk, TMEVTB>, ev: map<Blk, Ev>, hole: nat, t: int, min: int)
    requires Holding(a, last, tb, ev, hole, min) && 2 <= hole <= last && T(a, ev, hole / 2) > t
    ensures N(a, hole / 2).blk in tb
    ensures Holding(Moved(a, hole, hole / 2), last, MovedTb(a, tb, hole, hole / 2), ev, hole / 2, min)
    ensures ChildrenAfter(Moved(a, hole, hole / 2), last, ev, hole / 2, t)
  {
    MoveNodes(a, last, tb, ev, hole, hole / 2);
    MoveUp(a, last, tb, ev, hole, t);
  }

  lemma StepDown(a: seq<TMEVTN>, last: nat, tb: map<Blk, TMEVTB>, ev: map<Blk, Ev>, hole: nat, child: nat, t: int,
      min: int)
    requires Holding(a, last, tb, ev, hole, min) && 1 <= hole < child <= last && child / 2 == hole
             && T(a, ev, child) < t
    requires FirstChild(a, last, ev, hole, child)
    ensures N(a, child).blk in tb
    ensures Holding(Moved(a, hole, child), last, MovedTb(a, tb, hole, child), ev, child, min)
    ensures ParentBefore(Moved(a, hole, child), last, ev, child, t)
  {
    MoveNodes(a, last, tb, ev, hole, child);
    MoveDown(a, last, tb, ev, hole, child, t);
  }

  /** child is the earlier of the children of the hole. */
  ghost predicate FirstChild(a: seq<TMEVTN>, last: nat, ev: map<Blk, Ev>, hole: nat, child: nat) {
    && last <= |a| && 1 <= child <= last && child / 2 == hole
    && forall i {:trigger T(a, ev, i)} :: 2 <= i <= last && i / 2 == hole ==> T(a, ev, child) <= T(a, ev, i)
  }

  lemma AfterFirstChild(a: seq<TMEVTN>, last: nat, ev: map<Blk, Ev>, hole: nat, child: nat, t: int)
    requires FirstChild(a, last, ev, hole, child) && t <= T(a, ev, child)
    ensures ChildrenAfter(a, last, ev, hole, t)
  {
  }

  /** Choosing between the two children. */
  lemma FirstOfTwo(a: seq<TMEVTN>, last: nat, ev: map<Blk, Ev>, hole: nat)
    requires 1 <= hole && 2 * hole <= last <= |a|
    ensures (2 * hole + 1 > last || T(a, ev, 2 * hole) <= T(a, ev, 2 * hole + 1)) ==>
            FirstChild(a, last, ev, hole, 2 * hole)
    ensures (2 * hole + 1 <= last && T(a, ev, 2 * hole + 1) <= T(a, ev, 2 * hole)) ==>
            FirstChild(a, last, ev, hole, 2 * hole + 1)
  {
    assert forall i :: 2 <= i <= last && i / 2 == hole ==> i == 2 * hole || i == 2 * hole + 1;
  }

  /** A new node fills the hole. */
  lemma Fill(a: seq<TMEVTN>, last: nat, tb: map<Blk, TMEVTB>, ev: map<Blk, Ev>, hole: nat, b: Blk, e: Ev)
    requires NodesOk(a, last, tb, ev, hole) && Ordered(a, last, ev, hole) && 1 <= hole <= last && b !in ev
    requires ChildrenAfter(a, last, ev, hole, e.time) && ParentBefore(a, last, ev, hole, e.time)
    ensures var a' := a[hole - 1 := TMEVTN(Low(e.time), b)];
            NodesOk(a', last, tb[b := TMEVTB(hole, e.cb)], ev[b := e], 0) && Ordered(a', last, ev[b := e], 0)
  {
    var a', ev' := a[hole - 1 := TMEVTN(Low(e.time), b)], ev[b := e];
    assert forall i :: 1 <= i <= last ==> N(a', i) == if i == hole then TMEVTN(Low(e.time), b) else N(a, i);
    assert forall i :: 1 <= i <= last && i != hole ==> T(a', ev', i) == T(a, ev, i);
    assert T(a', ev', hole) == e.time;
    forall x | x in ev ensures N(a', tb[x].index).blk == x { assert N(a, tb[x].index).blk == x; }
    forall i, q | 2 <= i <= last && q == i / 2 ensures T(a', ev', q) <= T(a', ev', i) {
      if i != hole && q != hole { assert T(a, ev, q) <= T(a, ev, i); }
      if q == hole { assert e.time <= T(a, ev, i); }
    }
  }

  /** Removing the event at a position: its node becomes the empty one, and the last node, x, leaves
      the heap to be inserted again. */
  lemma OpenNode(a: seq<TMEVTN>, last: nat, tb: map<Blk, TMEVTB>, ev: map<Blk, Ev>, b: Blk, min: int)
    requires Holding(a, last, tb, ev, 0, min) && b in ev
    ensures b in tb && 1 <= tb[b].index <= last && N(a, last).blk in ev
    ensures var index, x := tb[b].index, N(a, last); var o := ev - {b} - {x.blk};
            && x.time == Low(ev[x.blk].time) && min <= ev[x.blk].time < min + EVTTIM_MOD
            && x.blk in tb && tb[x.blk] == TMEVTB(last, ev[x.blk].cb)
            && Holding(a, last - 1, tb, o, index, min)
            && (x.blk == b <==> index == last)
            && (index == last ==> ParentBefore(a, last - 1, o, index, ev[x.blk].time))
            && (forall i :: 1 <= i < last && i != index ==> T(a, o, i) == T(a, ev, i))
  {
    var index, x := tb[b].index, N(a, last);
    var o := ev - {b} - {x.blk};
    assert N(a, index).blk == b;
    forall i | 1 <= i < last && i != index ensures N(a, i).blk in o {
      assert tb[N(a, i).blk].index == i;
    }
    forall y | y in o ensures 1 <= tb[y].index <= last - 1 && tb[y].index != index && N(a, tb[y].index).blk == y {
      assert N(a, tb[y].index).blk == y;
    }
    OpenOrder(a, last, tb, ev, o, index);
    if index == last && index >= 2 { assert T(a, ev, index / 2) <= T(a, ev, index); }
  }

  lemma OpenOrder(a: seq<TMEVTN>, last: nat, tb: map<Blk, TMEVTB>, ev: map<Blk, Ev>, o: map<Blk, Ev>, index: nat)
    requires NodesOk(a, last, tb, ev, 0) && Ordered(a, last, ev, 0) && 1 <= index <= last
    requires forall b :: b in o ==> b in ev && o[b] == ev[b]
    requires forall i :: 1 <= i < last && i != index ==> N(a, i).blk in o
    ensures Ordered(a, last - 1, o, index)
  {
    assert forall i :: 1 <= i < last && i != index ==> T(a, o, i) == T(a, ev, i);
    forall i | 2 <= i <= last - 1 && i / 2 == index && index >= 2
      ensures T(a, o, index / 2) <= T(a, o, i)
    {
      assert T(a, ev, index / 2) <= T(a, ev, index) && T(a, ev, index) <= T(a, ev, i);
    }
    forall i, p | 2 <= i <= last - 1 && p == i / 2 && i != index && p != index ensures T(a, o, p) <= T(a, o, i) {
      assert T(a, ev, p) <= T(a, ev, i);
    }
  }

  /** An empty node behind the last one is none; a heap without nodes has no events. */
  lemma HoleOutside(a: seq<TMEVTN>, last: nat, tb: map<Blk, TMEVTB>, ev: map<Blk, Ev>, min: int)
    requires Holding(a, last, tb, ev, last + 1, min)
    ensures Holding(a, last, tb, ev, 0, min)
    ensures last == 0 ==> ev == map[]
  {
  }

  /** One more node, empty, at the end. */
  lemma OpenLast(a: seq<TMEVTN>, last: nat, tb: map<Blk, TMEVTB>, ev: map<Blk, Ev>, t: int, min: int)
    requires Holding(a, last, tb, ev, 0, min) && last < |a|
    ensures Holding(a, last + 1, tb, ev, last + 1, min) && ChildrenAfter(a, last + 1, ev, last + 1, t)
  {
  }

  /** The fields of a block that is not registered do not matter. */
  lemma ForeignBlock(a: seq<TMEVTN>, last: nat, tb: map<Blk, TMEVTB>, ev: map<Blk, Ev>, hole: nat, min: int, b: Blk,
      v: TMEVTB)
    requires Holding(a, last, tb, ev, hole, min) && b !in ev
    ensures Holding(a, last, tb[b := v], ev, hole, min)
  {
  }

  lemma LowAdd(t: int, r: int)
    ensures (Low(t) + r) % EVTTIM_MOD == Low(t + r)
  {
    var m := EVTTIM_MOD;
    assert t == m * (t / m) + Low(t);
    ModShift(Low(t) + r, t / m);
    assert Low(t) + r + m * (t / m) == t + r;
  }

  lemma ModShift(x: int, k: int)
    ensures (x + EVTTIM_MOD * k) % EVTTIM_MOD == x % EVTTIM_MOD
  {
    var m := EVTTIM_MOD;
    var y := x + m * k;
    assert x == m * (x / m) + x % m && y == m * (y / m) + y % m;
    var d := y / m - x / m - k;
    assert m * d == x % m - y % m;
    assert d == 0;
  }

  lemma LowSub(t: int, r: int)
    ensures (Low(t) - Low(r)) % EVTTIM_MOD == Low(t - r)
  {
    var m := EVTTIM_MOD;
    assert t == m * (t / m) + Low(t) && r == m * (r / m) + Low(r);
    ModShift(Low(t) - Low(r), t / m - r / m);
    assert Low(t) - Low(r) + m * (t / m - r / m) == t - r;
  }

  /** The root is the earliest event. */
  lemma {:induction false} RootIsEarliest(a: seq<TMEVTN>, last: nat, tb: map<Blk, TMEVTB>, ev: map<Blk, Ev>, i: nat)
    requires NodesOk(a, last, tb, ev, 0) && Ordered(a, last, ev, 0) && 1 <= i <= last
    ensures T(a, ev, 1) <= T(a, ev, i)
  {
    if i > 1 {
      RootIsEarliest(a, last, tb, ev, i / 2);
      assert T(a, ev, i / 2) <= T(a, ev, i);
    }
  }

  /** Comparison relative to min_time, modulo 2^32, is comparison of the unbounded times, as long as
      both lie less than 2^32 ahead of min_time. */
  function Ahead(t: nat, min: nat): nat { (t - min) % EVTTIM_MOD }

  lemma AheadExact(t: int, min: int)
    requires min <= t < min + EVTTIM_MOD
    ensures Ahead(Low(t), Low(min)) == t - min
  {
    var m := EVTTIM_MOD;
    var d := Low(t) - Low(min);
    assert t == m * (t / m) + Low(t) && min == m * (min / m) + Low(min);
    assert t - min == m * (t / m - min / m) + d;
    assert t / m - min / m == 0 || t / m - min / m == 1;
  }

  /** EVTTIM_LT on the 32-bit times. */
  predicate Before(t: int, u: int, min: int) { Ahead(Low(t), Low(min)) < Ahead(Low(u), Low(min)) }

  predicate InWindow(t: int, min: int) { min <= t < min + EVTTIM_MOD }

  /** A time that is not within 2^32 of min_time is compared wrongly with one that is; and two times that
      are both within it are always compared correctly. */
  lemma ComparedRightInWindow(t: int, min: int)
    ensures InWindow(t, min) <==>
            forall u :: InWindow(u, min) ==> (Before(t, u, min) <==> t < u) && (Before(u, t, min) <==> u < t)
  {
    var last := min + EVTTIM_MOD - 1;
    if InWindow(t, min) {
      forall u | InWindow(u, min) ensures (Before(t, u, min) <==> t < u) && (Before(u, t, min) <==> u < t) {
        AheadExact(t, min);
        AheadExact(u, min);
      }
    } else if t < min {
      AheadExact(min, min);
      assert InWindow(min, min) && !Before(t, min, min);
    } else {
      AheadExact(last, min);
      AheadBelow(Low(t), Low(min));
      assert InWindow(last, min) && !Before(last, t, min);
    }
  }

  lemma AheadBelow(t: nat, min: nat)
    ensures 0 <= Ahead(t, min) < EVTTIM_MOD
  {
  }
}
