/**
  The circular doubly linked queues of include/queue.h.  Every header and every task has one link, a
  pair of pointers; the queues are what following the pointers gives.
 */
module Links {
  import opened Types
  import opened Seqs
  import opened TaskQueues

  /** Address of a link: that of a queue header or the task_queue field of a control block. */
  datatype Link = Head(h: QId) | Node(t: Tid)

  /** Following the pointers from the header of h passes through the links of s and comes back, in
      both directions. */
  ghost predicate Ring(next: map<Link, Link>, prev: map<Link, Link>, h: QId, s: seq<Tid>) {
    && Head(h) in next && Head(h) in prev
    && (forall i :: 0 <= i < |s| ==> Node(s[i]) in next && Node(s[i]) in prev)
    && next[Head(h)] == (if s == [] then Head(h) else Node(s[0]))
    && prev[Head(h)] == (if s == [] then Head(h) else Node(s[|s| - 1]))
    && (s != [] ==> prev[Node(s[0])] == Head(h) && next[Node(s[|s| - 1])] == Head(h))
    && (forall i, j {:trigger s[i], s[j]} :: 0 <= i < |s| && j == i + 1 && j < |s| ==>
          next[Node(s[i])] == Node(s[j]) && prev[Node(s[j])] == Node(s[i]))
  }

  /** queue_initialize. */
  lemma EmptyRing(next: map<Link, Link>, prev: map<Link, Link>, h: QId)
    requires Head(h) in next && Head(h) in prev && next[Head(h)] == Head(h) == prev[Head(h)]
    ensures Ring(next, prev, h, [])
  {
  }

  /** No link is in two queues, or twice in one. */
  ghost predicate Disjoint(q: map<QId, seq<Tid>>) {
    && (forall h :: h in q ==> NoDup(q[h]))
    && (forall h, h', t: Tid :: h in q && h' in q && On(q, h, t) && On(q, h', t) ==> h == h')
  }

  lemma RingFrame(next: map<Link, Link>, prev: map<Link, Link>, next': map<Link, Link>, prev': map<Link, Link>, h: QId,
      s: seq<Tid>)
    requires Ring(next, prev, h, s)
    requires Head(h) in next' && Head(h) in prev' && next'[Head(h)] == next[Head(h)] && prev'[Head(h)] == prev[Head(h)]
    requires forall i :: 0 <= i < |s| ==> Node(s[i]) in next' && Node(s[i]) in prev'
    requires forall i :: 0 <= i < |s| ==> next'[Node(s[i])] == next[Node(s[i])] && prev'[Node(s[i])] == prev[Node(s[i])]
    ensures Ring(next', prev', h, s)
  {
  }

  /** Cell k of the ring of s: the header is cell |s|. */
  function Cell(h: QId, s: seq<Tid>, k: nat): Link
    requires k <= |s|
  {
    if k == |s| then Head(h) else Node(s[k])
  }

  function CellBefore(h: QId, s: seq<Tid>, k: nat): Link
    requires k <= |s|
  {
    if k == 0 then Head(h) else Node(s[k - 1])
  }

  lemma RingInsert(next: map<Link, Link>, prev: map<Link, Link>, h: QId, s: seq<Tid>, k: nat, e: Tid)
    requires Ring(next, prev, h, s) && NoDup(s) && e !in s && k <= |s| && Node(e) in next && Node(e) in prev
    ensures var b, p := CellBefore(h, s, k), Cell(h, s, k);
            Ring(next[Node(e) := p][b := Node(e)], prev[Node(e) := b][p := Node(e)], h, s[..k] + [e] + s[k..])
  {
    var b, p := CellBefore(h, s, k), Cell(h, s, k);
    var n, v, r := next[Node(e) := p][b := Node(e)], prev[Node(e) := b][p := Node(e)], s[..k] + [e] + s[k..];
    assert forall i :: 0 <= i < k ==> r[i] == s[i];
    assert forall i :: k < i < |r| ==> r[i] == s[i - 1];
    assert forall i :: 0 <= i < |s| ==> s[i] != e;
    forall i, j | 0 <= i < |r| && j == i + 1 && j < |r|
      ensures n[Node(r[i])] == Node(r[j]) && v[Node(r[j])] == Node(r[i])
    {
      if j < k { assert s[i] != s[k - 1]; }
      if i > k { assert s[i] != s[k] && next[Node(s[i - 1])] == Node(s[i]); }
    }
  }

  lemma RingDelete(next: map<Link, Link>, prev: map<Link, Link>, h: QId, s: seq<Tid>, k: nat)
    requires Ring(next, prev, h, s) && NoDup(s) && k < |s|
    ensures var b, a := CellBefore(h, s, k), Cell(h, s, k + 1);
            && next[Node(s[k])] == a && prev[Node(s[k])] == b && b in next && a in prev
            && Ring(next[b := a], prev[a := b], h, s[..k] + s[k + 1..])
  {
    var b, a := CellBefore(h, s, k), Cell(h, s, k + 1);
    if k > 0 { assert prev[Node(s[k])] == Node(s[k - 1]); }
    if k + 1 < |s| { assert next[Node(s[k])] == Node(s[k + 1]); }
    var n, v, r := next[b := a], prev[a := b], s[..k] + s[k + 1..];
    assert forall i :: 0 <= i < k ==> r[i] == s[i];
    assert forall i :: k <= i < |r| ==> r[i] == s[i + 1];
    forall i, j | 0 <= i < |r| && j == i + 1 && j < |r|
      ensures n[Node(r[i])] == Node(r[j]) && v[Node(r[j])] == Node(r[i])
    {
      if j < k { assert s[i] != s[k - 1]; }
      if i >= k { assert next[Node(s[i + 1])] == Node(s[i + 2]); }
    }
  }

  class Queues {
    var p_next: map<Link, Link>
    var p_prev: map<Link, Link>
    /** The tasks linked to each initialised header, in order. */
    ghost var q: map<QId, seq<Tid>>

    ghost predicate Valid()
      reads this
    {
      Disjoint(q) && forall h :: h in q ==> Ring(p_next, p_prev, h, q[h])
    }

    /** All headers initialised, all tasks unlinked. */
    constructor (heads: set<QId>, ntask: nat)
      ensures Valid() && q == (map h | h in heads :: [])
              && (forall t: Tid :: t < ntask ==> Node(t) in p_next && Node(t) in p_prev)
    {
      p_next := (map h | h in heads :: Head(h) := Head(h)) + (map t: Tid | 0 <= t < ntask :: Node(t) := Node(t));
      p_prev := (map h | h in heads :: Head(h) := Head(h)) + (map t: Tid | 0 <= t < ntask :: Node(t) := Node(t));
      q := map h | h in heads :: [];
      new;
      hide Ring;
      forall h | h in heads ensures Ring(p_next, p_prev, h, []) { EmptyRing(p_next, p_prev, h); }
    }

    /** The task has a link. */
    ghost predicate HasLink(t: Tid)
      reads this
    {
      Node(t) in p_next && Node(t) in p_prev
    }

    lemma InsertKeepsOthers(h: QId, k: nat, e: Tid, h': QId)
      requires Valid() && h in q && h' in q && h' != h && k <= |q[h]| && HasLink(e)
      requires forall x :: x in q ==> !On(q, x, e)
      ensures var b, p := CellBefore(h, q[h], k), Cell(h, q[h], k);
              Ring(p_next[Node(e) := p][b := Node(e)], p_prev[Node(e) := b][p := Node(e)], h', q[h'])
    {
      var s := q[h'];
      forall i | 0 <= i < |s| ensures s[i] != e && s[i] !in q[h] {
        assert On(q, h', s[i]);
        if s[i] in q[h] { assert On(q, h, s[i]); }
      }
      var b, p := CellBefore(h, q[h], k), Cell(h, q[h], k);
      RingFrame(p_next, p_prev, p_next[Node(e) := p][b := Node(e)], p_prev[Node(e) := b][p := Node(e)], h', s);
    }

    lemma DeleteKeepsOthers(h: QId, k: nat, h': QId)
      requires Valid() && h in q && h' in q && h' != h && k < |q[h]|
      ensures var b, a := CellBefore(h, q[h], k), Cell(h, q[h], k + 1);
              Ring(p_next[b := a], p_prev[a := b], h', q[h'])
    {
      var s := q[h'];
      forall i | 0 <= i < |s| ensures s[i] !in q[h] {
        assert On(q, h', s[i]);
        if s[i] in q[h] { assert On(q, h, s[i]); }
      }
      var b, a := CellBefore(h, q[h], k), Cell(h, q[h], k + 1);
      RingFrame(p_next, p_prev, p_next[b := a], p_prev[a := b], h', s);
    }

    lemma InsertDisjoint(h: QId, k: nat, e: Tid)
      requires Valid() && h in q && k <= |q[h]| && forall x :: x in q ==> !On(q, x, e)
      ensures Disjoint(q[h := q[h][..k] + [e] + q[h][k..]])
    {
      assert !On(q, h, e);
      InsertMembers(q[h], k, e);
      var q' := q[h := q[h][..k] + [e] + q[h][k..]];
      forall h1, t: Tid | h1 in q' && On(q', h1, t) ensures if t == e then h1 == h else On(q, h1, t) {}
    }

    lemma DeleteDisjoint(h: QId, e: Tid)
      requires Valid() && h in q && On(q, h, e)
      ensures Disjoint(q[h := Remove(q[h], e)])
      ensures forall x :: x in q ==> !On(q[h := Remove(q[h], e)], x, e)
    {
      RemoveMembers(q[h], e);
      var q' := q[h := Remove(q[h], e)];
      forall h1, t: Tid | h1 in q' && On(q', h1, t) ensures On(q, h1, t) {}
      forall x | x in q ensures !On(q', x, e) {
        if x != h { assert !On(q, x, e); }
      }
    }

    lemma InsertAll(h: QId, k: nat, e: Tid)
      requires Valid() && h in q && k <= |q[h]| && HasLink(e) && forall x :: x in q ==> !On(q, x, e)
      ensures var b, p := CellBefore(h, q[h], k), Cell(h, q[h], k); var q' := q[h := q[h][..k] + [e] + q[h][k..]];
              && p in p_prev && p_prev[p] == b && Disjoint(q')
              && forall x :: x in q' ==> Ring(p_next[Node(e) := p][b := Node(e)], p_prev[Node(e) := b][p := Node(e)],
                   x, q'[x])
    {
      hide Ring, On, NoDup;
      CellLinks(h, k);
      InsertDisjoint(h, k, e);
      InsertRing(h, k, e);
      forall x | x in q && x != h
        ensures var b, p := CellBefore(h, q[h], k), Cell(h, q[h], k);
                Ring(p_next[Node(e) := p][b := Node(e)], p_prev[Node(e) := b][p := Node(e)], x, q[x])
      {
        InsertKeepsOthers(h, k, e, x);
      }
    }

    lemma InsertRing(h: QId, k: nat, e: Tid)
      requires Valid() && h in q && k <= |q[h]| && HasLink(e) && forall x :: x in q ==> !On(q, x, e)
      ensures var b, p := CellBefore(h, q[h], k), Cell(h, q[h], k);
              Ring(p_next[Node(e) := p][b := Node(e)], p_prev[Node(e) := b][p := Node(e)], h,
                q[h][..k] + [e] + q[h][k..])
    {
      hide Ring;
      assert !On(q, h, e);
      RingInsert(p_next, p_prev, h, q[h], k, e);
    }

    lemma CellLinks(h: QId, k: nat)
      requires Valid() && h in q && k <= |q[h]|
      ensures var p := Cell(h, q[h], k); p in p_prev && p_prev[p] == CellBefore(h, q[h], k)
    {
      if 0 < k < |q[h]| { assert p_prev[Node(q[h][k])] == Node(q[h][k - 1]); }
    }

    /** queue_insert_prev: e goes before cell k of queue h; before the header it becomes the last. */
    method InsertPrev(p: Link, e: Tid, ghost h: QId, ghost k: nat)
      requires Valid() && h in q && k <= |q[h]| && p == Cell(h, q[h], k) && HasLink(e)
      requires forall x :: x in q ==> !On(q, x, e)
      modifies this
      ensures Valid() && q == old(q)[h := old(q[h])[..k] + [e] + old(q[h])[k..]]
      ensures forall t: Tid :: old(HasLink(t)) ==> HasLink(t)
    {
      hide Ring, On, Disjoint, Cell, CellBefore;
      InsertAll(h, k, e);
      var b := p_prev[p];
      p_prev := p_prev[Node(e) := b];
      p_next := p_next[Node(e) := p];
      p_next := p_next[b := Node(e)];
      p_prev := p_prev[p := Node(e)];
      q := q[h := q[h][..k] + [e] + q[h][k..]];
    }

    lemma DeleteAll(h: QId, k: nat, e: Tid)
      requires Valid() && h in q && k < |q[h]| && q[h][k] == e
      ensures var b, a := CellBefore(h, q[h], k), Cell(h, q[h], k + 1); var q' := q[h := Remove(q[h], e)];
              && HasLink(e) && p_prev[Node(e)] == b && p_next[Node(e)] == a
              && Disjoint(q') && (forall x :: x in q' ==> !On(q', x, e))
              && forall x :: x in q' ==> Ring(p_next[b := a], p_prev[a := b], x, q'[x])
    {
      hide Ring;
      assert On(q, h, e);
      DeleteDisjoint(h, e);
      RemoveAt(q[h], k);
      RingHasLink(h, k);
      RingDelete(p_next, p_prev, h, q[h], k);
      forall x | x in q && x != h
        ensures var b, a := CellBefore(h, q[h], k), Cell(h, q[h], k + 1); Ring(p_next[b := a], p_prev[a := b], x, q[x])
      {
        DeleteKeepsOthers(h, k, x);
      }
    }

    lemma RingHasLink(h: QId, k: nat)
      requires Valid() && h in q && k < |q[h]|
      ensures HasLink(q[h][k])
    {
    }

    /** queue_delete. */
    method Delete(e: Tid, ghost h: QId)
      requires Valid() && h in q && On(q, h, e)
      modifies this
      ensures Valid() && q == old(q)[h := Remove(old(q[h]), e)]
      ensures forall x :: x in q ==> !On(q, x, e)
      ensures forall t: Tid :: old(HasLink(t)) ==> HasLink(t)
    {
      hide Ring, Disjoint, Cell, CellBefore, Remove;
      ghost var k :| 0 <= k < |q[h]| && q[h][k] == e;
      DeleteAll(h, k, e);
      var b, a := p_prev[Node(e)], p_next[Node(e)];
      p_next := p_next[b := a];
      p_prev := p_prev[a := b];
      q := q[h := Remove(q[h], e)];
    }

    /** queue_delete_next: takes the first task of queue h. */
    method DeleteNext(h: QId) returns (e: Tid)
      requires Valid() && h in q && q[h] != []
      modifies this
      ensures Valid() && e == old(q[h])[0] && q == old(q)[h := old(q[h])[1..]]
      ensures forall x :: x in q ==> !On(q, x, e)
      ensures forall t: Tid :: old(HasLink(t)) ==> HasLink(t)
    {
      e := p_next[Head(h)].t;
      assert On(q, h, e);
      RemoveAt(q[h], 0);
      assert q[h][..0] + q[h][1..] == q[h][1..];
      Delete(e, h);
    }

    /** queue_empty. */
    method Empty(h: QId) returns (r: bool)
      requires Valid() && h in q
      ensures r <==> q[h] == []
    {
      r := p_next[Head(h)] == Head(h);
    }

    /** Two or more tasks: following the header twice does not lead back to it. */
    method HasTwo(h: QId) returns (r: bool)
      requires Valid() && h in q && q[h] != []
      ensures r <==> |q[h]| >= 2
    {
      ghost var s := q[h];
      assert |s| >= 2 ==> p_next[Node(s[0])] == Node(s[1]);
      r := p_next[p_next[Head(h)]] != Head(h);
    }

    /** The task whose link follows the header. */
    method First(h: QId) returns (t: Tid)
      requires Valid() && h in q && q[h] != []
      ensures t == q[h][0]
    {
      t := p_next[Head(h)].t;
    }

    lemma NextCell(h: QId, k: nat)
      requires Valid() && h in q && k < |q[h]|
      ensures Node(q[h][k]) in p_next && p_next[Node(q[h][k])] == Cell(h, q[h], k + 1)
    {
      var s := q[h];
      if k + 1 < |s| { assert p_next[Node(s[k])] == Node(s[k + 1]); }
    }

    /** queue_insert_tpri: walks to the first task of lower priority and inserts before it. */
    method InsertTpri(h: QId, e: Tid, tcb: seq<TCB>)
      requires Valid() && h in q && HasLink(e) && e < |tcb| && (forall j :: 0 <= j < |q[h]| ==> q[h][j] < |tcb|)
      requires forall x :: x in q ==> !On(q, x, e)
      modifies this
      ensures Valid() && q == old(q)[h := InsertPri(tcb, old(q[h]), e)]
      ensures forall t: Tid :: old(HasLink(t)) ==> HasLink(t)
    {
      var pri := tcb[e].priority;
      var p_entry := p_next[Head(h)];
      ghost var k := 0;
      while p_entry != Head(h)
        modifies {}
        invariant k <= |q[h]| && p_entry == Cell(h, q[h], k)
        invariant forall j :: 0 <= j < k ==> Prio(tcb, q[h][j]) <= pri
        decreases |q[h]| - k
      {
        if pri < tcb[p_entry.t].priority {
          break;
        }
        NextCell(h, k);
        p_entry := p_next[p_entry];
        k := k + 1;
      }
      PriPosIs(tcb, q[h], pri, k);
      InsertPrev(p_entry, e, h, k);
    }
  }
}
