/** The buffer of a priority data queue (kernel/pridataq.c): messages in a singly linked list sorted by
    priority, unused nodes in a free list or, if they were never used, behind the index unused. */
module PriDataBuffers {
  import opened Types
  import opened Seqs
  import opened PriDataQueue

  /** A pointer to a node is its index, or NULL. */
  datatype PDQMB = PDQMB(p_next: Option<nat>, data: int, datapri: int)

  function Ptr(s: seq<nat>, k: nat): Option<nat> { if k < |s| then Some(s[k]) else None }

  /** Following the pointers from head passes through the nodes of s. */
  ghost predicate Chain(a: seq<PDQMB>, head: Option<nat>, s: seq<nat>) {
    && head == Ptr(s, 0)
    && (forall k :: 0 <= k < |s| ==> s[k] < |a|)
    && (forall k :: 0 <= k < |s| ==> a[s[k]].p_next == Ptr(s, k + 1))
  }

  function MsgAt(a: seq<PDQMB>, i: nat): Msg {
    if i < |a| then Msg(a[i].data, a[i].datapri) else Msg(0, 0)
  }

  function Msgs(a: seq<PDQMB>, s: seq<nat>): (m: seq<Msg>)
    ensures |m| == |s|
  {
    seq(|s|, k requires 0 <= k < |s| => MsgAt(a, s[k]))
  }

  /** The nodes of the two lists are distinct, and they are all the nodes below unused. */
  ghost predicate Partition(list: seq<nat>, free: seq<nat>, unused: nat) {
    && NoDup(list) && NoDup(free)
    && (forall x :: x in list ==> x !in free)
    && (forall x: nat :: x < unused <==> x in list || x in free)
  }

  lemma ChainFrame(a: seq<PDQMB>, a': seq<PDQMB>, head: Option<nat>, s: seq<nat>)
    requires Chain(a, head, s) && |a'| == |a| && forall k :: 0 <= k < |s| ==> a'[s[k]] == a[s[k]]
    ensures Chain(a', head, s) && Msgs(a', s) == Msgs(a, s)
  {
  }

  /** If every node below n is in the list, the list has at least n nodes. */
  lemma {:induction false} Covering(s: seq<nat>, n: nat)
    requires forall x: nat :: x < n ==> x in s
    ensures |s| >= n
  {
    if n > 0 {
      var x: nat := n - 1;
      assert x in s;
      var k :| 0 <= k < |s| && s[k] == x;
      var r := s[..k] + s[k + 1..];
      forall y: nat | y < n - 1 ensures y in r {
        assert y in s;
        var j :| 0 <= j < |s| && s[j] == y;
        assert if j < k then r[j] == y else r[j - 1] == y;
      }
      Covering(r, n - 1);
    }
  }

  /** The place where the search of enqueue_pridata ends. */
  lemma {:induction false} MsgPosIs(s: seq<Msg>, pri: int, k: nat)
    requires k <= |s| && (forall j :: 0 <= j < k ==> s[j].pri <= pri) && (k < |s| ==> s[k].pri > pri)
    ensures MsgPos(s, pri) == k
  {
    if k > 0 { MsgPosIs(s[1..], pri, k - 1); }
  }

  /** The list s with node e at position k, and the nodes after the assignments of enqueue_pridata:
      the link that held the pointer to node k now points to e, and e points on to node k. */
  ghost predicate Inserted(a: seq<PDQMB>, s: seq<nat>, k: nat, e: nat, m: Msg, a': seq<PDQMB>) {
    && k <= |s| && |a'| == |a| && e < |a| && e !in s && (forall j :: 0 <= j < |s| ==> s[j] < |a|)
    && a'[e] == PDQMB(Ptr(s, k), m.data, m.pri)
    && (forall j :: 0 <= j < |s| ==> a'[s[j]] == if j + 1 == k then a[s[j]].(p_next := Some(e)) else a[s[j]])
  }

  lemma NextInserted(a: seq<PDQMB>, head: Option<nat>, s: seq<nat>, k: nat, e: nat, m: Msg, a': seq<PDQMB>, j: nat)
    requires Chain(a, head, s) && Inserted(a, s, k, e, m, a') && j <= |s|
    ensures var s' := s[..k] + [e] + s[k..]; s'[j] < |a'| && a'[s'[j]].p_next == Ptr(s', j + 1)
  {
    var s' := s[..k] + [e] + s[k..];
    if j < k {
      assert s'[j] == s[j];
      assert Ptr(s', j + 1) == if j + 1 == k then Some(e) else Ptr(s, j + 1);
    } else if j == k {
      assert s'[j] == e && Ptr(s', j + 1) == Ptr(s, k);
    } else {
      assert s'[j] == s[j - 1] && Ptr(s', j + 1) == Ptr(s, j);
    }
  }

  lemma ChainInsert(a: seq<PDQMB>, head: Option<nat>, s: seq<nat>, k: nat, e: nat, m: Msg, a': seq<PDQMB>)
    requires Chain(a, head, s) && Inserted(a, s, k, e, m, a')
    ensures Chain(a', if k == 0 then Some(e) else head, s[..k] + [e] + s[k..])
    ensures Msgs(a', s[..k] + [e] + s[k..]) == Msgs(a, s)[..k] + [m] + Msgs(a, s)[k..]
  {
    var s' := s[..k] + [e] + s[k..];
    forall j | 0 <= j < |s'| ensures s'[j] < |a'| && a'[s'[j]].p_next == Ptr(s', j + 1) {
      NextInserted(a, head, s, k, e, m, a', j);
    }
    MsgsInserted(a, s, k, e, m, a');
  }

  lemma MsgsInserted(a: seq<PDQMB>, s: seq<nat>, k: nat, e: nat, m: Msg, a': seq<PDQMB>)
    requires Inserted(a, s, k, e, m, a')
    ensures Msgs(a', s[..k] + [e] + s[k..]) == Msgs(a, s)[..k] + [m] + Msgs(a, s)[k..]
  {
    assert forall j :: 0 <= j < |s| ==> MsgAt(a', s[j]) == MsgAt(a, s[j]);
    var s', l, r := s[..k] + [e] + s[k..], Msgs(a', s[..k] + [e] + s[k..]), Msgs(a, s)[..k] + [m] + Msgs(a, s)[k..];
    forall j | 0 <= j < |l| ensures l[j] == r[j] {
      if j < k { assert s'[j] == s[j]; } else if j > k { assert s'[j] == s[j - 1]; }
    }
  }

  /** The nodes after the assignments of enqueue_pridata. */
  function WithNode(a: seq<PDQMB>, s: seq<nat>, k: nat, e: nat, m: Msg): seq<PDQMB>
    requires e < |a| && k <= |s| && (k > 0 ==> s[k - 1] < |a|)
  {
    var a1 := a[e := PDQMB(Ptr(s, k), m.data, m.pri)];
    if k == 0 then a1 else a1[s[k - 1] := a1[s[k - 1]].(p_next := Some(e))]
  }

  lemma NodesLinked(a: seq<PDQMB>, head: Option<nat>, s: seq<nat>, k: nat, e: nat, m: Msg)
    requires Chain(a, head, s) && NoDup(s) && k <= |s| && e < |a| && e !in s
    ensures k > 0 ==> s[k - 1] < |a| && s[k - 1] != e
    ensures Inserted(a, s, k, e, m, WithNode(a, s, k, e, m))
  {
    if k > 0 { assert s[k - 1] in s; }
    var a' := WithNode(a, s, k, e, m);
    forall j | 0 <= j < |s| ensures a'[s[j]] == if j + 1 == k then a[s[j]].(p_next := Some(e)) else a[s[j]] {
      assert s[j] in s;
      if j + 1 != k && k > 0 { assert s[j] != s[k - 1]; }
    }
  }

  /** The free list is not touched. */
  lemma OtherList(a: seq<PDQMB>, s: seq<nat>, k: nat, e: nat, m: Msg, head: Option<nat>, free: seq<nat>)
    requires Chain(a, head, free) && e < |a| && e !in free && k <= |s| && (k > 0 ==> s[k - 1] < |a|)
    requires forall x :: x in s ==> x !in free
    ensures Chain(WithNode(a, s, k, e, m), head, free)
  {
    var a' := WithNode(a, s, k, e, m);
    if k > 0 { assert s[k - 1] in s; }
    forall j | 0 <= j < |free| ensures a'[free[j]] == a[free[j]] { assert free[j] in free; }
    ChainFrame(a, a', head, free);
  }

  lemma ChainStep(a: seq<PDQMB>, head: Option<nat>, s: seq<nat>, k: nat)
    requires Chain(a, head, s)
    ensures head == Ptr(s, 0)
    ensures k < |s| ==> s[k] < |a| && a[s[k]].p_next == Ptr(s, k + 1) && Msgs(a, s)[k].pri == a[s[k]].datapri
  {
  }

  lemma ChainTail(a: seq<PDQMB>, head: Option<nat>, s: seq<nat>)
    requires Chain(a, head, s) && s != []
    ensures s[0] < |a| && Chain(a, a[s[0]].p_next, s[1..]) && Msgs(a, s)[1..] == Msgs(a, s[1..])
  {
  }

  lemma ChainPush(a: seq<PDQMB>, head: Option<nat>, s: seq<nat>, e: nat)
    requires Chain(a, head, s) && e < |a| && e !in s
    ensures Chain(a[e := a[e].(p_next := head)], Some(e), [e] + s)
  {
    var a', s' := a[e := a[e].(p_next := head)], [e] + s;
    forall j | 0 <= j < |s'| ensures s'[j] < |a'| && a'[s'[j]].p_next == Ptr(s', j + 1) {
      if j > 0 { assert s'[j] == s[j - 1] && s[j - 1] in s; }
    }
  }

  /** A node leaves the free list, or the unused nodes, and joins the list. */
  lemma PartitionTake(list: seq<nat>, free: seq<nat>, unused: nat, k: nat)
    requires Partition(list, free, unused) && k <= |list|
    ensures free != [] ==> free[0] !in list && Partition(list[..k] + [free[0]] + list[k..], free[1..], unused)
    ensures free == [] ==> unused !in list && Partition(list[..k] + [unused] + list[k..], [], unused + 1)
  {
    var e := if free != [] then free[0] else unused;
    if free != [] { assert free[0] in free && free == [free[0]] + free[1..]; }
    assert e !in list;
    InsertMembers(list, k, e);
  }

  /** The first node of the list goes to the free list. */
  lemma PartitionGive(list: seq<nat>, free: seq<nat>, unused: nat)
    requires Partition(list, free, unused) && list != []
    ensures list[0] !in free && list[0] !in list[1..] && Partition(list[1..], [list[0]] + free, unused)
  {
    assert list == [list[0]] + list[1..];
    assert list[0] in list;
  }

  class PriDataBuffer {
    const pdqcnt: nat
    const p_pdqmb: array<PDQMB>
    var count: nat
    var p_head: Option<nat>
    var unused: nat
    var p_freelist: Option<nat>
    /** The nodes of the two lists; the messages in the order of their arrival. */
    ghost var list: seq<nat>
    ghost var free: seq<nat>
    ghost var arr: seq<Msg>

    ghost predicate ListsOk()
      reads this, p_pdqmb
    {
      && p_pdqmb.Length == pdqcnt && unused <= pdqcnt && count == |list|
      && Chain(p_pdqmb[..], p_head, list) && Chain(p_pdqmb[..], p_freelist, free)
      && Partition(list, free, unused)
    }

    ghost predicate Valid()
      reads this, p_pdqmb
    {
      ListsOk() && Msgs(p_pdqmb[..], list) == StableSort(arr)
    }

    constructor (pdqcnt: nat)
      ensures Valid() && fresh(p_pdqmb) && this.pdqcnt == pdqcnt && arr == []
    {
      this.pdqcnt := pdqcnt;
      p_pdqmb := new PDQMB[pdqcnt](i => PDQMB(None, 0, 0));
      count, p_head, unused, p_freelist := 0, None, 0, None;
      list, free, arr := [], [], [];
    }

    lemma Counted()
      requires Valid()
      ensures count == |arr| <= pdqcnt
    {
      forall k | 0 <= k < |list| ensures list[k] < unused { assert list[k] in list; }
      DistinctBelow(list, unused);
    }

    /** The node for a new message: the last one freed, or else one never used. */
    method TakeNode() returns (node: nat)
      requires ListsOk() && count < pdqcnt
      modifies this`p_freelist, this`unused, this`free
      ensures node < pdqcnt && node !in list && unused <= pdqcnt
      ensures Chain(p_pdqmb[..], p_freelist, free) && node !in free
      ensures NoDup(list) && forall x :: x in list ==> x !in free
      ensures forall k: nat :: k <= |list| ==> Partition(list[..k] + [node] + list[k..], free, unused)
    {
      forall k: nat | k <= |list|
        ensures free != [] ==> free[0] !in list && Partition(list[..k] + [free[0]] + list[k..], free[1..], unused)
        ensures free == [] ==> unused !in list && Partition(list[..k] + [unused] + list[k..], [], unused + 1)
      {
        PartitionTake(list, free, unused, k);
      }
      if p_freelist.Some? {
        assert free[0] in free && free[0] < unused;
        ChainTail(p_pdqmb[..], p_freelist, free);
        node := p_freelist.value;
        p_freelist := p_pdqmb[node].p_next;
        free := free[1..];
      } else {
        Covering(list, unused);
        node := unused;
        unused := unused + 1;
      }
    }

    /** Searches the first message of lower priority; returns the node whose pointer leads to it. */
    method FindPlace(datapri: int) returns (prev: Option<nat>, p_next: Option<nat>, ghost k: nat)
      requires p_pdqmb.Length == pdqcnt && Chain(p_pdqmb[..], p_head, list)
      ensures k == MsgPos(Msgs(p_pdqmb[..], list), datapri) <= |list|
      ensures p_next == Ptr(list, k) && prev == (if k == 0 then None else Some(list[k - 1]))
    {
      hide Chain, Msgs;
      ChainStep(p_pdqmb[..], p_head, list, 0);
      prev, p_next, k := None, p_head, 0;
      while p_next.Some?
        invariant k <= |list| && p_next == Ptr(list, k) && prev == (if k == 0 then None else Some(list[k - 1]))
        invariant forall j :: 0 <= j < k ==> Msgs(p_pdqmb[..], list)[j].pri <= datapri
        decreases |list| - k
      {
        ChainStep(p_pdqmb[..], p_head, list, k);
        if p_pdqmb[p_next.value].datapri > datapri {
          break;
        }
        prev := p_next;
        p_next := p_pdqmb[p_next.value].p_next;
        k := k + 1;
      }
      MsgPosIs(Msgs(p_pdqmb[..], list), datapri, k);
    }

    /** enqueue_pridata. */
    method EnqueuePridata(data: int, datapri: int)
      requires Valid() && count < pdqcnt
      modifies this, p_pdqmb
      ensures Valid() && arr == old(arr) + [Msg(data, datapri)]
    {
      hide Chain, Partition, Msgs;
      var node := TakeNode();
      var prev, p_next;
      ghost var k;
      prev, p_next, k := FindPlace(datapri);
      SortSnoc(arr, Msg(data, datapri));
      arr := arr + [Msg(data, datapri)];
      LinkNode(node, prev, p_next, k, data, datapri);
    }

    /** The end of enqueue_pridata: the node is linked in. */
    method LinkNode(node: nat, prev: Option<nat>, p_next: Option<nat>, ghost k: nat, data: int, datapri: int)
      requires p_pdqmb.Length == pdqcnt && count == |list| && node < pdqcnt && node !in list && node !in free
               && k <= |list|
      requires NoDup(list) && forall x :: x in list ==> x !in free
      requires Chain(p_pdqmb[..], p_head, list) && Chain(p_pdqmb[..], p_freelist, free)
      requires p_next == Ptr(list, k) && prev == (if k == 0 then None else Some(list[k - 1]))
      modifies this`p_head, this`count, this`list, p_pdqmb
      ensures list == old(list)[..k] + [node] + old(list)[k..] && count == |list|
      ensures Chain(p_pdqmb[..], p_head, list) && Chain(p_pdqmb[..], p_freelist, free)
      ensures var s := old(Msgs(p_pdqmb[..], list)); Msgs(p_pdqmb[..], list) == s[..k] + [Msg(data, datapri)] + s[k..]
    {
      hide Chain, Msgs, Inserted;
      ghost var a, m, head := p_pdqmb[..], Msg(data, datapri), p_head;
      NodesLinked(a, head, list, k, node, m);
      p_pdqmb[node] := PDQMB(p_next, data, datapri);
      if prev.None? {
        p_head := Some(node);
      } else {
        p_pdqmb[prev.value] := p_pdqmb[prev.value].(p_next := Some(node));
      }
      count := count + 1;
      assert p_pdqmb[..] == WithNode(a, list, k, node, m);
      ChainInsert(a, head, list, k, node, m, p_pdqmb[..]);
      OtherList(a, list, k, node, m, p_freelist, free);
      list := list[..k] + [node] + list[k..];
    }

    /** dequeue_pridata: the message that leaves is the earliest of the best priority. */
    method DequeuePridata() returns (data: int, datapri: int)
      requires Valid() && count > 0
      modifies this, p_pdqmb
      ensures old(arr) != [] && Msg(data, datapri) == old(arr)[Best(old(arr))]
      ensures Valid() && arr == Without(old(arr), Best(old(arr)))
    {
      HeadIsBest(arr);
      PartitionGive(list, free, unused);
      ChainTail(p_pdqmb[..], p_head, list);
      ghost var a := p_pdqmb[..];
      var node := p_head.value;
      ChainPush(a, p_freelist, free, node);
      p_head := p_pdqmb[node].p_next;
      count := count - 1;
      data := p_pdqmb[node].data;
      datapri := p_pdqmb[node].datapri;
      p_pdqmb[node] := p_pdqmb[node].(p_next := p_freelist);
      p_freelist := Some(node);
      list, free, arr := list[1..], [node] + free, Without(arr, Best(arr));
      assert p_pdqmb[..] == a[node := a[node].(p_next := old(p_freelist))];
      ChainFrame(a, p_pdqmb[..], p_head, list);
    }

    /** The reinitialisation by ini_pdq. */
    method Reset()
      requires Valid()
      modifies this
      ensures Valid() && arr == []
    {
      count, p_head, unused, p_freelist := 0, None, 0, None;
      list, free, arr := [], [], [];
    }
  }
}
