/**
  The ready queues and the wait queues as sequences of tasks, and the one rule by which the kernel
  places a task: its single link is in the queue its state names, and nowhere else.
 */
module TaskQueues {
  import opened Types
  import opened Seqs

  datatype Tasks = Tasks(tcb: seq<TCB>, q: map<QId, seq<Tid>>)

  function At(q: map<QId, seq<Tid>>, h: QId): seq<Tid> {
    if h in q then q[h] else []
  }

  function Prio(tcb: seq<TCB>, t: Tid): nat {
    if t < |tcb| then tcb[t].priority else 0
  }

  /** The queue a task belongs in according to its state. */
  function Home(b: TCB): Option<QId> {
    match b.tstat
    case Runnable => Some(Ready(b.priority))
    case Waiting(Obj(wq), _) => Some(Wait(wq))
    case _ => None
  }

  /** All queue headers. */
  function Headers(wqs: set<WQ>): set<QId> {
    (set p | 0 <= p < TNUM_TPRI :: Ready(p)) + (set wq | wq in wqs :: Wait(wq))
  }

  /** Where queue_insert_tpri stops: before the first task of lower priority. */
  function PriPos(tcb: seq<TCB>, s: seq<Tid>, pri: nat): (k: nat)
    ensures k <= |s|
  {
    if s == [] || pri < Prio(tcb, s[0]) then 0 else 1 + PriPos(tcb, s[1..], pri)
  }

  function InsertPri(tcb: seq<TCB>, s: seq<Tid>, t: Tid): seq<Tid> {
    var k := PriPos(tcb, s, Prio(tcb, t));
    s[..k] + [t] + s[k..]
  }

  /** Queueing discipline of a header. */
  predicate ByPriority(g: Config, h: QId) {
    h.Wait? && Tpri(g, h.wq)
  }

  function Insert(g: Config, tcb: seq<TCB>, h: QId, s: seq<Tid>, t: Tid): seq<Tid> {
    if ByPriority(g, h) then InsertPri(tcb, s, t) else s + [t]
  }

  function Unlink(ts: Tasks, t: Tid): map<QId, seq<Tid>>
    requires t < |ts.tcb|
  {
    match Home(ts.tcb[t])
    case None => ts.q
    case Some(h) => ts.q[h := Remove(At(ts.q, h), t)]
  }

  /** Task t, whose link is in no queue, gets control block b and goes to the queue that b calls for. */
  function Place(g: Config, ts: Tasks, t: Tid, b: TCB): Tasks
    requires t < |ts.tcb|
  {
    var tcb := ts.tcb[t := b];
    match Home(b)
    case None => Tasks(tcb, ts.q)
    case Some(h) => Tasks(tcb, ts.q[h := Insert(g, tcb, h, At(ts.q, h), t)])
  }

  /** Task t gets control block b and moves from the queue it is in to the one that b calls for. */
  function Rehome(g: Config, ts: Tasks, t: Tid, b: TCB): Tasks
    requires t < |ts.tcb|
  {
    Place(g, Tasks(ts.tcb, Unlink(ts, t)), t, b)
  }

  function RotatedSeq(s: seq<Tid>): seq<Tid> {
    if s == [] then [] else s[1..] + [s[0]]
  }

  function Rotate(ts: Tasks, pri: nat): Tasks {
    ts.(q := ts.q[Ready(pri) := RotatedSeq(At(ts.q, Ready(pri)))])
  }

  predicate FirstReady(q: map<QId, seq<Tid>>, lo: nat, p: nat) {
    At(q, Ready(p)) != [] && forall p' :: lo <= p' < p ==> At(q, Ready(p')) == []
  }

  /** The scheduling rule (section 3.2.2 of the uITRON4.0 Specification), computed from scratch: the
      first task of the first non-empty ready queue. */
  function TopFrom(q: map<QId, seq<Tid>>, pri: nat): (r: Option<Tid>)
    ensures r.None? <==> forall p :: pri <= p < TNUM_TPRI ==> At(q, Ready(p)) == []
    ensures r.Some? ==> exists p :: pri <= p < TNUM_TPRI && FirstReady(q, pri, p) && At(q, Ready(p))[0] == r.value
    decreases TNUM_TPRI - pri
  {
    if pri >= TNUM_TPRI then None
    else if At(q, Ready(pri)) != [] then Some(At(q, Ready(pri))[0])
    else TopFrom(q, pri + 1)
  }

  function Top(q: map<QId, seq<Tid>>): Option<Tid> { TopFrom(q, 0) }

  /** The link of t is in queue h. */
  ghost predicate On(q: map<QId, seq<Tid>>, h: QId, t: Tid) {
    t in At(q, h)
  }

  ghost predicate Belongs(tcb: seq<TCB>, h: QId, t: Tid) {
    t < |tcb| && Home(tcb[t]) == Some(h)
  }

  /** The first ready queue that is not empty determines the scheduled task. */
  lemma TopIs(q: map<QId, seq<Tid>>, p: nat)
    requires p < TNUM_TPRI && FirstReady(q, 0, p)
    ensures Top(q) == Some(At(q, Ready(p))[0])
  {
    assert 0 <= p < TNUM_TPRI && At(q, Ready(p)) != [];
    var p2 :| 0 <= p2 < TNUM_TPRI && FirstReady(q, 0, p2) && At(q, Ready(p2))[0] == Top(q).value;
    if p2 < p { assert At(q, Ready(p2)) == []; }
  }

  /** Only the ready queues matter for scheduling. */
  lemma TopFrame(q: map<QId, seq<Tid>>, q': map<QId, seq<Tid>>)
    requires forall p: nat :: p < TNUM_TPRI ==> At(q', Ready(p)) == At(q, Ready(p))
    ensures Top(q') == Top(q)
  {
    if Top(q).Some? {
      var p :| 0 <= p < TNUM_TPRI && FirstReady(q, 0, p) && At(q, Ready(p))[0] == Top(q).value;
      assert FirstReady(q', 0, p);
      TopIs(q', p);
    }
  }

  /** Link safety: the link of every task is in exactly the queue its state names. */
  ghost predicate Linked(ts: Tasks) {
    && (forall t :: 0 <= t < |ts.tcb| ==> ts.tcb[t].priority < TNUM_TPRI)
    && (forall h, t :: On(ts.q, h, t) <==> Belongs(ts.tcb, h, t))
    && (forall h :: NoDup(At(ts.q, h)))
  }

  ghost predicate SortedBy(tcb: seq<TCB>, s: seq<Tid>) {
    forall i, j :: 0 <= i < j < |s| ==> Prio(tcb, s[i]) <= Prio(tcb, s[j])
  }

  /** Queues of TA_TPRI objects are in the order of the current priorities. */
  ghost predicate Sorted(g: Config, ts: Tasks) {
    forall h :: ByPriority(g, h) ==> SortedBy(ts.tcb, At(ts.q, h))
  }

  lemma {:induction false} PriPosSplits(tcb: seq<TCB>, s: seq<Tid>, pri: nat)
    requires SortedBy(tcb, s)
    ensures var k := PriPos(tcb, s, pri);
            && (forall i :: 0 <= i < k ==> Prio(tcb, s[i]) <= pri)
            && (forall i :: k <= i < |s| ==> pri < Prio(tcb, s[i]))
  {
    if s != [] && Prio(tcb, s[0]) <= pri {
      PriPosSplits(tcb, s[1..], pri);
      var k := PriPos(tcb, s[1..], pri);
      forall i | 0 <= i < k + 1 ensures Prio(tcb, s[i]) <= pri {
        if i > 0 { assert s[i] == s[1..][i - 1]; }
      }
      forall i | k + 1 <= i < |s| ensures pri < Prio(tcb, s[i]) {
        assert s[i] == s[1..][i - 1];
      }
    }
  }

  /** PriPos is the first position with a task of lower priority. */
  lemma {:induction false} PriPosIs(tcb: seq<TCB>, s: seq<Tid>, pri: nat, k: nat)
    requires k <= |s| && forall j :: 0 <= j < k ==> Prio(tcb, s[j]) <= pri
    requires k < |s| ==> pri < Prio(tcb, s[k])
    ensures PriPos(tcb, s, pri) == k
  {
    if k > 0 { PriPosIs(tcb, s[1..], pri, k - 1); }
  }

  /** A fresh insertion is FIFO among equals: it goes behind every task of at least its priority. */
  lemma InsertPriSorted(tcb: seq<TCB>, s: seq<Tid>, t: Tid)
    requires SortedBy(tcb, s)
    ensures SortedBy(tcb, InsertPri(tcb, s, t))
  {
    PriPosSplits(tcb, s, Prio(tcb, t));
  }

  /** What insertion does to a queue, whichever the discipline. */
  lemma InsertLinks(g: Config, tcb: seq<TCB>, h: QId, s: seq<Tid>, t: Tid)
    requires NoDup(s) && t !in s
    ensures NoDup(Insert(g, tcb, h, s, t))
    ensures forall u :: u in Insert(g, tcb, h, s, t) <==> u in s || u == t
  {
    var k := if ByPriority(g, h) then PriPos(tcb, s, Prio(tcb, t)) else |s|;
    InsertMembers(s, k, t);
    assert Insert(g, tcb, h, s, t) == s[..k] + [t] + s[k..];
  }

  lemma UnlinkLinks(ts: Tasks, t: Tid)
    requires Linked(ts) && t < |ts.tcb|
    ensures forall h :: NoDup(At(Unlink(ts, t), h))
    ensures forall h, u :: On(Unlink(ts, t), h, u) <==> Belongs(ts.tcb, h, u) && u != t
  {
    if Home(ts.tcb[t]).Some? {
      RemoveMembers(At(ts.q, Home(ts.tcb[t]).value), t);
    }
    forall h ensures NoDup(At(Unlink(ts, t), h)) { assert NoDup(At(ts.q, h)); }
    forall h, u ensures On(Unlink(ts, t), h, u) <==> Belongs(ts.tcb, h, u) && u != t {
      assert On(ts.q, h, u) <==> Belongs(ts.tcb, h, u);
    }
  }

  lemma RehomeOn(g: Config, ts: Tasks, t: Tid, b: TCB)
    requires Linked(ts) && t < |ts.tcb|
    ensures var q := Rehome(g, ts, t, b).q;
            && (forall h :: NoDup(At(q, h)))
            && (forall h, u :: On(q, h, u) <==> Belongs(ts.tcb[t := b], h, u))
  {
    UnlinkLinks(ts, t);
    var q := Unlink(ts, t);
    var r := Rehome(g, ts, t, b);
    if Home(b).Some? {
      var h := Home(b).value;
      assert !On(q, h, t);
      InsertLinks(g, r.tcb, h, At(q, h), t);
    }
    forall h ensures NoDup(At(r.q, h)) { assert NoDup(At(q, h)); }
    forall h, u ensures On(r.q, h, u) <==> Belongs(r.tcb, h, u) {
      assert On(q, h, u) <==> Belongs(ts.tcb, h, u) && u != t;
    }
  }

  /** Every move of a task keeps link safety. */
  lemma RehomeLinked(g: Config, ts: Tasks, t: Tid, b: TCB)
    requires Linked(ts) && t < |ts.tcb| && b.priority < TNUM_TPRI
    ensures Linked(Rehome(g, ts, t, b))
  {
    RehomeOn(g, ts, t, b);
  }

  lemma RemoveSorted(tcb: seq<TCB>, s: seq<Tid>, t: Tid)
    requires NoDup(s) && SortedBy(tcb, s)
    ensures SortedBy(tcb, Remove(s, t))
  {
    if t in s {
      var k :| 0 <= k < |s| && s[k] == t;
      RemoveAt(s, k);
    } else {
      RemoveAbsent(s, t);
    }
  }

  lemma SortedFrame(tcb: seq<TCB>, tcb': seq<TCB>, s: seq<Tid>)
    requires SortedBy(tcb, s)
    requires forall i :: 0 <= i < |s| ==> Prio(tcb, s[i]) == Prio(tcb', s[i])
    ensures SortedBy(tcb', s)
  {
  }

  /** Every move of a task keeps the priority order of every priority-ordered wait queue, also when
      the move is a change of the priority of a waiting task. */
  lemma RehomeSorted(g: Config, ts: Tasks, t: Tid, b: TCB)
    requires Linked(ts) && Sorted(g, ts) && t < |ts.tcb|
    ensures Sorted(g, Rehome(g, ts, t, b))
  {
    UnlinkLinks(ts, t);
    var q := Unlink(ts, t);
    var r := Rehome(g, ts, t, b);
    forall h | ByPriority(g, h) ensures SortedBy(r.tcb, At(r.q, h)) {
      if Home(ts.tcb[t]) == Some(h) { RemoveSorted(ts.tcb, At(ts.q, h), t); }
      assert SortedBy(ts.tcb, At(q, h));
      forall i | 0 <= i < |At(q, h)| ensures At(q, h)[i] != t { assert On(q, h, At(q, h)[i]); }
      SortedFrame(ts.tcb, r.tcb, At(q, h));
      if Home(b) == Some(h) { InsertPriSorted(r.tcb, At(q, h), t); }
    }
  }

  lemma RotatedMembers(s: seq<Tid>)
    requires NoDup(s)
    ensures NoDup(RotatedSeq(s))
    ensures forall u :: u in RotatedSeq(s) <==> u in s
  {
    if s != [] {
      assert s == [s[0]] + s[1..];
    }
  }

  lemma RotateLinked(g: Config, ts: Tasks, pri: nat)
    requires Linked(ts) && Sorted(g, ts)
    ensures Linked(Rotate(ts, pri)) && Sorted(g, Rotate(ts, pri))
  {
    var r := Rotate(ts, pri);
    RotatedMembers(At(ts.q, Ready(pri)));
    forall h ensures NoDup(At(r.q, h)) { assert NoDup(At(ts.q, h)); }
    forall h, u ensures On(r.q, h, u) <==> Belongs(r.tcb, h, u) {
      assert On(ts.q, h, u) <==> Belongs(ts.tcb, h, u);
    }
  }

  /** The scheduled task is runnable, and no runnable task is of higher priority; one is scheduled as
      soon as any task is runnable. */
  lemma TopRunnable(ts: Tasks)
    requires Linked(ts)
    ensures Top(ts.q).Some? ==> Top(ts.q).value < |ts.tcb| && ts.tcb[Top(ts.q).value].tstat.Runnable?
    ensures forall t :: 0 <= t < |ts.tcb| && ts.tcb[t].tstat.Runnable? ==>
              Top(ts.q).Some? && ts.tcb[Top(ts.q).value].priority <= ts.tcb[t].priority
  {
    if Top(ts.q).Some? {
      var p :| 0 <= p < TNUM_TPRI && FirstReady(ts.q, 0, p) && At(ts.q, Ready(p))[0] == Top(ts.q).value;
      assert On(ts.q, Ready(p), Top(ts.q).value);
    }
    forall t | 0 <= t < |ts.tcb| && ts.tcb[t].tstat.Runnable?
      ensures Top(ts.q).Some? && ts.tcb[Top(ts.q).value].priority <= ts.tcb[t].priority
    {
      assert Belongs(ts.tcb, Ready(ts.tcb[t].priority), t);
      assert On(ts.q, Ready(ts.tcb[t].priority), t);
    }
  }
}
