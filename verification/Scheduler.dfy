/**
  Task management (kernel/task.c): the control blocks, the ready queues with their bitmap, and the
  cached scheduled task, all updated incrementally.
 */
module TaskScheduler {
  import opened Types
  import opened Seqs
  import opened TaskQueues
  import opened ReadyBitmap
  import opened Links

  /** The first ready queue with a task, or TNUM_TPRI. */
  ghost function TopPri(q: map<QId, seq<Tid>>): (p: nat)
    ensures p <= TNUM_TPRI
    ensures if p < TNUM_TPRI then FirstReady(q, 0, p) && Top(q) == Some(At(q, Ready(p))[0])
            else Top(q).None? && forall p' :: 0 <= p' < TNUM_TPRI ==> At(q, Ready(p')) == []
  {
    if Top(q).None? then TNUM_TPRI
    else
      var p :| 0 <= p < TNUM_TPRI && FirstReady(q, 0, p) && At(q, Ready(p))[0] == Top(q).value;
      p
  }

  /** The scheduled task after t has been appended to the ready queue of its priority. */
  lemma TopAppend(q: map<QId, seq<Tid>>, pri: nat, t: Tid)
    requires pri < TNUM_TPRI
    ensures Top(q[Ready(pri) := At(q, Ready(pri)) + [t]]) == if pri < TopPri(q) then Some(t) else Top(q)
  {
    var q' := q[Ready(pri) := At(q, Ready(pri)) + [t]];
    var p := TopPri(q);
    var n := if pri < p then pri else p;
    forall p' | 0 <= p' < n ensures At(q', Ready(p')) == [] { assert At(q, Ready(p')) == []; }
    if pri < p { assert At(q, Ready(pri)) == []; }
    assert FirstReady(q', 0, n);
    TopIs(q', n);
  }

  /** What the length of one ready queue means for the map. */
  lemma AgreesAfter(m: bv16, q: map<QId, seq<Tid>>, pri: nat, s: seq<Tid>)
    requires Agrees(m, q) && pri < TNUM_TPRI
    ensures s != [] ==> Agrees(PrimapSet(m, pri), q[Ready(pri) := s])
    ensures s == [] ==> Agrees(PrimapClear(m, pri), q[Ready(pri) := s])
    ensures (s == [] <==> At(q, Ready(pri)) == []) ==> Agrees(m, q[Ready(pri) := s])
  {
    hide HasBit, PrimapSet, PrimapClear;
    forall p: nat | p < TNUM_TPRI
      ensures HasBit(PrimapSet(m, pri), p) <==> p == pri || HasBit(m, p)
      ensures HasBit(PrimapClear(m, pri), p) <==> p != pri && HasBit(m, p)
    {
      SetBit(m, pri, p);
      ClearBit(m, pri, p);
    }
  }

  /** The members of ready queue p have priority p. */
  ghost predicate ReadyByPriority(tcb: seq<TCB>, q: map<QId, seq<Tid>>) {
    forall p: nat, t: Tid {:trigger On(q, Ready(p), t)} ::
      p < TNUM_TPRI && On(q, Ready(p), t) ==> t < |tcb| && tcb[t].priority == p
  }

  /** A ready queue that gets other members, all of its priority. */
  lemma ReadyAfter(tcb: seq<TCB>, q: map<QId, seq<Tid>>, pri: nat, s: seq<Tid>)
    requires ReadyByPriority(tcb, q)
    requires forall t: Tid :: t in s ==> t < |tcb| && tcb[t].priority == pri
    ensures ReadyByPriority(tcb, q[Ready(pri) := s])
  {
    var q' := q[Ready(pri) := s];
    forall p: nat, t: Tid {:trigger On(q', Ready(p), t)} | p < TNUM_TPRI && On(q', Ready(p), t)
      ensures t < |tcb| && tcb[t].priority == p
    {
      if p != pri { assert On(q, Ready(p), t); }
    }
  }

  lemma ReadyWith(tcb: seq<TCB>, q: map<QId, seq<Tid>>, pri: nat, t: Tid)
    requires ReadyByPriority(tcb, q) && pri < TNUM_TPRI && t < |tcb| && tcb[t].priority == pri
    ensures ReadyByPriority(tcb, q[Ready(pri) := At(q, Ready(pri)) + [t]])
  {
    forall u: Tid | u in At(q, Ready(pri)) ensures u < |tcb| && tcb[u].priority == pri { assert On(q, Ready(pri), u); }
    ReadyAfter(tcb, q, pri, At(q, Ready(pri)) + [t]);
  }

  lemma ReadyWithout(tcb: seq<TCB>, q: map<QId, seq<Tid>>, pri: nat, t: Tid)
    requires ReadyByPriority(tcb, q) && pri < TNUM_TPRI && NoDup(At(q, Ready(pri)))
    ensures ReadyByPriority(tcb, q[Ready(pri) := Remove(At(q, Ready(pri)), t)])
  {
    RemoveMembers(At(q, Ready(pri)), t);
    forall u: Tid | u in At(q, Ready(pri)) ensures u < |tcb| && tcb[u].priority == pri { assert On(q, Ready(pri), u); }
    ReadyAfter(tcb, q, pri, Remove(At(q, Ready(pri)), t));
  }

  /** The scheduled task after t has left its ready queue. */
  lemma TopWithout(tcb: seq<TCB>, q: map<QId, seq<Tid>>, pri: nat, t: Tid)
    requires ReadyByPriority(tcb, q) && pri < TNUM_TPRI && NoDup(At(q, Ready(pri))) && On(q, Ready(pri), t)
    ensures var s := Remove(At(q, Ready(pri)), t); var q' := q[Ready(pri) := s];
            && (Top(q) != Some(t) ==> Top(q') == Top(q))
            && (Top(q) == Some(t) ==> Top(q') != Top(q) && (s != [] ==> Top(q') == Some(s[0])))
  {
    var s0, s := At(q, Ready(pri)), Remove(At(q, Ready(pri)), t);
    var q' := q[Ready(pri) := s];
    RemoveMembers(s0, t);
    ReadyWithout(tcb, q, pri, t);
    var p := TopPri(q);
    forall p' | 0 <= p' < p ensures At(q', Ready(p')) == [] { assert At(q, Ready(p')) == []; }
    if Top(q) != Some(t) {
      if p == pri { RemoveKeepsHead(s0, t); }
      assert FirstReady(q', 0, p);
      TopIs(q', p);
    } else {
      assert On(q, Ready(p), t);
      if s != [] {
        assert FirstReady(q', 0, p);
        TopIs(q', p);
        assert s[0] in s;
      }
      TopNot(q', t);
    }
  }

  lemma TopNot(q: map<QId, seq<Tid>>, t: Tid)
    requires forall p: nat :: p < TNUM_TPRI ==> !On(q, Ready(p), t)
    ensures Top(q) != Some(t)
  {
    var p := TopPri(q);
    if p < TNUM_TPRI { assert At(q, Ready(p))[0] in At(q, Ready(p)); assert !On(q, Ready(p), t); }
  }

  lemma SomeTop(q: map<QId, seq<Tid>>, pri: nat)
    requires pri < TNUM_TPRI && At(q, Ready(pri)) != []
    ensures Top(q).Some?
  {
  }

  /** If t heads the first non-empty ready queue, it still does after moving to a better priority. */
  lemma EarlierEmpty(q: map<QId, seq<Tid>>, oldpri: nat, t: Tid, newpri: nat)
    requires Top(q) == Some(t) && oldpri < TNUM_TPRI && At(q, Ready(oldpri)) != []
    requires newpri < oldpri ==> TopPri(q) == oldpri
    ensures var q1 := q[Ready(oldpri) := Remove(At(q, Ready(oldpri)), t)];
            newpri < oldpri ==> Top(q1[Ready(newpri) := At(q1, Ready(newpri)) + [t]]) == Some(t)
  {
    if newpri < oldpri {
      var q1 := q[Ready(oldpri) := Remove(At(q, Ready(oldpri)), t)];
      var q2 := q1[Ready(newpri) := At(q1, Ready(newpri)) + [t]];
      forall p' | 0 <= p' < newpri ensures At(q2, Ready(p')) == [] { assert At(q, Ready(p')) == []; }
      assert At(q, Ready(newpri)) == [];
      assert FirstReady(q2, 0, newpri);
      TopIs(q2, newpri);
    }
  }

  lemma TopPriOf(tcb: seq<TCB>, q: map<QId, seq<Tid>>)
    requires ReadyByPriority(tcb, q)
    ensures Top(q).Some? ==> Top(q).value < |tcb| && TopPri(q) == tcb[Top(q).value].priority
  {
    if Top(q).Some? { assert On(q, Ready(TopPri(q)), Top(q).value); }
  }

  lemma TopRotated(tcb: seq<TCB>, q: map<QId, seq<Tid>>, pri: nat)
    requires ReadyByPriority(tcb, q) && pri < TNUM_TPRI
    ensures var s := At(q, Ready(pri)); var q' := q[Ready(pri) := RotatedSeq(s)];
            && (|s| >= 2 && Top(q) == Some(s[0]) ==> Top(q') == Some(s[1]))
            && (|s| < 2 || Top(q) != Some(s[0]) ==> Top(q') == Top(q))
  {
    var s, p := At(q, Ready(pri)), TopPri(q);
    var q' := q[Ready(pri) := RotatedSeq(s)];
    forall p' | 0 <= p' < p ensures At(q', Ready(p')) == [] { assert At(q, Ready(p')) == []; }
    TopPriOf(tcb, q);
    if p < TNUM_TPRI {
      if s != [] { assert On(q, Ready(pri), s[0]); }
      assert FirstReady(q', 0, p);
      TopIs(q', p);
    }
  }

  lemma ReadyFrame(tcb: seq<TCB>, tcb': seq<TCB>, q: map<QId, seq<Tid>>)
    requires ReadyByPriority(tcb, q) && |tcb'| == |tcb|
             && forall t :: 0 <= t < |tcb| ==> tcb'[t].priority == tcb[t].priority
    ensures ReadyByPriority(tcb', q)
  {
  }

  /** At the start all queues are empty. */
  lemma NothingReady(tcb: seq<TCB>, q: map<QId, seq<Tid>>, heads: set<QId>)
    requires q == map h | h in heads :: []
    ensures ReadyByPriority(tcb, q) && Agrees(0, q) && Top(q).None?
  {
    NoBits(0);
    forall p: nat, t: Tid {:trigger On(q, Ready(p), t)} | p < TNUM_TPRI && On(q, Ready(p), t) ensures false {}
  }

  /** The wait queues do not matter for scheduling. */
  lemma WaitFrame(tcb: seq<TCB>, m: bv16, q: map<QId, seq<Tid>>, wq: WQ, s: seq<Tid>)
    requires ReadyByPriority(tcb, q) && Agrees(m, q)
    ensures ReadyByPriority(tcb, q[Wait(wq) := s]) && Agrees(m, q[Wait(wq) := s]) && Top(q[Wait(wq) := s]) == Top(q)
  {
    hide HasBit;
    var q' := q[Wait(wq) := s];
    TopFrame(q, q');
    forall p: nat, t: Tid {:trigger On(q', Ready(p), t)} | p < TNUM_TPRI && On(q', Ready(p), t)
      ensures t < |tcb| && tcb[t].priority == p
    {
      assert On(q, Ready(p), t);
    }
  }

  class Scheduler {
    const links: Queues
    var tcb: seq<TCB>
    var ready_primap: bv16
    var p_schedtsk: Option<Tid>
    var p_runtsk: Option<Tid>
    var reqflg: bool
    var ipmflg: bool
    var disdsp: bool
    var dspflg: bool

    /** The header exists. */
    ghost predicate HasHead(h: QId)
      reads links
    {
      h in links.q
    }

    /** The queues are rings, every header and every task has its link, ready tasks are in the queue of
        their priority. */
    ghost predicate QueuesOk()
      reads this`tcb, links
    {
      && links.Valid()
      && (forall p: nat :: p < TNUM_TPRI ==> HasHead(Ready(p)))
      && (forall t: Tid :: t < |tcb| ==> links.HasLink(t))
      && ReadyByPriority(tcb, links.q)
    }

    /** The cached variables agree with the queues: bit p of the map is set iff ready queue p is not
        empty, and p_schedtsk is the first task of the first queue that is not. */
    ghost predicate CacheOk()
      reads this, links
    {
      Agrees(ready_primap, links.q) && p_schedtsk == Top(links.q)
    }

    ghost predicate Valid()
      reads this, links
    {
      QueuesOk() && CacheOk()
    }

    /** The link of t is in no queue. */
    ghost predicate Unlinked(t: Tid)
      reads links
    {
      forall h :: h in links.q ==> !On(links.q, h, t)
    }

    /** What the operations on the ready queues leave alone. */
    twostate predicate OnlyQueues()
      reads this, links
    {
      && tcb == old(tcb) && p_runtsk == old(p_runtsk) && links.q.Keys == old(links.q.Keys)
      && reqflg == old(reqflg) && ipmflg == old(ipmflg) && disdsp == old(disdsp) && dspflg == old(dspflg)
    }

    /** initialize_task up to its loop: no task runs, all queues are empty. */
    constructor (b: seq<TCB>, heads: set<QId>)
      requires forall p: nat :: p < TNUM_TPRI ==> Ready(p) in heads
      ensures Valid() && fresh(links) && tcb == b && links.q == (map h | h in heads :: [])
      ensures p_runtsk.None? && !reqflg && ipmflg && !disdsp && dspflg
    {
      hide Agrees, Top, ReadyByPriority, Queues.Valid;
      links := new Queues(heads, |b|);
      tcb, ready_primap, p_schedtsk, p_runtsk := b, 0, None, None;
      reqflg, ipmflg, disdsp, dspflg := false, true, false, true;
      new;
      NothingReady(tcb, links.q, heads);
    }

    lemma SchedPriority()
      requires QueuesOk() && CacheOk()
      ensures p_schedtsk.Some? ==>
                p_schedtsk.value < |tcb| && tcb[p_schedtsk.value].priority == TopPri(links.q) < TNUM_TPRI
      ensures p_schedtsk.None? ==> TopPri(links.q) == TNUM_TPRI
    {
      hide Agrees, HasBit, Queues.Valid, Queues.HasLink;
      var p := TopPri(links.q);
      if p_schedtsk.Some? { assert On(links.q, Ready(p), p_schedtsk.value); }
    }

    lemma NotTop(t: Tid)
      requires QueuesOk() && Unlinked(t)
      ensures Top(links.q) != Some(t)
    {
      var p := TopPri(links.q);
      if p < TNUM_TPRI {
        assert HasHead(Ready(p));
        assert On(links.q, Ready(p), Top(links.q).value);
      }
    }

    /** search_schedtsk. */
    method SearchSchedtsk() returns (t: Tid)
      requires QueuesOk() && Agrees(ready_primap, links.q) && Top(links.q).Some?
      ensures Top(links.q) == Some(t)
    {
      ghost var p0 := TopPri(links.q);
      assert HasBit(ready_primap, p0);
      NoBits(ready_primap);
      var schedpri := BitmapSearch(ready_primap);
      TopIs(links.q, schedpri);
      assert HasHead(Ready(schedpri));
      t := links.First(Ready(schedpri));
    }

    /** queue_insert_prev at the header of the ready queue of t. */
    method AppendReady(t: Tid)
      requires QueuesOk() && t < |tcb| && Unlinked(t) && tcb[t].priority < TNUM_TPRI
      modifies links
      ensures QueuesOk() && links.q.Keys == old(links.q.Keys)
      ensures var pri := tcb[t].priority; links.q == old(links.q)[Ready(pri) := At(old(links.q), Ready(pri)) + [t]]
    {
      var pri := tcb[t].priority;
      assert HasHead(Ready(pri)) && links.HasLink(t);
      ghost var s := links.q[Ready(pri)];
      ReadyWith(tcb, links.q, pri, t);
      links.InsertPrev(Head(Ready(pri)), t, Ready(pri), |s|);
      assert s[..|s|] + [t] + s[|s|..] == s + [t];
    }

    /** queue_delete of a ready task. */
    method DeleteReady(t: Tid, ghost pri: nat)
      requires QueuesOk() && pri < TNUM_TPRI && On(links.q, Ready(pri), t)
      modifies links
      ensures QueuesOk() && links.q.Keys == old(links.q.Keys) && Unlinked(t)
      ensures links.q == old(links.q)[Ready(pri) := Remove(At(old(links.q), Ready(pri)), t)]
    {
      assert HasHead(Ready(pri));
      ReadyWithout(tcb, links.q, pri, t);
      links.Delete(t, Ready(pri));
    }

    /** The scheduled task must give way to a newly runnable task t. */
    predicate Preempts(t: Tid)
      requires t < |tcb| && (p_schedtsk.Some? ==> p_schedtsk.value < |tcb|)
      reads this
    {
      p_schedtsk == None || tcb[t].priority < tcb[p_schedtsk.value].priority
    }

    lemma RunnableFacts(t: Tid)
      requires Valid() && t < |tcb| && Unlinked(t) && tcb[t].priority < TNUM_TPRI
      ensures p_schedtsk.Some? ==> p_schedtsk.value < |tcb|
      ensures var pri := tcb[t].priority; var q' := links.q[Ready(pri) := At(links.q, Ready(pri)) + [t]];
              && Agrees(PrimapSet(ready_primap, pri), q')
              && Top(q') == (if Preempts(t) then Some(t) else Top(links.q)) && Top(links.q) != Some(t)
    {
      hide QueuesOk, Agrees, PrimapSet, PrimapClear, Unlinked, FirstReady, On, Top;
      var pri := tcb[t].priority;
      SchedPriority();
      TopAppend(links.q, pri, t);
      AgreesAfter(ready_primap, links.q, pri, At(links.q, Ready(pri)) + [t]);
      NotTop(t);
    }

    /** make_runnable: the scheduled task changes only if t is of higher priority than it. */
    method MakeRunnable(t: Tid) returns (req: bool)
      requires Valid() && t < |tcb| && Unlinked(t) && tcb[t].priority < TNUM_TPRI
      modifies this`ready_primap, this`p_schedtsk, links
      ensures Valid() && OnlyQueues()
      ensures var pri := tcb[t].priority; links.q == old(links.q)[Ready(pri) := At(old(links.q), Ready(pri)) + [t]]
      ensures req <==> dspflg && Top(links.q) != Top(old(links.q))
    {
      hide QueuesOk, Unlinked, Agrees, PrimapSet, PrimapClear, Top, At;
      RunnableFacts(t);
      AppendReady(t);
      ready_primap := PrimapSet(ready_primap, tcb[t].priority);
      if Preempts(t) {
        p_schedtsk := Some(t);
        return dspflg;
      }
      return false;
    }

    lemma NonRunnableFacts(t: Tid)
      requires Valid() && t < |tcb| && On(links.q, Ready(tcb[t].priority), t) && tcb[t].priority < TNUM_TPRI
      ensures var pri := tcb[t].priority; var s := Remove(At(links.q, Ready(pri)), t);
              var q' := links.q[Ready(pri) := s];
              && HasHead(Ready(pri))
              && (s == [] ==> Agrees(PrimapClear(ready_primap, pri), q'))
              && (s != [] ==> Agrees(ready_primap, q'))
              && (p_schedtsk != Some(t) ==> Top(q') == Top(links.q))
              && (p_schedtsk == Some(t) ==> Top(q') != Top(links.q) && (s != [] ==> Top(q') == Some(s[0])))
    {
      hide Agrees, HasBit, PrimapSet, PrimapClear;
      var pri := tcb[t].priority;
      var s0, s := At(links.q, Ready(pri)), Remove(At(links.q, Ready(pri)), t);
      assert HasHead(Ready(pri));
      ReadyIsDistinct(Ready(pri));
      RemoveMembers(s0, t);
      AgreesAfter(ready_primap, links.q, pri, s);
      TopWithout(tcb, links.q, pri, t);
    }

    /** make_non_runnable: only if t was the scheduled task another one is looked for, first behind it
        in its own queue. */
    method MakeNonRunnable(t: Tid) returns (req: bool)
      requires Valid() && t < |tcb| && On(links.q, Ready(tcb[t].priority), t) && tcb[t].priority < TNUM_TPRI
      modifies this`ready_primap, this`p_schedtsk, links
      ensures Valid() && OnlyQueues() && Unlinked(t)
      ensures var pri := tcb[t].priority; links.q == old(links.q)[Ready(pri) := Remove(At(old(links.q), Ready(pri)), t)]
      ensures req <==> dspflg && Top(links.q) != Top(old(links.q))
    {
      hide QueuesOk, Unlinked, Agrees, PrimapSet, PrimapClear, Top, On, Remove;
      var pri := tcb[t].priority;
      NonRunnableFacts(t);
      DeleteReady(t, pri);
      var empty := EmptyReady(pri);
      if empty {
        ready_primap := PrimapClear(ready_primap, pri);
        if p_schedtsk == Some(t) {
          p_schedtsk := Reschedule();
          return dspflg;
        }
      } else {
        if p_schedtsk == Some(t) {
          var first := FirstReadyTask(pri);
          p_schedtsk := Some(first);
          return dspflg;
        }
      }
      return false;
    }

    method EmptyReady(pri: nat) returns (r: bool)
      requires QueuesOk() && pri < TNUM_TPRI
      ensures r <==> At(links.q, Ready(pri)) == []
    {
      assert HasHead(Ready(pri));
      r := links.Empty(Ready(pri));
    }

    method FirstReadyTask(pri: nat) returns (t: Tid)
      requires QueuesOk() && pri < TNUM_TPRI && At(links.q, Ready(pri)) != []
      ensures t == At(links.q, Ready(pri))[0]
    {
      assert HasHead(Ready(pri));
      t := links.First(Ready(pri));
    }

    /** primap_empty() ? NULL : search_schedtsk(). */
    method Reschedule() returns (t: Option<Tid>)
      requires QueuesOk() && Agrees(ready_primap, links.q)
      ensures t == Top(links.q)
    {
      NoBits(ready_primap);
      if ready_primap == 0 {
        return None;
      }
      var u := SearchSchedtsk();
      t := Some(u);
    }

    // ----- change_priority -----

    /** The ready queues after a runnable task has moved to another priority. */
    ghost function Requeued(q: map<QId, seq<Tid>>, t: Tid, oldpri: nat, newpri: nat): map<QId, seq<Tid>> {
      var q1 := q[Ready(oldpri) := Remove(At(q, Ready(oldpri)), t)];
      q1[Ready(newpri) := At(q1, Ready(newpri)) + [t]]
    }

    lemma RequeueFacts(t: Tid, newpri: nat)
      requires Valid() && t < |tcb| && On(links.q, Ready(tcb[t].priority), t) && tcb[t].priority < TNUM_TPRI
               && newpri < TNUM_TPRI
      ensures p_schedtsk.Some? && p_schedtsk.value < |tcb|
      ensures var oldpri := tcb[t].priority; var top := Top(Requeued(links.q, t, oldpri, newpri));
              && top.Some?
              && (p_schedtsk == Some(t) && newpri < oldpri ==> top == Some(t))
              && (p_schedtsk != Some(t) ==>
                    top == if newpri < tcb[p_schedtsk.value].priority then Some(t) else p_schedtsk)
    {
      hide Agrees, HasBit, PrimapSet, PrimapClear, Queues.Valid, Queues.HasLink;
      var oldpri := tcb[t].priority;
      var q1 := links.q[Ready(oldpri) := Remove(At(links.q, Ready(oldpri)), t)];
      assert HasHead(Ready(oldpri));
      ReadyIsDistinct(Ready(oldpri));
      TopWithout(tcb, links.q, oldpri, t);
      ReadyWithout(tcb, links.q, oldpri, t);
      SchedPriority();
      SomeTop(links.q, oldpri);
      SomeTop(Requeued(links.q, t, oldpri, newpri), newpri);
      TopAppend(q1, newpri, t);
      if p_schedtsk == Some(t) {
        EarlierEmpty(links.q, oldpri, t, newpri);
      } else {
        TopPriOf(tcb, q1);
      }
    }

    lemma ReadyIsDistinct(h: QId)
      requires links.Valid() && HasHead(h)
      ensures NoDup(At(links.q, h))
    {
    }

    /** The bit of a ready queue that has just lost a task. */
    method ClearIfEmpty(pri: nat, ghost q: map<QId, seq<Tid>>)
      requires QueuesOk() && pri < TNUM_TPRI && Agrees(ready_primap, q) && At(q, Ready(pri)) != []
      requires links.q == q[Ready(pri) := At(links.q, Ready(pri))]
      modifies this`ready_primap
      ensures Agrees(ready_primap, links.q)
    {
      hide QueuesOk, PrimapSet, PrimapClear, HasBit, Agrees;
      AgreesAfter(ready_primap, q, pri, At(links.q, Ready(pri)));
      var empty := EmptyReady(pri);
      if empty {
        ready_primap := PrimapClear(ready_primap, pri);
      }
    }

    /** A runnable task moves to the end of the queue of its new priority; the bitmap follows. */
    method Requeue(t: Tid, newpri: nat)
      requires QueuesOk() && Agrees(ready_primap, links.q) && t < |tcb| && newpri < TNUM_TPRI
      requires tcb[t].priority < TNUM_TPRI && On(links.q, Ready(tcb[t].priority), t)
      modifies this`tcb, this`ready_primap, links
      ensures QueuesOk() && Agrees(ready_primap, links.q)
      ensures tcb == old(tcb)[t := old(tcb)[t].(priority := newpri)] && links.q.Keys == old(links.q).Keys
      ensures links.q == Requeued(old(links.q), t, old(tcb)[t].priority, newpri)
    {
      hide QueuesOk, Unlinked, PrimapSet, PrimapClear, HasBit, Agrees;
      var oldpri := tcb[t].priority;
      ghost var q := links.q;
      assert At(q, Ready(oldpri)) != [];
      DeleteReady(t, oldpri);
      ClearIfEmpty(oldpri, q);
      UnlinkedIsNotReady(t);
      SetPriority(t, newpri);
      AgreesAfter(ready_primap, links.q, newpri, At(links.q, Ready(newpri)) + [t]);
      AppendReady(t);
      ready_primap := PrimapSet(ready_primap, newpri);
    }

    /** Runnable tasks move to the end of the queue of the new priority; the scheduled task is looked
        for again only if it is the one that dropped. */
    method ChangeReadyPriority(t: Tid, newpri: nat) returns (req: bool)
      requires Valid() && t < |tcb| && On(links.q, Ready(tcb[t].priority), t) && tcb[t].priority < TNUM_TPRI
               && newpri < TNUM_TPRI
      modifies this`tcb, this`ready_primap, this`p_schedtsk, links
      ensures Valid() && tcb == old(tcb)[t := old(tcb)[t].(priority := newpri)]
      ensures links.q == Requeued(old(links.q), t, old(tcb)[t].priority, newpri) && links.q.Keys == old(links.q).Keys
      ensures req <==> dspflg && Top(links.q) != Top(old(links.q))
    {
      hide QueuesOk, PrimapSet, PrimapClear, HasBit, Agrees, Top, On, Requeued;
      var oldpri := tcb[t].priority;
      RequeueFacts(t, newpri);
      Requeue(t, newpri);
      if p_schedtsk == Some(t) {
        if newpri >= oldpri {
          p_schedtsk := Reschedule();
          return p_schedtsk != Some(t) && dspflg;
        }
      } else {
        if newpri < tcb[p_schedtsk.value].priority {
          p_schedtsk := Some(t);
          return dspflg;
        }
      }
      return false;
    }

    /** The priority of a task that is in no ready queue. */
    method SetPriority(t: Tid, newpri: nat)
      requires QueuesOk() && t < |tcb| && forall p: nat :: p < TNUM_TPRI ==> !On(links.q, Ready(p), t)
      modifies this`tcb
      ensures QueuesOk() && tcb == old(tcb)[t := old(tcb)[t].(priority := newpri)]
    {
      hide Queues.Valid, Queues.HasLink;
      tcb := tcb[t := tcb[t].(priority := newpri)];
    }

    lemma UnlinkedIsNotReady(t: Tid)
      requires QueuesOk() && Unlinked(t)
      ensures forall p: nat :: p < TNUM_TPRI ==> !On(links.q, Ready(p), t)
    {
      forall p: nat | p < TNUM_TPRI ensures !On(links.q, Ready(p), t) { assert HasHead(Ready(p)); }
    }

    // ----- rotate_ready_queue -----

    lemma RotateFacts(pri: nat)
      requires Valid() && pri < TNUM_TPRI
      ensures var s := At(links.q, Ready(pri)); var q' := links.q[Ready(pri) := RotatedSeq(s)];
              && Agrees(ready_primap, q') && ReadyByPriority(tcb, q')
              && (s != [] ==> s[0] < |tcb|)
              && (|s| >= 2 ==> s[0] != s[1])
              && (|s| >= 2 && p_schedtsk == Some(s[0]) ==> Top(q') == Some(s[1]))
              && (|s| < 2 || p_schedtsk != Some(s[0]) ==> Top(q') == Top(links.q))
    {
      hide HasBit, PrimapSet, PrimapClear;
      var s := At(links.q, Ready(pri));
      var q' := links.q[Ready(pri) := RotatedSeq(s)];
      AgreesAfter(ready_primap, links.q, pri, RotatedSeq(s));
      assert HasHead(Ready(pri));
      ReadyIsDistinct(Ready(pri));
      RotatedMembers(s);
      if s != [] { assert s[0] in s && On(links.q, Ready(pri), s[0]); }
      forall u: Tid | u in RotatedSeq(s)
        ensures u < |tcb| && tcb[u].priority == pri
      {
        assert On(links.q, Ready(pri), u);
      }
      ReadyAfter(tcb, links.q, pri, RotatedSeq(s));
      TopRotated(tcb, links.q, pri);
    }

    /** The first task of a ready queue goes to its end. */
    method HeadToTail(pri: nat) returns (t: Tid)
      requires links.Valid() && HasHead(Ready(pri)) && |links.q[Ready(pri)]| >= 2
      requires forall u: Tid :: u < |tcb| ==> links.HasLink(u)
      requires links.q[Ready(pri)][0] < |tcb|
      modifies links
      ensures links.Valid() && t == old(links.q)[Ready(pri)][0]
      ensures links.q == old(links.q)[Ready(pri) := RotatedSeq(At(old(links.q), Ready(pri)))]
      ensures forall u: Tid :: u < |tcb| ==> links.HasLink(u)
    {
      hide Queues.Valid, Queues.HasLink;
      ghost var s := links.q[Ready(pri)];
      t := links.DeleteNext(Ready(pri));
      links.InsertPrev(Head(Ready(pri)), t, Ready(pri), |s| - 1);
      assert s[1..][..|s| - 1] + [t] + s[1..][|s| - 1..] == s[1..] + [t];
    }

    /** rotate_ready_queue. */
    method RotateReadyQueue(pri: nat) returns (req: bool)
      requires Valid() && pri < TNUM_TPRI
      modifies this`p_schedtsk, links
      ensures Valid() && OnlyQueues()
      ensures links.q == old(links.q)[Ready(pri) := RotatedSeq(At(old(links.q), Ready(pri)))]
      ensures req <==> dspflg && Top(links.q) != Top(old(links.q))
    {
      hide Agrees, HasBit, PrimapSet, PrimapClear, Top, ReadyByPriority, Queues.Valid, Queues.HasLink;
      RotateFacts(pri);
      assert HasHead(Ready(pri));
      ghost var s := links.q[Ready(pri)];
      var empty := links.Empty(Ready(pri));
      if !empty {
        var two := links.HasTwo(Ready(pri));
        if two {
          var p_entry := HeadToTail(pri);
          if p_schedtsk == Some(p_entry) {
            var first := links.First(Ready(pri));
            p_schedtsk := Some(first);
            return dspflg;
          }
          return false;
        }
      }
      assert RotatedSeq(s) == s && old(links.q) == links.q[Ready(pri) := s];
      return false;
    }

    // ----- control blocks and wait queues -----

    /** Fields of a control block are assigned that do not concern the ready queues. */
    method SetTcb(t: Tid, b: TCB)
      requires Valid() && t < |tcb| && b.priority == tcb[t].priority
      modifies this`tcb
      ensures Valid() && tcb == old(tcb)[t := b]
    {
      hide Agrees, Queues.Valid, Queues.HasLink, Top;
      ReadyFrame(tcb, tcb[t := b], links.q);
      tcb := tcb[t := b];
    }

    /** queue_delete of a task that waits on an object. */
    method WaitDelete(t: Tid, ghost wq: WQ)
      requires Valid() && On(links.q, Wait(wq), t)
      modifies links
      ensures Valid() && links.q.Keys == old(links.q).Keys && Unlinked(t)
      ensures links.q == old(links.q)[Wait(wq) := Remove(At(old(links.q), Wait(wq)), t)]
    {
      hide Agrees, Queues.Valid, Queues.HasLink, Top, ReadyByPriority;
      WaitFrame(tcb, ready_primap, links.q, wq, Remove(links.q[Wait(wq)], t));
      links.Delete(t, Wait(wq));
    }

    /** queue_delete_next of a wait queue. */
    method WaitDeleteNext(wq: WQ) returns (t: Tid)
      requires Valid() && At(links.q, Wait(wq)) != []
      modifies links
      ensures Valid() && links.q.Keys == old(links.q).Keys && Unlinked(t)
      ensures t == At(old(links.q), Wait(wq))[0]
      ensures links.q == old(links.q)[Wait(wq) := At(old(links.q), Wait(wq))[1..]]
    {
      hide Agrees, Queues.Valid, Queues.HasLink, Top, ReadyByPriority;
      WaitFrame(tcb, ready_primap, links.q, wq, links.q[Wait(wq)][1..]);
      t := links.DeleteNext(Wait(wq));
    }

    /** wobj_queue_insert: in the order of priorities, or at the end. */
    method WaitInsert(wq: WQ, t: Tid, tpri: bool)
      requires Valid() && HasHead(Wait(wq)) && t < |tcb| && Unlinked(t)
      requires forall u: Tid :: u in At(links.q, Wait(wq)) ==> u < |tcb|
      modifies links
      ensures Valid() && links.q.Keys == old(links.q).Keys
      ensures var s := At(old(links.q), Wait(wq));
              links.q == old(links.q)[Wait(wq) := if tpri then InsertPri(tcb, s, t) else s + [t]]
    {
      hide Agrees, Queues.Valid, Queues.HasLink, Top, ReadyByPriority, InsertPri;
      ghost var s := links.q[Wait(wq)];
      assert links.HasLink(t);
      WaitFrame(tcb, ready_primap, links.q, wq, if tpri then InsertPri(tcb, s, t) else s + [t]);
      forall j | 0 <= j < |s| ensures s[j] < |tcb| { assert s[j] in At(links.q, Wait(wq)); }
      if tpri {
        links.InsertTpri(Wait(wq), t, tcb);
      } else {
        links.InsertPrev(Head(Wait(wq)), t, Wait(wq), |s|);
        assert s[..|s|] + [t] + s[|s|..] == s + [t];
      }
    }
  }
}
