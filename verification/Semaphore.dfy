/** Counting semaphores (kernel/semaphore.c). */
module Semaphore {
  import opened Types
  import opened TaskQueues
  import opened Core
  import opened CoreProofs
  import opened TaskCalls
  import opened TaskCallProofs
  import opened WaitQueues

  /** signals and acquired count, as history, the successful returns and acquisitions of resources
      since the last initialisation; a resource handed to a waiting task counts as both. */
  datatype Sem = Sem(cnt: nat, init: nat, max: nat, signals: nat, acquired: nat)

  type SemResult = (Core, Sem, ER)

  /** sig_sem and isig_sem. */
  function SigSem(g: Config, c: Core, s: Sem, i: nat): SemResult
    requires QueueOk(c, SemQ(i))
  {
    if !Live(c) then (c, s, E_CTX)
    else if WaitQ(c, SemQ(i)) != [] then
      var t := WaitQ(c, SemQ(i))[0];
      var c1 := Wake(g, c, t, E_OK, DataOf(c, t));
      (Finish(c1, Req(c, c1)), s.(signals := s.signals + 1, acquired := s.acquired + 1), E_OK)
    else if s.cnt < s.max then (c, s.(cnt := s.cnt + 1, signals := s.signals + 1), E_OK)
    else (c, s, E_QOVR)
  }

  /** wai_sem, pol_sem, twai_sem. */
  function WaiSem(g: Config, c: Core, s: Sem, i: nat, p: Patience): SemResult
    requires RunsTask(c)
  {
    if !(if p.Polling? then InTask(c) else MayBlock(c)) then (c, s, E_CTX)
    else if !TmoOk(p) then (c, s, E_PAR)
    else if s.cnt >= 1 then (c, s.(cnt := s.cnt - 1, acquired := s.acquired + 1), E_OK)
    else if p.Polling? || p.tmo == TMO_POL then (c, s, E_TMOUT)
    else (Block(g, c, Obj(SemQ(i)), NoData, TimerOf(p)), s, BLOCKED)
  }

  function IniSem(g: Config, c: Core, s: Sem, i: nat): SemResult
    requires QueueOk(c, SemQ(i))
  {
    if !InTask(c) then (c, s, E_CTX)
    else
      var (c1, req) := WakeAll(g, c, WaitQ(c, SemQ(i)), E_DLT);
      (Finish(c1, req), Sem(s.init, s.init, s.max, 0, 0), E_OK)
  }

  /** Conservation of resources, the bounds of the count, and: while there are resources nobody
      waits. */
  ghost predicate SemInv(c: Core, s: Sem, i: nat) {
    && s.init + s.signals - s.acquired == s.cnt
    && s.cnt <= s.max && s.init <= s.max
    && (s.cnt > 0 ==> WaitQ(c, SemQ(i)) == [])
  }

  lemma SemRely(c: Core, c': Core, own: set<WQ>, s: Sem, i: nat)
    requires SemInv(c, s, i) && Linked(c.ts) && Linked(c'.ts)
    requires Rely(c.ts.tcb, c'.ts.tcb, own) && SemQ(i) !in own
    ensures SemInv(c', s, i)
  {
    if s.cnt > 0 { RelyEmpty(c, c', own, SemQ(i)); }
  }

  lemma SigSemOk(g: Config, c: Core, s: Sem, i: nat)
    requires Inv(g, c) && SemInv(c, s, i)
    ensures QueueOk(c, SemQ(i))
    ensures var (c', s', er) := SigSem(g, c, s, i);
            CallOk(g, c, c', {}) && SemInv(c', s', i)
  {
    WaitersAreWaiting(c, SemQ(i));
    if Live(c) && WaitQ(c, SemQ(i)) != [] {
      var t := WaitQ(c, SemQ(i))[0];
      assert t in WaitQ(c, SemQ(i));
      WakeOk(g, c, t, E_OK, DataOf(c, t));
    }
  }

  lemma WaiSemOk(g: Config, c: Core, s: Sem, i: nat, p: Patience)
    requires Inv(g, c) && SemInv(c, s, i) && TmoType(p)
    ensures var (c', s', er) := WaiSem(g, c, s, i, p);
            CallOk(g, c, c', {SemQ(i)}) && SemInv(c', s', i)
  {
    if WaiSem(g, c, s, i, p).2 == BLOCKED {
      BlockInv(g, c, Obj(SemQ(i)), NoData, TimerOf(p));
    } else {
      Unchanged(g, c);
    }
  }

  lemma IniSemOk(g: Config, c: Core, s: Sem, i: nat)
    requires Inv(g, c) && SemInv(c, s, i)
    ensures QueueOk(c, SemQ(i))
    ensures var (c', s', er) := IniSem(g, c, s, i);
            CallOk(g, c, c', {}) && SemInv(c', s', i)
  {
    InitCallOk(g, c, SemQ(i));
    if !InTask(c) { Unchanged(g, c); }
  }
}
