/** The start of the whole system: the kernel that sta_ker starts, with the objects as the loops of their
    initialisation functions make them. */
module WholeStart {
  import opened Types
  import opened Seqs
  import opened Core
  import S = Semaphore
  import F = EventFlag
  import D = DataQueue
  import P = PriDataQueue
  import M = MemoryPool
  import opened System
  import opened Startup
  import opened KernelState
  import opened KernelStartup
  import opened SemaphoreCB
  import opened EventFlagCB
  import opened DataQueueCB
  import opened PriDataQueueCB
  import opened MemoryPoolCB
  import opened WholeKernel

  /** The initialisation blocks of the objects. */
  datatype SEMINIB = SEMINIB(isemcnt: nat, maxsem: nat)
  datatype FLGINIB = FLGINIB(iflgptn: bv32, clr: bool, wmul: bool)
  datatype PDQINIB = PDQINIB(pdqcnt: nat, maxdpri: int)
  datatype MPFINIB = MPFINIB(blkcnt: nat, blksz: nat, mpf: nat)

  datatype Objects = Objects(
    sem: seq<SEMINIB>, flg: seq<FLGINIB>, dtqcnt: seq<nat>, pdq: seq<PDQINIB>, mpf: seq<MPFINIB>)

  /** What the configurator checks. */
  predicate ValidObjects(o: Objects) {
    && (forall i :: 0 <= i < |o.sem| ==> o.sem[i].isemcnt <= o.sem[i].maxsem)
    && (forall i :: 0 <= i < |o.mpf| ==> 0 < o.mpf[i].blksz && o.mpf[i].blkcnt <= INDEX_ALLOC)
  }

  /** The headers of the wait queues of the objects. */
  function Queues(o: Objects): set<WQ> {
    (set i | 0 <= i < |o.sem| :: SemQ(i)) + (set i | 0 <= i < |o.flg| :: FlgQ(i))
    + (set i | 0 <= i < |o.dtqcnt| :: SDtqQ(i)) + (set i | 0 <= i < |o.dtqcnt| :: RDtqQ(i))
    + (set i | 0 <= i < |o.pdq| :: SPdqQ(i)) + (set i | 0 <= i < |o.pdq| :: RPdqQ(i))
    + (set i | 0 <= i < |o.mpf| :: MpfQ(i))
  }

  function SemOf(x: SEMINIB): S.Sem { S.Sem(x.isemcnt, x.isemcnt, x.maxsem, 0, 0) }

  function FlgOf(x: FLGINIB): F.Flg { F.Flg(x.iflgptn, x.iflgptn, x.clr, x.wmul) }

  function PdqOf(x: PDQINIB): P.Pdq { P.Pdq([], x.pdqcnt, x.maxdpri) }

  function MpfOf(x: MPFINIB): M.Mpf { M.Mpf(x.blkcnt, x.blksz, x.mpf, 0, [], map[]) }

  /** The state of the whole system at its first dispatch. */
  function StartSys(g: Config, act: seq<Tid>, o: Objects): Sys
    requires ValidConfig(g) && forall k :: 0 <= k < |act| ==> act[k] < |g.ipri|
  {
    Sys(InitCore(g, Queues(o), act),
        seq(|o.sem|, i requires 0 <= i < |o.sem| => SemOf(o.sem[i])),
        seq(|o.flg|, i requires 0 <= i < |o.flg| => FlgOf(o.flg[i])),
        seq(|o.dtqcnt|, i requires 0 <= i < |o.dtqcnt| => D.Dtq([], o.dtqcnt[i])),
        seq(|o.pdq|, i requires 0 <= i < |o.pdq| => PdqOf(o.pdq[i])),
        seq(|o.mpf|, i requires 0 <= i < |o.mpf| => MpfOf(o.mpf[i])))
  }

  /** The invariants hold at the first dispatch, whatever the configuration. */
  lemma StartSysInv(g: Config, act: seq<Tid>, o: Objects)
    requires ValidConfig(g) && NoDup(act) && forall k :: 0 <= k < |act| ==> act[k] < |g.ipri|
    requires ValidObjects(o)
    ensures SysInv(g, StartSys(g, act, o))
  {
    hide InitCore, SysInv;
    InitSysInv(g, Queues(o), act, StartSys(g, act, o));
  }

  /** initialize_semaphore. */
  method InitializeSemaphore(ini: seq<SEMINIB>) returns (sem: seq<SEMCB>)
    ensures |sem| == |ini|
    ensures forall i :: 0 <= i < |sem| ==> fresh(sem[i]) && sem[i].i == i && sem[i].View() == SemOf(ini[i])
  {
    sem := [];
    for i := 0 to |ini|
      invariant |sem| == i
      invariant forall j :: 0 <= j < i ==> fresh(sem[j]) && sem[j].i == j && sem[j].View() == SemOf(ini[j])
    {
      var x := new SEMCB(i, ini[i].isemcnt, ini[i].maxsem);
      sem := sem + [x];
    }
  }

  /** initialize_eventflag. */
  method InitializeEventflag(ini: seq<FLGINIB>) returns (flg: seq<FLGCB>)
    ensures |flg| == |ini|
    ensures forall i :: 0 <= i < |flg| ==> fresh(flg[i]) && flg[i].i == i && flg[i].View() == FlgOf(ini[i])
  {
    flg := [];
    for i := 0 to |ini|
      invariant |flg| == i
      invariant forall j :: 0 <= j < i ==> fresh(flg[j]) && flg[j].i == j && flg[j].View() == FlgOf(ini[j])
    {
      var x := new FLGCB(i, ini[i].iflgptn, ini[i].clr, ini[i].wmul);
      flg := flg + [x];
    }
  }

  /** initialize_dataqueue. */
  method InitializeDataqueue(dtqcnt: seq<nat>) returns (dtq: seq<DTQCB>)
    ensures |dtq| == |dtqcnt|
    ensures forall i :: 0 <= i < |dtq| ==> fresh(dtq[i].b) && fresh(dtq[i].b.p_dtqmb)
    ensures forall i :: 0 <= i < |dtq| ==> dtq[i].i == i && dtq[i].Valid() && dtq[i].View() == D.Dtq([], dtqcnt[i])
    ensures forall i, j :: 0 <= i < j < |dtq| ==> dtq[i].b != dtq[j].b && dtq[i].b.p_dtqmb != dtq[j].b.p_dtqmb
  {
    hide DataBuffer.Valid, DataBuffer.Contents;
    dtq := [];
    for i := 0 to |dtqcnt|
      invariant |dtq| == i
      invariant forall j :: 0 <= j < i ==> fresh(dtq[j].b) && fresh(dtq[j].b.p_dtqmb)
      invariant forall j :: 0 <= j < i ==> dtq[j].i == j && dtq[j].Valid() && dtq[j].View() == D.Dtq([], dtqcnt[j])
      invariant forall j, k :: 0 <= j < k < i ==> dtq[j].b != dtq[k].b && dtq[j].b.p_dtqmb != dtq[k].b.p_dtqmb
    {
      var x := new DTQCB(i, dtqcnt[i]);
      dtq := dtq + [x];
    }
  }

  /** initialize_pridataq. */
  method InitializePridataq(ini: seq<PDQINIB>) returns (pdq: seq<PDQCB>)
    ensures |pdq| == |ini|
    ensures forall i :: 0 <= i < |pdq| ==> fresh(pdq[i].b) && fresh(pdq[i].b.p_pdqmb)
    ensures forall i :: 0 <= i < |pdq| ==> pdq[i].i == i && pdq[i].Valid() && pdq[i].View() == PdqOf(ini[i])
    ensures forall i, j :: 0 <= i < j < |pdq| ==> pdq[i].b != pdq[j].b && pdq[i].b.p_pdqmb != pdq[j].b.p_pdqmb
  {
    hide PDQCB.Valid;
    pdq := [];
    for i := 0 to |ini|
      invariant |pdq| == i
      invariant forall j :: 0 <= j < i ==> fresh(pdq[j].b) && fresh(pdq[j].b.p_pdqmb)
      invariant forall j :: 0 <= j < i ==> pdq[j].i == j && pdq[j].Valid() && pdq[j].View() == PdqOf(ini[j])
      invariant forall j, k :: 0 <= j < k < i ==> pdq[j].b != pdq[k].b && pdq[j].b.p_pdqmb != pdq[k].b.p_pdqmb
    {
      var x := new PDQCB(i, ini[i].pdqcnt, ini[i].maxdpri);
      pdq := pdq + [x];
    }
  }

  /** initialize_mempfix. */
  method InitializeMempfix(ini: seq<MPFINIB>) returns (mpf: seq<MPFCB>)
    requires forall i :: 0 <= i < |ini| ==> 0 < ini[i].blksz && ini[i].blkcnt <= INDEX_ALLOC
    ensures |mpf| == |ini|
    ensures forall i :: 0 <= i < |mpf| ==> fresh(mpf[i]) && fresh(mpf[i].p_mpfmb)
    ensures forall i :: 0 <= i < |mpf| ==> mpf[i].i == i && mpf[i].Valid() && mpf[i].View() == MpfOf(ini[i])
    ensures forall i, j :: 0 <= i < j < |mpf| ==> mpf[i].p_mpfmb != mpf[j].p_mpfmb
  {
    hide MPFCB.Valid;
    mpf := [];
    for i := 0 to |ini|
      invariant |mpf| == i
      invariant forall j :: 0 <= j < i ==> fresh(mpf[j]) && fresh(mpf[j].p_mpfmb)
      invariant forall j :: 0 <= j < i ==> mpf[j].i == j && mpf[j].Valid() && mpf[j].View() == MpfOf(ini[j])
      invariant forall j, k :: 0 <= j < k < i ==> mpf[j].p_mpfmb != mpf[k].p_mpfmb
    {
      var x := new MPFCB(i, ini[i].blkcnt, ini[i].blksz, ini[i].mpf);
      mpf := mpf + [x];
    }
  }

  /** The views of the objects as one. */
  ghost predicate Started(w: Whole, o: Objects)
    reads w.sem, w.flg, w.mpf, set m | m in w.mpf :: m.p_mpfmb
    reads set d | d in w.dtq :: d.b, set d | d in w.dtq :: d.b.p_dtqmb
    reads set d | d in w.pdq :: d.b, set d | d in w.pdq :: d.b.p_pdqmb
  {
    && |w.sem| == |o.sem| && |w.flg| == |o.flg| && |w.dtq| == |o.dtqcnt| && |w.pdq| == |o.pdq| && |w.mpf| == |o.mpf|
    && (forall i :: 0 <= i < |o.sem| ==> w.sem[i].View() == SemOf(o.sem[i]))
    && (forall i :: 0 <= i < |o.flg| ==> w.flg[i].View() == FlgOf(o.flg[i]))
    && (forall i :: 0 <= i < |o.dtqcnt| ==> w.dtq[i].Valid() && w.dtq[i].View() == D.Dtq([], o.dtqcnt[i]))
    && (forall i :: 0 <= i < |o.pdq| ==> w.pdq[i].Valid() && w.pdq[i].View() == PdqOf(o.pdq[i]))
    && (forall i :: 0 <= i < |o.mpf| ==> w.mpf[i].Valid() && w.mpf[i].View() == MpfOf(o.mpf[i]))
  }

  lemma EveryQueue(o: Objects)
    ensures forall i :: 0 <= i < |o.sem| ==> SemQ(i) in Queues(o)
    ensures forall i :: 0 <= i < |o.flg| ==> FlgQ(i) in Queues(o)
    ensures forall i :: 0 <= i < |o.dtqcnt| ==> {SDtqQ(i), RDtqQ(i)} <= Queues(o)
    ensures forall i :: 0 <= i < |o.pdq| ==> {SPdqQ(i), RPdqQ(i)} <= Queues(o)
    ensures forall i :: 0 <= i < |o.mpf| ==> MpfQ(i) in Queues(o)
  {
  }

  /** initialize_object. */
  method InitializeObject(k: Kernel, o: Objects) returns (w: Whole)
    requires ValidObjects(o) && k.wqs == Queues(o)
    ensures fresh(w) && w.k == k && Started(w, o) && w.Numbered() && w.Separate()
  {
    hide DTQCB.Valid, DTQCB.View, PDQCB.Valid, MPFCB.Valid, Queues;
    EveryQueue(o);
    var sem := InitializeSemaphore(o.sem);
    var flg := InitializeEventflag(o.flg);
    var dtq := InitializeDataqueue(o.dtqcnt);
    var pdq := InitializePridataq(o.pdq);
    var mpf := InitializeMempfix(o.mpf);
    w := new Whole(k, sem, flg, dtq, pdq, mpf);
  }

  lemma StartedView(w: Whole, act: seq<Tid>, o: Objects)
    requires ValidConfig(w.k.g) && forall k :: 0 <= k < |act| ==> act[k] < |w.k.g.ipri|
    requires w.k.Valid() && w.k.View() == InitCore(w.k.g, Queues(o), act)
    requires Started(w, o) && w.Numbered() && w.Separate()
    ensures w.Valid() && w.View() == StartSys(w.k.g, act, o)
  {
    hide InitCore, Kernel.Valid, Kernel.View, DTQCB.Valid, DTQCB.View, PDQCB.Valid, MPFCB.Valid;
    hide Queues, Whole.Numbered, Whole.Separate;
  }

  /** sta_ker for the whole system: the control blocks stand for the start state, and all invariants
      hold. */
  method StartWhole(g: Config, act: seq<Tid>, o: Objects) returns (w: Whole)
    requires ValidConfig(g) && NoDup(act) && forall k :: 0 <= k < |act| ==> act[k] < |g.ipri|
    requires ValidObjects(o)
    ensures fresh(w) && w.k.g == g && w.Valid() && w.View() == StartSys(g, act, o) && SysInv(g, w.View())
  {
    hide InitCore, SysInv, Inv, Kernel.Valid, Kernel.View, Whole.Valid, Whole.View, Whole.Numbered, Whole.Separate;
    hide Started, StartSys, Queues, ValidObjects;
    var k := StartKernel(g, Queues(o), act);
    w := InitializeObject(k, o);
    StartedView(w, act, o);
    StartSysInv(g, act, o);
  }
}
