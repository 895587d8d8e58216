/**
  The serial driver on the kernel: tasks inside serial_wri_dat and serial_rea_dat, the semaphores and wait
  queues of the kernel under them, and everything else the kernel does meanwhile.  Every step of this
  system is a step of SerialProtocol or invisible there, so that what is proved of the protocol holds of
  the driver.
 */
module SerialOnKernel {
  import opened Types
  import opened Seqs
  import opened TaskQueues
  import opened Core
  import T = TaskCalls
  import W = WaitQueues
  import S = Semaphore
  import Y = System
  import opened TimeCalls
  import opened SystemProofs
  import opened StepFrames
  import opened WaitCodes
  import opened SerialPort
  import SP = SerialProtocol

  type Pc = SP.Pc

  /** The kernel with all its objects, the port, and for each task where in the driver its program is:
      a task that has been woken is still in its wai_sem until it runs again. */
  datatype World = World(s: Y.Sys, port: Port, at: seq<Pc>, err: bool)

  /** The numbers of the semaphores of the port. */
  datatype Ids = Ids(snd: nat, rcv: nat)

  function IdOf(x: Ids, snd: bool): nat { if snd then x.snd else x.rcv }

  predicate InWait(p: Pc) { p.WWait? || p.RWait? }

  predicate Waiting(w: World, t: Tid) { t < |w.s.c.ts.tcb| && w.s.c.ts.tcb[t].tstat.Waiting? }

  // ----- the abstraction -----

  /** Where the protocol sees task t: as soon as its wait has ended, it has got the resource, or has
      given up. */
  function PcOf(w: World, t: Tid): Pc
    requires t < |w.at| == |w.s.c.ts.tcb|
  {
    if !InWait(w.at[t]) || Waiting(w, t) then w.at[t]
    else if w.s.c.ts.tcb[t].winfo == Wercd(E_OK) then SP.Woken(w.at[t])
    else SP.Idle
  }

  predicate Shaped(w: World, x: Ids) {
    |w.at| == |w.s.c.ts.tcb| && x.snd < |w.s.sem| && x.rcv < |w.s.sem| && x.snd != x.rcv
  }

  function Pcs(w: World): (r: seq<Pc>)
    requires |w.at| == |w.s.c.ts.tcb|
    ensures |r| == |w.at|
  {
    seq(|w.at|, t requires 0 <= t < |w.at| => PcOf(w, t))
  }

  /** The state of the protocol that the system is in. */
  function Abs(w: World, x: Ids): SP.St
    requires Shaped(w, x)
  {
    SP.St(w.port, w.s.sem[x.snd].cnt, w.s.sem[x.rcv].cnt, Pcs(w), w.err)
  }

  /** Exactly the tasks that wait inside the driver are queued at its semaphores. */
  ghost predicate QueueIs(w: World, i: nat, snd: bool) {
    forall t: Tid :: t in WaitQ(w.s.c, SemQ(i)) <==> t < |w.at| && SP.Waits(w.at[t], snd) && Waiting(w, t)
  }

  ghost predicate Tied(w: World, x: Ids) {
    && Shaped(w, x)
    && QueueIs(w, x.snd, true) && QueueIs(w, x.rcv, false)
    && w.s.sem[x.snd].max == 1 == w.s.sem[x.rcv].max
  }

  /** A task that runs inside the driver does so with dispatching enabled. */
  predicate Allowed(w: World) {
    var c := w.s.c;
    c.run.Some? && c.run.value < |w.at| && !w.at[c.run.value].Idle? ==> c.fl.dspflg
  }

  /** Tasks wait in the driver without a timer, and return with E_OK or because they are released. */
  predicate Untimed(w: World) {
    forall t :: 0 <= t < |w.at| && t < |w.s.c.ts.tcb| && InWait(w.at[t]) ==>
      var i := w.s.c.ts.tcb[t].winfo;
      if Waiting(w, t) then i == Timer(false) else i == Wercd(E_OK) || i == Wercd(E_RLWAI)
  }

  ghost predicate WorldInv(g: Config, w: World, x: Ids) {
    SysInv(g, w.s) && Tied(w, x) && Allowed(w) && Untimed(w) && SP.ProtoInv(Abs(w, x))
  }

  ghost predicate SysInv(g: Config, s: Y.Sys) { Y.SysInv(g, s) }

  // ----- steps -----

  datatype Act =
    | WriDat(buf: seq<char>) | ReaDat(len: nat) | Go(ready: bool)
    | SndReady | Received(c: char, ready: bool) | CtlPor(ioctl: Ioctl)
    | Other(op: Y.Op)

  /** sig_sem or isig_sem on a semaphore of the port. */
  ghost function Signal(g: Config, w: World, i: nat): World
    requires Y.May(g, w.s, Y.OnSem(i, Y.Sig))
  {
    w.(s := Y.Step(g, w.s, Y.OnSem(i, Y.Sig)), err := w.err || S.SigSem(g, w.s.c, w.s.sem[i], i).2 != E_OK)
  }

  const Forever := Y.Wai(Tmo(TMO_FEVR))

  /** wai_sem, called by task t, which goes on at got, or waits at wait. */
  ghost function Ask(g: Config, w: World, i: nat, t: Tid, got: Pc, wait: Pc): World
    requires Y.May(g, w.s, Y.OnSem(i, Forever)) && t < |w.at|
  {
    var er := S.WaiSem(g, w.s.c, w.s.sem[i], i, Forever.p).2;
    w.(s := Y.Step(g, w.s, Y.OnSem(i, Forever)),
       at := w.at[t := if er == E_OK then got else if er == BLOCKED then wait else SP.Idle],
       err := w.err || (er != E_OK && er != BLOCKED))
  }

  ghost predicate Usable(g: Config, w: World, x: Ids)
    requires Shaped(w, x)
  {
    && Y.May(g, w.s, Y.OnSem(x.snd, Y.Sig)) && Y.May(g, w.s, Y.OnSem(x.rcv, Y.Sig))
    && Y.May(g, w.s, Y.OnSem(x.snd, Forever)) && Y.May(g, w.s, Y.OnSem(x.rcv, Forever))
  }

  /** There is something to write, and to read. */
  predicate Possible(w: World, t: Tid) {
    && t < |w.at|
    && match w.at[t]
       case WGot(rest, _) => rest != []
       case RGot(left) => w.port.rcv != [] && left > 0
       case _ => true
  }

  /** gen_ercd_wait: what a task that returns from wai_sem with an error does to the error flag. */
  predicate SetsError(w: World, t: Tid) {
    t < |w.s.c.ts.tcb| && w.s.c.ts.tcb[t].winfo !in {Wercd(E_OK), Wercd(E_RLWAI), Wercd(E_DLT)}
  }

  /** The next step of task t inside the driver. */
  ghost function GoStep(g: Config, w: World, x: Ids, t: Tid, ready: bool): World
    requires Shaped(w, x) && t < |w.at| && Usable(g, w, x) && Possible(w, t)
  {
    match w.at[t]
    case Idle => w
    case WTop(full, rest) =>
      if rest == [] then (if full then w else Signal(g, w, x.snd)).(at := w.at[t := SP.Idle])
      else w.(at := w.at[t := if full then SP.WAsk(rest, false) else SP.WGot(rest, false)])
    case WAsk(rest, lf) => Ask(g, w, x.snd, t, SP.WGot(rest, lf), SP.WWait(rest, lf))
    case WGot(rest, lf) =>
      if !lf && rest[0] == '\n' && w.port.ioctl.crlf then
        var (q, full) := WriChr(w.port, '\r', ready);
        w.(port := q, at := w.at[t := if full then SP.WAsk(rest, true) else SP.WGot(rest, true)])
      else
        var (q, full) := WriChr(w.port, rest[0], ready);
        w.(port := q, at := w.at[t := SP.WTop(full, rest[1..])])
    case RTop(empty, left) =>
      if left == 0 then (if empty then w else Signal(g, w, x.rcv)).(at := w.at[t := SP.Idle])
      else w.(at := w.at[t := if empty then SP.RAsk(left) else SP.RGot(left)])
    case RAsk(left) => Ask(g, w, x.rcv, t, SP.RGot(left), SP.RWait(left))
    case RGot(left) =>
      var (q, c, empty) := ReaChr(w.port, ready);
      w.(port := q, at := w.at[t := SP.RTop(empty, left - 1)])
    case _ => w.(at := w.at[t := PcOf(w, t)], err := w.err || SetsError(w, t))
  }

  /** A task may be terminated only outside the driver, or while it waits in it. */
  predicate MayBeEnded(w: World, t: Tid) {
    t < |w.at| && (w.at[t].Idle? || (InWait(w.at[t]) && Waiting(w, t)))
  }

  /** A task enters the driver with dispatching enabled (sns_dpn); inside it makes no other calls.  The
      callbacks run in interrupt handlers.  Nobody else uses the semaphores. */
  ghost predicate MayAct(g: Config, w: World, x: Ids, a: Act)
    requires Shaped(w, x)
  {
    var c := w.s.c;
    var run := if T.InTask(c) then c.run else None;
    match a
    case WriDat(_) => T.MayBlock(c) && c.run.value < |w.at| && w.at[c.run.value].Idle?
    case ReaDat(_) => T.MayBlock(c) && c.run.value < |w.at| && w.at[c.run.value].Idle?
    case Go(_) => T.InTask(c) && c.run.value < |w.at| && !w.at[c.run.value].Idle?
    case SndReady => c.nest > 0
    case Received(_, _) => c.nest > 0
    case CtlPor(_) => true
    case Other(op) =>
      && Y.May(g, w.s, op)
      && Y.Own(op) !! {SemQ(x.snd), SemQ(x.rcv)}
      && (run.Some? && run.value < |w.at| && !w.at[run.value].Idle? ==> op.OnKernel?)
      && (op.OnTask? && op.top.Ter? ==> MayBeEnded(w, op.top.t))
  }

  /** A task that is terminated while it waits in the driver will start from the beginning. */
  function EndedAt(w: World, s': Y.Sys, op: Y.Op): seq<Pc> {
    if op.OnTask? && op.top.Ter? && op.top.t < |w.at| && !Waiting(w.(s := s'), op.top.t) then w.at[op.top.t := SP.Idle]
    else w.at
  }

  /** A step of the whole system. */
  ghost function Step(g: Config, w: World, x: Ids, a: Act): World
    requires Shaped(w, x) && Usable(g, w, x) && MayAct(g, w, x, a)
    requires a.Go? ==> Possible(w, w.s.c.run.value)
  {
    match a
    case WriDat(buf) => w.(at := w.at[w.s.c.run.value := SP.WTop(true, buf)])
    case ReaDat(len) => w.(at := w.at[w.s.c.run.value := SP.RTop(true, len)])
    case Go(ready) => GoStep(g, w, x, w.s.c.run.value, ready)
    case SndReady =>
      var (q, sig) := IrdySnd(w.port);
      (if sig then Signal(g, w, x.snd) else w).(port := q)
    case Received(c, ready) =>
      var (q, sigS, sigR) := IrdyRcv(w.port, c, ready);
      (if sigS then Signal(g, w, x.snd) else if sigR then Signal(g, w, x.rcv) else w).(port := q)
    case CtlPor(ioctl) => w.(port := w.port.(ioctl := ioctl))
    case Other(op) =>
      var s' := Y.Step(g, w.s, op);
      w.(s := s', at := EndedAt(w, s', op))
  }

  lemma CanUse(g: Config, w: World, x: Ids)
    requires SysInv(g, w.s) && Shaped(w, x)
    ensures Usable(g, w, x)
  {
    W.WaitersAreWaiting(w.s.c, SemQ(x.snd));
    W.WaitersAreWaiting(w.s.c, SemQ(x.rcv));
  }

  // ----- signals -----

  /** The task that a signal wakes. */
  function Head(w: World, i: nat): Option<Tid> {
    if WaitQ(w.s.c, SemQ(i)) == [] then None else Some(WaitQ(w.s.c, SemQ(i))[0])
  }

  /** What a signal does in the kernel. */
  lemma SignalCore(g: Config, w: World, i: nat)
    requires SysInv(g, w.s) && i < |w.s.sem| && T.Live(w.s.c)
    ensures Y.May(g, w.s, Y.OnSem(i, Y.Sig))
    ensures var w', q, y := Signal(g, w, i), WaitQ(w.s.c, SemQ(i)), w.s.sem[i];
            && w' == w.(s := w'.s, err := w'.err) && |w'.s.sem| == |w.s.sem|
            && w'.s.c.fl.dspflg == w.s.c.fl.dspflg && (w'.s.c.run != w.s.c.run ==> w.s.c.fl.dspflg)
            && (forall j :: 0 <= j < |w.s.sem| && j != i ==> w'.s.sem[j] == w.s.sem[j]) && w'.s.sem[i].max == y.max
            && if q != [] then
                 && q[0] < |w.s.c.ts.tcb| && w.s.c.ts.tcb[q[0]].tstat.Waiting?
                 && w'.s.c.ts.tcb == w.s.c.ts.tcb[q[0] := Woken(w.s.c.ts.tcb[q[0]], E_OK, W.DataOf(w.s.c, q[0]))]
                 && w'.s.sem[i].cnt == y.cnt && w'.err == w.err
               else
                 && w'.s.c == w.s.c
                 && (if y.cnt < y.max then w'.s.sem[i].cnt == y.cnt + 1 && w'.err == w.err
                     else w'.s.sem[i].cnt == y.cnt && w'.err)
  {
    hide Y.ObjectsInv, Sorted, TimersInv, TimeInv, Unlink, Insert, Top;
    W.WaitersAreWaiting(w.s.c, SemQ(i));
    assert WaitQ(w.s.c, SemQ(i)) != [] ==> WaitQ(w.s.c, SemQ(i))[0] in WaitQ(w.s.c, SemQ(i));
  }

  /** A queue is that of the waiting tasks, again. */
  lemma QueueTold(g: Config, w: World, w': World, i: nat, snd: bool)
    requires SysInv(g, w.s) && SysInv(g, w'.s) && QueueIs(w, i, snd) && |w.at| == |w.s.c.ts.tcb|
    requires |w'.at| == |w.at| && |w'.s.c.ts.tcb| == |w.s.c.ts.tcb|
    requires forall t :: 0 <= t < |w.at| ==>
               (Home(w'.s.c.ts.tcb[t]) == Some(Wait(SemQ(i))) <==> SP.Waits(w'.at[t], snd) && Waiting(w', t))
    ensures QueueIs(w', i, snd)
  {
    W.WaitersAreWaiting(w'.s.c, SemQ(i));
  }

  lemma HomeIs(g: Config, w: World, i: nat, snd: bool, t: Tid)
    requires SysInv(g, w.s) && QueueIs(w, i, snd) && t < |w.at| == |w.s.c.ts.tcb|
    ensures Home(w.s.c.ts.tcb[t]) == Some(Wait(SemQ(i))) <==> SP.Waits(w.at[t], snd) && Waiting(w, t)
  {
    W.WaitersAreWaiting(w.s.c, SemQ(i));
  }

  lemma SignalTied(g: Config, w: World, x: Ids, i: nat)
    requires SysInv(g, w.s) && Tied(w, x) && (i == x.snd || i == x.rcv) && T.Live(w.s.c)
    ensures Y.May(g, w.s, Y.OnSem(i, Y.Sig)) && SysInv(g, Signal(g, w, i).s) && Tied(Signal(g, w, i), x)
  {
    hide SysInv, QueueIs, Signal, Home;
    SignalCore(g, w, i);
    KeepsInv(g, w, Y.OnSem(i, Y.Sig), i);
    var w' := Signal(g, w, i);
    forall t | 0 <= t < |w.at|
      ensures Home(w'.s.c.ts.tcb[t]) == Some(Wait(SemQ(x.snd))) <==> SP.Waits(w'.at[t], true) && Waiting(w', t)
      ensures Home(w'.s.c.ts.tcb[t]) == Some(Wait(SemQ(x.rcv))) <==> SP.Waits(w'.at[t], false) && Waiting(w', t)
    {
      HomeIs(g, w, x.snd, true, t);
      HomeIs(g, w, x.rcv, false, t);
      NotHome(w'.s.c.ts.tcb[t]);
    }
    QueueTold(g, w, w', x.snd, true);
    QueueTold(g, w, w', x.rcv, false);
  }

  lemma NotHome(b: TCB)
    ensures !b.tstat.Waiting? ==> forall wq :: Home(b) != Some(Wait(wq))
  {
  }

  lemma KeepsInv(g: Config, w: World, op: Y.Op, i: nat)
    requires SysInv(g, w.s) && Y.May(g, w.s, op)
    ensures SysInv(g, Y.Step(g, w.s, op))
    ensures op == Y.OnSem(i, Y.Sig) ==> Signal(g, w, i).s == Y.Step(g, w.s, op)
  {
    StepKeepsInv(g, w.s, op);
  }

  /** The signal of the kernel is the signal of the protocol. */
  lemma SignalSim(g: Config, w: World, x: Ids, snd: bool)
    requires SysInv(g, w.s) && Tied(w, x) && T.Live(w.s.c)
    ensures Y.May(g, w.s, Y.OnSem(IdOf(x, snd), Y.Sig))
    ensures var i := IdOf(x, snd); var w' := Signal(g, w, i);
            && SysInv(g, w'.s) && Tied(w', x) && w'.at == w.at && w'.port == w.port
            && SP.WhoOk(Pcs(w), snd, Head(w, i)) && Abs(w', x) == SP.Sig(Abs(w, x), snd, Head(w, i))
  {
    hide SysInv, Signal;
    var i := IdOf(x, snd);
    SignalCore(g, w, i);
    SignalTied(g, w, x, i);
    var w', q := Signal(g, w, i), WaitQ(w.s.c, SemQ(i));
    if q == [] {
      forall t | 0 <= t < |w.at| ensures !SP.Waits(PcOf(w, t), snd) { assert !(t in q); }
      assert Pcs(w') == Pcs(w);
    } else {
      assert q[0] in q;
      assert Pcs(w') == Pcs(w)[q[0] := SP.Woken(w.at[q[0]])];
    }
  }

  // ----- waiting -----

  /** What wai_sem does in the kernel. */
  lemma AskCore(g: Config, w: World, i: nat, t: Tid, got: Pc, wait: Pc)
    requires SysInv(g, w.s) && i < |w.s.sem| && T.MayBlock(w.s.c) && w.s.c.run == Some(t)
             && t < |w.at| == |w.s.c.ts.tcb|
    ensures Y.May(g, w.s, Y.OnSem(i, Forever))
    ensures var w', y := Ask(g, w, i, t, got, wait), w.s.sem[i];
            && |w'.s.sem| == |w.s.sem| && (forall j :: 0 <= j < |w.s.sem| && j != i ==> w'.s.sem[j] == w.s.sem[j])
            && w'.s.sem[i].max == y.max && w'.port == w.port && w'.err == w.err && w'.s.c.fl == w.s.c.fl
            && if y.cnt >= 1 then
                 w'.s.c == w.s.c && w'.s.sem[i].cnt == y.cnt - 1 && w'.at == w.at[t := got]
               else
                 && w'.s.sem[i].cnt == y.cnt && w'.at == w.at[t := wait]
                 && |w'.s.c.ts.tcb| == |w.at| && w'.s.c.ts.tcb == w.s.c.ts.tcb[t := w'.s.c.ts.tcb[t]]
                 && w'.s.c.ts.tcb[t].tstat == TStat.Waiting(Obj(SemQ(i)), false)
                 && w'.s.c.ts.tcb[t].winfo == Timer(false)
  {
    hide Y.ObjectsInv, Sorted, TimersInv, TimeInv, Unlink, Insert, Top;
    W.WaitersAreWaiting(w.s.c, SemQ(i));
  }

  /** The running task does not wait. */
  lemma RunnerRuns(g: Config, w: World)
    requires SysInv(g, w.s) && T.MayBlock(w.s.c)
    ensures w.s.c.run.value < |w.s.c.ts.tcb| && !Waiting(w, w.s.c.run.value)
  {
  }

  lemma AskTied(g: Config, w: World, x: Ids, snd: bool, t: Tid, got: Pc, wait: Pc)
    requires SysInv(g, w.s) && Tied(w, x) && T.MayBlock(w.s.c) && w.s.c.run == Some(t) && t < |w.at|
    requires SP.Waits(wait, snd) && !SP.Waits(wait, !snd)
    ensures Y.May(g, w.s, Y.OnSem(IdOf(x, snd), Forever))
    ensures var w' := Ask(g, w, IdOf(x, snd), t, got, wait); SysInv(g, w'.s) && Tied(w', x)
  {
    hide SysInv, QueueIs, Ask, Home;
    var i := IdOf(x, snd);
    AskCore(g, w, i, t, got, wait);
    RunnerRuns(g, w);
    AskKeepsInv(g, w, i, t, got, wait);
    var w' := Ask(g, w, i, t, got, wait);
    forall u | 0 <= u < |w.at|
      ensures Home(w'.s.c.ts.tcb[u]) == Some(Wait(SemQ(x.snd))) <==> SP.Waits(w'.at[u], true) && Waiting(w', u)
      ensures Home(w'.s.c.ts.tcb[u]) == Some(Wait(SemQ(x.rcv))) <==> SP.Waits(w'.at[u], false) && Waiting(w', u)
    {
      HomeIs(g, w, x.snd, true, u);
      HomeIs(g, w, x.rcv, false, u);
      HomeOf(w'.s.c.ts.tcb[u]);
    }
    QueueTold(g, w, w', x.snd, true);
    QueueTold(g, w, w', x.rcv, false);
  }

  lemma HomeOf(b: TCB)
    ensures forall wq :: Home(b) == Some(Wait(wq)) <==> b.tstat.Waiting? && b.tstat.why == Obj(wq)
  {
  }

  lemma AskKeepsInv(g: Config, w: World, i: nat, t: Tid, got: Pc, wait: Pc)
    requires SysInv(g, w.s) && Y.May(g, w.s, Y.OnSem(i, Forever)) && t < |w.at|
    ensures SysInv(g, Ask(g, w, i, t, got, wait).s)
  {
    StepKeepsInv(g, w.s, Y.OnSem(i, Forever));
  }

  /** wai_sem is the step of the protocol that takes the resource or waits for it. */
  lemma AskSim(g: Config, w: World, x: Ids, snd: bool, t: Tid, got: Pc, wait: Pc)
    requires SysInv(g, w.s) && Tied(w, x) && T.MayBlock(w.s.c) && w.s.c.run == Some(t) && t < |w.at|
    requires SP.Waits(wait, snd) && !SP.Waits(wait, !snd) && !InWait(got)
    ensures Y.May(g, w.s, Y.OnSem(IdOf(x, snd), Forever))
    ensures var w' := Ask(g, w, IdOf(x, snd), t, got, wait); var a, a' := Abs(w, x), Abs(w', x);
            && SysInv(g, w'.s) && Tied(w', x) && a'.port == a.port && a'.err == a.err
            && SP.Count(a', !snd) == SP.Count(a, !snd)
            && if SP.Count(a, snd) >= 1 then SP.Count(a', snd) == SP.Count(a, snd) - 1 && a'.pc == a.pc[t := got]
               else SP.Count(a', snd) == SP.Count(a, snd) && a'.pc == a.pc[t := wait]
  {
    hide SysInv, Ask;
    var i := IdOf(x, snd);
    AskCore(g, w, i, t, got, wait);
    AskTied(g, w, x, snd, t, got, wait);
    RunnerRuns(g, w);
    var w' := Ask(g, w, i, t, got, wait);
    if w.s.sem[i].cnt >= 1 {
      assert Pcs(w') == Pcs(w)[t := got];
    } else {
      assert Pcs(w') == Pcs(w)[t := wait];
    }
  }

  // ----- the steps of tasks -----

  /** The step of the protocol that the act stands for: the same task with the same arguments, the same
      interrupt with the same character; other steps of the kernel can only release a waiting task. */
  predicate Answers(w: World, a: Act, e: SP.Move) {
    match a
    case WriDat(buf) => w.s.c.run.Some? && e == SP.WStart(w.s.c.run.value, buf)
    case ReaDat(len) => w.s.c.run.Some? && e == SP.RStart(w.s.c.run.value, len)
    case Go(ready) => e.Run? && w.s.c.run == Some(e.t) && e.ready == ready
    case SndReady => e.SndIrq?
    case Received(c, ready) => e.RcvIrq? && e.c == c && e.ready == ready
    case CtlPor(ioctl) => e == SP.Ctl(ioctl)
    case Other(op) => e.Release? && Ended(op) == Some(e.t)
  }

  /** What the protocol need not see: steps of the kernel, and the return of a woken task from wai_sem. */
  predicate Unseen(w: World, a: Act) {
    a.Other? || (a.Go? && w.s.c.run.Some? && w.s.c.run.value < |w.at| && InWait(w.at[w.s.c.run.value]))
  }

  /** The step is the one of the protocol that it stands for, or cannot be seen there. */
  ghost predicate Simulated(w: World, a: Act, w': World, x: Ids)
    requires Shaped(w, x) && Shaped(w', x)
  {
    || (Unseen(w, a) && Abs(w', x) == Abs(w, x))
    || exists e :: Answers(w, a, e) && SP.Enabled(Abs(w, x), e) && Abs(w', x) == SP.Step(Abs(w, x), e)
  }

  ghost predicate Good(g: Config, w: World, a: Act, w': World, x: Ids)
    requires Shaped(w, x)
  {
    SysInv(g, w'.s) && Tied(w', x) && Simulated(w, a, w', x)
  }

  lemma GoodBy(g: Config, w: World, a: Act, w': World, x: Ids, e: SP.Move)
    requires Shaped(w, x) && SysInv(g, w'.s) && Tied(w', x)
    requires Answers(w, a, e) && SP.Enabled(Abs(w, x), e) && Abs(w', x) == SP.Step(Abs(w, x), e)
    ensures Good(g, w, a, w', x)
  {
  }

  /** A task that does not wait goes on to p. */
  lemma MovesTo(g: Config, w: World, x: Ids, t: Tid, p: Pc, q: Port)
    requires SysInv(g, w.s) && Tied(w, x) && t < |w.at| && !Waiting(w, t) && !InWait(p)
    ensures var w' := w.(at := w.at[t := p], port := q);
            Tied(w', x) && Abs(w', x) == Abs(w, x).(pc := Abs(w, x).pc[t := p], port := q)
  {
    hide SysInv;
    var w' := w.(at := w.at[t := p], port := q);
    assert Pcs(w') == Pcs(w)[t := p];
  }

  lemma ReturnSim(g: Config, w: World, x: Ids, t: Tid, snd: bool, ready: bool)
    requires WorldInv(g, w, x) && T.MayBlock(w.s.c) && w.s.c.run == Some(t) && t < |w.at|
    requires if snd then w.at[t] == SP.WTop(false, []) else w.at[t] == SP.RTop(false, 0)
    ensures Y.May(g, w.s, Y.OnSem(IdOf(x, snd), Y.Sig))
    ensures Good(g, w, Go(ready), Signal(g, w, IdOf(x, snd)).(at := w.at[t := SP.Idle]), x)
  {
    hide SysInv, Signal, SP.ProtoInv, QueueIs;
    var i := IdOf(x, snd);
    SignalSim(g, w, x, snd);
    var w1 := Signal(g, w, i);
    RunnerStill(g, w, i, t);
    MovesTo(g, w1, x, t, SP.Idle, w1.port);
    GoodBy(g, w, Go(ready), w1.(at := w.at[t := SP.Idle]), x, SP.Run(t, ready, Head(w, i)));
  }

  lemma RunnerStill(g: Config, w: World, i: nat, t: Tid)
    requires SysInv(g, w.s) && i < |w.s.sem| && T.MayBlock(w.s.c) && w.s.c.run == Some(t) && |w.at| == |w.s.c.ts.tcb|
    ensures Y.May(g, w.s, Y.OnSem(i, Y.Sig))
    ensures t < |w.at| && !Waiting(w, t) && !Waiting(Signal(g, w, i), t)
  {
    hide SysInv, Signal;
    SignalCore(g, w, i);
    RunnerRuns(g, w);
  }

  lemma TopSim(g: Config, w: World, x: Ids, t: Tid, ready: bool)
    requires WorldInv(g, w, x) && T.MayBlock(w.s.c) && w.s.c.run == Some(t) && t < |w.at|
    requires w.at[t].WTop? || w.at[t].RTop?
    ensures Usable(g, w, x) && Good(g, w, Go(ready), GoStep(g, w, x, t, ready), x)
  {
    hide SysInv, Signal, SP.ProtoInv, QueueIs, Usable, Good, Y.May;
    CanUse(g, w, x);
    RunnerRuns(g, w);
    var p, w', e := w.at[t], GoStep(g, w, x, t, ready), SP.Run(t, ready, None);
    if p == SP.WTop(false, []) {
      ReturnSim(g, w, x, t, true, ready);
    } else if p == SP.RTop(false, 0) {
      ReturnSim(g, w, x, t, false, ready);
    } else {
      MovesTo(g, w, x, t, w'.at[t], w.port);
      GoodBy(g, w, Go(ready), w', x, e);
    }
  }

  lemma AskingSim(g: Config, w: World, x: Ids, t: Tid, ready: bool)
    requires WorldInv(g, w, x) && T.MayBlock(w.s.c) && w.s.c.run == Some(t) && t < |w.at|
    requires w.at[t].WAsk? || w.at[t].RAsk?
    ensures Usable(g, w, x) && Good(g, w, Go(ready), GoStep(g, w, x, t, ready), x)
  {
    hide SysInv, Ask, SP.ProtoInv, QueueIs, Usable, Good, Y.May;
    CanUse(g, w, x);
    match w.at[t] {
      case WAsk(rest, lf) => AskSim(g, w, x, true, t, SP.WGot(rest, lf), SP.WWait(rest, lf));
      case RAsk(left) => AskSim(g, w, x, false, t, SP.RGot(left), SP.RWait(left));
    }
    GoodBy(g, w, Go(ready), GoStep(g, w, x, t, ready), x, SP.Run(t, ready, None));
  }

  lemma GotSim(g: Config, w: World, x: Ids, t: Tid, ready: bool)
    requires WorldInv(g, w, x) && T.MayBlock(w.s.c) && w.s.c.run == Some(t) && t < |w.at|
    requires w.at[t].WGot? || w.at[t].RGot?
    ensures Usable(g, w, x) && Possible(w, t) && Good(g, w, Go(ready), GoStep(g, w, x, t, ready), x)
  {
    hide SysInv, QueueIs, Usable, Good, Y.May, PortOk, SP.OneToken, WriChr, ReaChr;
    CanUse(g, w, x);
    RunnerRuns(g, w);
    assert SP.PcOk(Abs(w, x).pc[t]);
    if w.at[t].RGot? { SP.NotStuck(Abs(w, x), t); }
    var w' := GoStep(g, w, x, t, ready);
    MovesTo(g, w, x, t, w'.at[t], w'.port);
    GoodBy(g, w, Go(ready), w', x, SP.Run(t, ready, None));
  }

  /** A task that resumes in wai_sem finds what the protocol has known since its wait ended. */
  lemma ResumeSim(g: Config, w: World, x: Ids, t: Tid, ready: bool)
    requires WorldInv(g, w, x) && T.MayBlock(w.s.c) && w.s.c.run == Some(t) && t < |w.at| && InWait(w.at[t])
    ensures Usable(g, w, x) && Good(g, w, Go(ready), GoStep(g, w, x, t, ready), x)
  {
    hide SysInv, QueueIs, SP.ProtoInv, Usable, Y.May;
    CanUse(g, w, x);
    RunnerRuns(g, w);
    MovesTo(g, w, x, t, PcOf(w, t), w.port);
    assert Pcs(w)[t := PcOf(w, t)] == Pcs(w);
  }

  lemma GoSim(g: Config, w: World, x: Ids, ready: bool)
    requires WorldInv(g, w, x) && MayAct(g, w, x, Go(ready))
    ensures Usable(g, w, x) && Possible(w, w.s.c.run.value) && Good(g, w, Go(ready), Step(g, w, x, Go(ready)), x)
  {
    hide SysInv, QueueIs, SP.ProtoInv, Usable, Good, GoStep;
    var t := w.s.c.run.value;
    match w.at[t]
    case WTop(_, _) => TopSim(g, w, x, t, ready);
    case RTop(_, _) => TopSim(g, w, x, t, ready);
    case WAsk(_, _) => AskingSim(g, w, x, t, ready);
    case RAsk(_) => AskingSim(g, w, x, t, ready);
    case WGot(_, _) => GotSim(g, w, x, t, ready);
    case RGot(_) => GotSim(g, w, x, t, ready);
    case WWait(_, _) => ResumeSim(g, w, x, t, ready);
    case RWait(_) => ResumeSim(g, w, x, t, ready);
  }

  lemma EnterSim(g: Config, w: World, x: Ids, a: Act)
    requires WorldInv(g, w, x) && MayAct(g, w, x, a) && (a.WriDat? || a.ReaDat? || a.CtlPor?)
    ensures Usable(g, w, x) && Good(g, w, a, Step(g, w, x, a), x)
  {
    hide SysInv, QueueIs, SP.ProtoInv, Usable, Good, Y.May;
    CanUse(g, w, x);
    match a
    case WriDat(buf) =>
      RunnerRuns(g, w);
      MovesTo(g, w, x, w.s.c.run.value, SP.WTop(true, buf), w.port);
      GoodBy(g, w, a, Step(g, w, x, a), x, SP.WStart(w.s.c.run.value, buf));
    case ReaDat(len) =>
      RunnerRuns(g, w);
      MovesTo(g, w, x, w.s.c.run.value, SP.RTop(true, len), w.port);
      GoodBy(g, w, a, Step(g, w, x, a), x, SP.RStart(w.s.c.run.value, len));
    case CtlPor(ioctl) =>
      PortTied(w, x, w.port.(ioctl := ioctl));
      GoodBy(g, w, a, Step(g, w, x, a), x, SP.Ctl(ioctl));
  }

  lemma PortTied(w: World, x: Ids, q: Port)
    requires Tied(w, x)
    ensures Tied(w.(port := q), x) && Abs(w.(port := q), x) == Abs(w, x).(port := q)
  {
    assert Pcs(w.(port := q)) == Pcs(w);
  }

  // ----- interrupts -----

  lemma SndReadySim(g: Config, w: World, x: Ids)
    requires WorldInv(g, w, x) && MayAct(g, w, x, SndReady)
    ensures Usable(g, w, x) && Good(g, w, SndReady, Step(g, w, x, SndReady), x)
  {
    hide SysInv, QueueIs, SP.ProtoInv, Usable, Good, Y.May, Signal, IrdySnd, Pcs, SP.Sig;
    CanUse(g, w, x);
    SignalSim(g, w, x, true);
    var w' := Step(g, w, x, SndReady);
    PortTied(w, x, w'.port);
    PortTied(Signal(g, w, x.snd), x, w'.port);
    GoodBy(g, w, SndReady, w', x, SP.SndIrq(Head(w, x.snd)));
  }

  lemma ReceivedSim(g: Config, w: World, x: Ids, c: char, ready: bool)
    requires WorldInv(g, w, x) && MayAct(g, w, x, Received(c, ready))
    ensures Usable(g, w, x) && Good(g, w, Received(c, ready), Step(g, w, x, Received(c, ready)), x)
  {
    hide SysInv, QueueIs, SP.ProtoInv, Usable, Good, Y.May, Signal, IrdyRcv, Pcs, SP.Sig;
    CanUse(g, w, x);
    SignalSim(g, w, x, true);
    SignalSim(g, w, x, false);
    var w' := Step(g, w, x, Received(c, ready));
    PortTied(w, x, w'.port);
    PortTied(Signal(g, w, x.snd), x, w'.port);
    PortTied(Signal(g, w, x.rcv), x, w'.port);
    GoodBy(g, w, Received(c, ready), w', x, SP.RcvIrq(c, ready, Head(w, x.snd), Head(w, x.rcv)));
  }

  // ----- everything else -----

  /** Another step does to a task inside the driver nothing but end its wait, and then with an error, or
      terminate it. */
  ghost predicate LeftAlone(w: World, s': Y.Sys, op: Y.Op, t: Tid) {
    && t < |w.at| == |w.s.c.ts.tcb| == |s'.c.ts.tcb|
    && var b, b', p := w.s.c.ts.tcb[t], s'.c.ts.tcb[t], w.at[t];
       InWait(p) ==>
         && (b'.tstat.Waiting? ==> b.tstat.Waiting? && Home(b') == Home(b))
         && (!b.tstat.Waiting? ==> b'.winfo == b.winfo)
         && (b.tstat.Waiting? && !b'.tstat.Waiting? ==>
               Ended(op) == Some(t) && (op == Y.OnTask(Y.Ter(t)) || b'.winfo == Wercd(E_RLWAI)))
         && (b.tstat.Waiting? && b'.tstat.Waiting? ==> b'.winfo == b.winfo)
  }

  lemma OthersLeaveAlone(g: Config, w: World, x: Ids, op: Y.Op, t: Tid)
    requires WorldInv(g, w, x) && MayAct(g, w, x, Other(op)) && t < |w.at|
    ensures LeftAlone(w, Y.Step(g, w.s, op), op, t)
  {
    hide Y.SysInv, QueueIs, SP.ProtoInv, Y.May, Y.Step, Home, Remove;
    var s' := Y.Step(g, w.s, op);
    StepCodes(g, w.s, op);
    if InWait(w.at[t]) {
      if Waiting(w, t) {
        var i := IdOf(x, w.at[t].WWait?);
        AtQueue(g, w, x, t);
        ForeignQueue(g, w.s, op, SemQ(i));
        StillQueued(g, w, s', op, i, t);
      } else {
        NoNewWait(g, w, x, op, t);
      }
    }
  }

  /** A task that waits inside the driver hangs on its queue. */
  lemma AtQueue(g: Config, w: World, x: Ids, t: Tid)
    requires WorldInv(g, w, x) && t < |w.at| && InWait(w.at[t]) && Waiting(w, t)
    ensures t in WaitQ(w.s.c, SemQ(IdOf(x, w.at[t].WWait?)))
  {
    hide SysInv, SP.ProtoInv;
  }

  /** Either it still does, or its wait has been ended from outside. */
  lemma StillQueued(g: Config, w: World, s': Y.Sys, op: Y.Op, i: nat, t: Tid)
    requires SysInv(g, w.s) && Y.May(g, w.s, op) && s' == Y.Step(g, w.s, op) && t in WaitQ(w.s.c, SemQ(i))
    requires QueueKept(g, op, SemQ(i), WaitQ(w.s.c, SemQ(i)), WaitQ(s'.c, SemQ(i)))
    requires t < |w.s.c.ts.tcb| == |s'.c.ts.tcb| && Codes(w.s.c, s'.c, Killed(op), EndOf(w.s, op))
    requires w.s.c.ts.tcb[t].winfo == Timer(false)
    ensures if t in WaitQ(s'.c, SemQ(i)) then
              s'.c.ts.tcb[t].tstat.Waiting? && Home(s'.c.ts.tcb[t]) == Home(w.s.c.ts.tcb[t])
            else
              && !s'.c.ts.tcb[t].tstat.Waiting? && Ended(op) == Some(t)
              && (op == Y.OnTask(Y.Ter(t)) || s'.c.ts.tcb[t].winfo == Wercd(E_RLWAI))
  {
    hide Y.ObjectsInv, Sorted, TimersInv, TimeInv, DispInv, Y.May, Y.Step, Remove;
    StepKeepsInv(g, w.s, op);
    W.WaitersAreWaiting(w.s.c, SemQ(i));
    W.WaitersAreWaiting(s'.c, SemQ(i));
    assert t in WaitQ(s'.c, SemQ(i)) <==> t in multiset(WaitQ(s'.c, SemQ(i)));
    assert t in WaitQ(w.s.c, SemQ(i)) <==> t in multiset(WaitQ(w.s.c, SemQ(i)));
    if t !in WaitQ(s'.c, SemQ(i)) {
      if Ended(op) != Some(t) { RemovedOther(WaitQ(w.s.c, SemQ(i)), op, t); }
      EndedIsOut(g, w.s, op, SemQ(i), t);
      if op.OnKernel? { NoTimer(g, w.s, t); }
    }
  }

  /** The timer of a task that waits without one does not fire. */
  lemma NoTimer(g: Config, s: Y.Sys, t: Tid)
    requires SysInv(g, s) && Y.May(g, s, Y.OnKernel(Y.FireTop(TaskBlk(t))))
    ensures TimedWait(s.c.ts.tcb, t)
  {
    assert TaskBlk(t) in s.c.tm;
  }

  lemma RemovedOther(q: seq<Tid>, op: Y.Op, t: Tid)
    requires NoDup(q) && t in q && Ended(op) != Some(t)
    ensures Ended(op).Some? ==> t in Remove(q, Ended(op).value)
  {
    if Ended(op).Some? { RemoveMembers(q, Ended(op).value); }
  }

  /** Nobody inside the driver starts another wait. */
  lemma NoNewWait(g: Config, w: World, x: Ids, op: Y.Op, t: Tid)
    requires WorldInv(g, w, x) && MayAct(g, w, x, Other(op)) && t < |w.at| && InWait(w.at[t]) && !Waiting(w, t)
    requires Codes(w.s.c, Y.Step(g, w.s, op).c, Killed(op), EndOf(w.s, op))
    ensures var s' := Y.Step(g, w.s, op); t < |s'.c.ts.tcb| && !s'.c.ts.tcb[t].tstat.Waiting?
  {
    hide SysInv, QueueIs, SP.ProtoInv;
    if Runs(w.s.c, t) && op.OnKernel? { EntersOnly(g, w.s.c, op.kop); }
  }

  lemma EntersOnly(g: Config, c: Core, op: Y.KernelOp)
    requires Y.KernelMay(g, c, op) && c.nest == 0
    ensures Y.KernelStep(g, c, op).ts == c.ts
  {
  }

  /** The wait of t inside the driver has ended. */
  predicate Out(w: World, w': World, t: Tid)
    requires t < |w.at|
  {
    InWait(w.at[t]) && Waiting(w, t) && !Waiting(w', t)
  }

  /** Where the protocol sees task t after another step: where it was, or at its end if the wait of t has
      been ended. */
  lemma OtherPc(g: Config, w: World, x: Ids, op: Y.Op, t: Tid)
    requires WorldInv(g, w, x) && MayAct(g, w, x, Other(op)) && Usable(g, w, x) && t < |w.at|
    ensures var w' := Step(g, w, x, Other(op));
            && |w'.at| == |w.at| == |w'.s.c.ts.tcb|
            && InWait(w'.at[t]) == (InWait(w.at[t]) && w'.at[t] == w.at[t])
            && (Waiting(w', t) && InWait(w.at[t]) ==> Waiting(w, t) && w'.at[t] == w.at[t])
            && PcOf(w', t) == (if Out(w, w', t) then SP.Idle else PcOf(w, t))
            && (Out(w, w', t) ==> Ended(op) == Some(t))
  {
    hide WorldInv, Y.May, Y.Step, Usable;
    OthersLeaveAlone(g, w, x, op, t);
    if op.OnTask? && op.top.Ter? && op.top.t == t && !InWait(w.at[t]) { assert w.at[t].Idle?; }
  }

  lemma OtherQueue(g: Config, w: World, x: Ids, op: Y.Op, snd: bool)
    requires WorldInv(g, w, x) && MayAct(g, w, x, Other(op)) && Usable(g, w, x)
    ensures QueueIs(Step(g, w, x, Other(op)), IdOf(x, snd), snd)
  {
    hide Y.SysInv, SP.ProtoInv, Y.May, Y.Step, Usable, Home, PcOf, QueueKept;
    var i, w' := IdOf(x, snd), Step(g, w, x, Other(op));
    ForeignQueue(g, w.s, op, SemQ(i));
    KeepsInv(g, w, op, i);
    QueueTasks(g, w, i);
    QueueTasks(g, w', i);
    OtherShape(g, w, x, op);
    forall t: Tid
      ensures t in WaitQ(w'.s.c, SemQ(i)) <==> t < |w'.at| && SP.Waits(w'.at[t], snd) && Waiting(w', t)
    {
      if t < |w.at| {
        OtherPc(g, w, x, op, t);
        OthersLeaveAlone(g, w, x, op, t);
      }
    }
  }

  lemma QueueTasks(g: Config, w: World, i: nat)
    requires SysInv(g, w.s)
    ensures forall t: Tid :: t in WaitQ(w.s.c, SemQ(i)) <==>
              t < |w.s.c.ts.tcb| && Home(w.s.c.ts.tcb[t]) == Some(Wait(SemQ(i)))
    ensures forall t: Tid :: t in WaitQ(w.s.c, SemQ(i)) ==> Waiting(w, t)
  {
    W.WaitersAreWaiting(w.s.c, SemQ(i));
  }

  lemma OtherShape(g: Config, w: World, x: Ids, op: Y.Op)
    requires WorldInv(g, w, x) && MayAct(g, w, x, Other(op)) && Usable(g, w, x)
    ensures var w' := Step(g, w, x, Other(op));
            && Shaped(w', x) && |w'.at| == |w.at| && w'.port == w.port && w'.err == w.err
            && w'.s.sem[x.snd] == w.s.sem[x.snd] && w'.s.sem[x.rcv] == w.s.sem[x.rcv]
  {
    hide Y.SysInv, SP.ProtoInv, QueueIs, Y.May, Y.Step, Usable;
    StepOthersSame(g, w.s, op);
    CoreStepOk(g, w.s, op);
  }

  /** Another step of the kernel cannot be seen in the protocol, or releases a waiting task. */
  lemma OtherSim(g: Config, w: World, x: Ids, op: Y.Op)
    requires WorldInv(g, w, x) && MayAct(g, w, x, Other(op)) && Usable(g, w, x)
    ensures Good(g, w, Other(op), Step(g, w, x, Other(op)), x)
  {
    hide SysInv, SP.ProtoInv, QueueIs, Y.May, Step, Usable, PcOf, MayAct;
    var w' := Step(g, w, x, Other(op));
    OtherShape(g, w, x, op);
    OtherQueue(g, w, x, op, true);
    OtherQueue(g, w, x, op, false);
    OtherKeepsInv(g, w, x, op);
    forall t | 0 <= t < |w.at|
      ensures PcOf(w', t) == (if Out(w, w', t) then SP.Idle else PcOf(w, t)) && (Out(w, w', t) ==> Ended(op) == Some(t))
    {
      OtherPc(g, w, x, op, t);
    }
    if t :| 0 <= t < |w.at| && Out(w, w', t) {
      assert Pcs(w') == Pcs(w)[t := SP.Idle];
      StillThere(w, t);
      GoodBy(g, w, Other(op), w', x, SP.Release(t));
    } else {
      assert Pcs(w') == Pcs(w);
    }
  }

  lemma StillThere(w: World, t: Tid)
    requires t < |w.at| == |w.s.c.ts.tcb| && Waiting(w, t)
    ensures PcOf(w, t) == w.at[t]
  {
  }

  lemma OtherKeepsInv(g: Config, w: World, x: Ids, op: Y.Op)
    requires WorldInv(g, w, x) && MayAct(g, w, x, Other(op)) && Usable(g, w, x)
    ensures SysInv(g, Step(g, w, x, Other(op)).s)
  {
    hide Y.SysInv, SP.ProtoInv, QueueIs, Y.May, Y.Step, Usable;
    StepKeepsInv(g, w.s, op);
  }

  // ----- dispatching -----

  lemma KernelRunKept(g: Config, c: Core, op: Y.KernelOp)
    requires Inv(g, c) && Y.KernelMay(g, c, op)
    ensures var c' := Y.KernelStep(g, c, op); (c'.run != c.run ==> c'.fl.dspflg) && c'.fl.dspflg == c.fl.dspflg
  {
    hide Good, DispInv, Rehome, Top, MayFire;
    if op.FireTop? { FireRunKept(g, c, op.b); }
  }

  lemma FireRunKept(g: Config, c: Core, b: Blk)
    requires Y.KernelMay(g, c, Y.FireTop(b))
    ensures Fire(g, c, b).run == c.run && Fire(g, c, b).fl.dspflg == c.fl.dspflg
  {
    hide Rehome, Top;
  }

  lemma OtherAllowed(g: Config, w: World, x: Ids, op: Y.Op)
    requires WorldInv(g, w, x) && MayAct(g, w, x, Other(op)) && Usable(g, w, x)
    ensures Allowed(Step(g, w, x, Other(op)))
  {
    hide Y.ObjectsInv, Inv, SP.ProtoInv, QueueIs, Usable, QueuesKept, EventsKept, Y.KernelStep, Y.KernelMay, Y.TaskStep;
    hide Y.SemStep, Y.FlgStep, Y.DtqStep, Y.PdqStep, Y.MpfStep, Y.TaskArgs, Y.DtqArgs, Y.PdqArgs;
    if op.OnKernel? { KernelRunKept(g, w.s.c, op.kop); } else { CallFrame(g, w.s, op); }
  }

  lemma GoAllowed(g: Config, w: World, x: Ids, ready: bool)
    requires WorldInv(g, w, x) && MayAct(g, w, x, Go(ready)) && Usable(g, w, x) && Possible(w, w.s.c.run.value)
    ensures Allowed(Step(g, w, x, Go(ready)))
  {
    hide SysInv, SP.ProtoInv, QueueIs, Usable, Signal, Ask, PcOf, WriChr, ReaChr;
    var t := w.s.c.run.value;
    match w.at[t] {
      case WAsk(rest, lf) => AskCore(g, w, x.snd, t, SP.WGot(rest, lf), SP.WWait(rest, lf));
      case RAsk(left) => AskCore(g, w, x.rcv, t, SP.RGot(left), SP.RWait(left));
      case WTop(_, _) => SignalCore(g, w, x.snd);
      case RTop(_, _) => SignalCore(g, w, x.rcv);
      case _ =>
    }
  }

  lemma StepAllowed(g: Config, w: World, x: Ids, a: Act)
    requires WorldInv(g, w, x) && MayAct(g, w, x, a) && Usable(g, w, x) && (a.Go? ==> Possible(w, w.s.c.run.value))
    ensures Allowed(Step(g, w, x, a))
  {
    hide SysInv, SP.ProtoInv, QueueIs, Usable, Signal, GoStep, IrdySnd, IrdyRcv;
    match a
    case Other(op) => OtherAllowed(g, w, x, op);
    case Go(ready) => GoAllowed(g, w, x, ready);
    case SndReady => SignalCore(g, w, x.snd);
    case Received(c, ready) => SignalCore(g, w, x.snd); SignalCore(g, w, x.rcv);
    case _ =>
  }

  lemma SignalUntimed(g: Config, w: World, x: Ids, i: nat)
    requires SysInv(g, w.s) && Tied(w, x) && Untimed(w) && (i == x.snd || i == x.rcv) && T.Live(w.s.c)
    ensures Y.May(g, w.s, Y.OnSem(i, Y.Sig)) && Untimed(Signal(g, w, i))
  {
    hide SysInv, QueueIs, Signal;
    SignalCore(g, w, i);
  }

  lemma AskUntimed(g: Config, w: World, x: Ids, i: nat, t: Tid, got: Pc, wait: Pc)
    requires SysInv(g, w.s) && Tied(w, x) && Untimed(w) && (i == x.snd || i == x.rcv)
    requires T.MayBlock(w.s.c) && w.s.c.run == Some(t) && t < |w.at| && !InWait(got) && InWait(wait)
    ensures Y.May(g, w.s, Y.OnSem(i, Forever)) && Untimed(Ask(g, w, i, t, got, wait))
  {
    hide SysInv, QueueIs, Ask;
    AskCore(g, w, i, t, got, wait);
  }

  /** Nobody else notices that a task goes on to p. */
  lemma MoveUntimed(w: World, t: Tid, p: Pc)
    requires Untimed(w) && t < |w.at| && !InWait(p)
    ensures Untimed(w.(at := w.at[t := p]))
  {
  }

  lemma GoUntimed(g: Config, w: World, x: Ids, ready: bool)
    requires WorldInv(g, w, x) && MayAct(g, w, x, Go(ready)) && Usable(g, w, x) && Possible(w, w.s.c.run.value)
    ensures Untimed(Step(g, w, x, Go(ready)))
  {
    hide SysInv, SP.ProtoInv, QueueIs, Usable, Signal, Ask, WriChr, ReaChr, Untimed, PcOf;
    var t := w.s.c.run.value;
    match w.at[t] {
      case WAsk(rest, lf) => AskUntimed(g, w, x, x.snd, t, SP.WGot(rest, lf), SP.WWait(rest, lf));
      case RAsk(left) => AskUntimed(g, w, x, x.rcv, t, SP.RGot(left), SP.RWait(left));
      case _ => OnUntimed(g, w, x, t, ready);
    }
  }

  lemma OnUntimed(g: Config, w: World, x: Ids, t: Tid, ready: bool)
    requires SysInv(g, w.s) && Tied(w, x) && Untimed(w) && Usable(g, w, x) && T.MayBlock(w.s.c) && w.s.c.run == Some(t)
    requires Possible(w, t) && !w.at[t].WAsk? && !w.at[t].RAsk?
    ensures Untimed(GoStep(g, w, x, t, ready))
  {
    hide SysInv, QueueIs, Usable, Signal, WriChr, ReaChr, Untimed;
    RunnerRuns(g, w);
    SignalUntimed(g, w, x, x.snd);
    SignalUntimed(g, w, x, x.rcv);
    AtKept(g, w, x);
    var w' := GoStep(g, w, x, t, ready);
    MoveUntimed(w, t, w'.at[t]);
    MoveUntimed(Signal(g, w, x.snd), t, w'.at[t]);
    MoveUntimed(Signal(g, w, x.rcv), t, w'.at[t]);
    UntimedFrame(w.(at := w.at[t := w'.at[t]]), w');
  }

  lemma AtKept(g: Config, w: World, x: Ids)
    requires Shaped(w, x) && Usable(g, w, x)
    ensures Signal(g, w, x.snd).at == w.at == Signal(g, w, x.rcv).at
  {
  }

  /** Only the program points and the kernel matter. */
  lemma UntimedFrame(w: World, w': World)
    requires Untimed(w) && w'.at == w.at
    ensures w'.s == w.s ==> Untimed(w')
  {
  }

  lemma OtherUntimed(g: Config, w: World, x: Ids, op: Y.Op)
    requires WorldInv(g, w, x) && MayAct(g, w, x, Other(op)) && Usable(g, w, x)
    ensures Untimed(Step(g, w, x, Other(op)))
  {
    hide SysInv, SP.ProtoInv, QueueIs, Usable, Y.May, Y.Step;
    var s' := Y.Step(g, w.s, op);
    var w' := w.(s := s', at := EndedAt(w, s', op));
    forall t | 0 <= t < |w'.at| && t < |s'.c.ts.tcb| && InWait(w'.at[t])
      ensures var i := s'.c.ts.tcb[t].winfo;
              if Waiting(w', t) then i == Timer(false) else i == Wercd(E_OK) || i == Wercd(E_RLWAI)
    {
      OthersLeaveAlone(g, w, x, op, t);
      assert InWait(w.at[t]);
    }
    OtherIs(g, w, x, op);
  }

  lemma OtherIs(g: Config, w: World, x: Ids, op: Y.Op)
    requires Shaped(w, x) && MayAct(g, w, x, Other(op)) && Usable(g, w, x)
    ensures var s' := Y.Step(g, w.s, op); Step(g, w, x, Other(op)) == w.(s := s', at := EndedAt(w, s', op))
  {
  }

  lemma StepUntimed(g: Config, w: World, x: Ids, a: Act)
    requires WorldInv(g, w, x) && MayAct(g, w, x, a) && Usable(g, w, x) && (a.Go? ==> Possible(w, w.s.c.run.value))
    ensures Untimed(Step(g, w, x, a))
  {
    hide SysInv, SP.ProtoInv, QueueIs, Usable, Signal, GoStep, IrdySnd, IrdyRcv;
    match a
    case Other(op) => OtherUntimed(g, w, x, op);
    case Go(ready) => GoUntimed(g, w, x, ready);
    case SndReady => SignalUntimed(g, w, x, x.snd);
    case Received(c, ready) => SignalUntimed(g, w, x, x.snd); SignalUntimed(g, w, x, x.rcv);
    case _ =>
  }

  // ----- the simulation -----

  /** Every step of the whole system is a step of the protocol, or cannot be seen there; so the invariants
      of the kernel, of its objects and of the protocol hold again. */
  lemma StepSimulates(g: Config, w: World, x: Ids, a: Act)
    requires WorldInv(g, w, x) && MayAct(g, w, x, a)
    ensures Usable(g, w, x) && (a.Go? ==> Possible(w, w.s.c.run.value))
    ensures var w' := Step(g, w, x, a); Shaped(w', x) && Simulated(w, a, w', x) && WorldInv(g, w', x)
  {
    hide Step, MayAct, Usable, SysInv, QueueIs, SP.ProtoInv, Simulated;
    match a {
      case Go(ready) => GoSim(g, w, x, ready);
      case WriDat(_) => EnterSim(g, w, x, a);
      case ReaDat(_) => EnterSim(g, w, x, a);
      case CtlPor(_) => EnterSim(g, w, x, a);
      case SndReady => SndReadySim(g, w, x);
      case Received(c, ready) => ReceivedSim(g, w, x, c, ready);
      case Other(op) => CanUse(g, w, x); OtherSim(g, w, x, op);
    }
    StepAllowed(g, w, x, a);
    StepUntimed(g, w, x, a);
    ProtoKept(w, a, Step(g, w, x, a), x);
  }

  lemma ProtoKept(w: World, a: Act, w': World, x: Ids)
    requires Shaped(w, x) && Shaped(w', x) && Simulated(w, a, w', x) && SP.ProtoInv(Abs(w, x))
    ensures SP.ProtoInv(Abs(w', x))
  {
    hide SP.ProtoInv, SP.Step, SP.Enabled, Abs;
    if Abs(w', x) != Abs(w, x) {
      var e :| Answers(w, a, e) && SP.Enabled(Abs(w, x), e) && Abs(w', x) == SP.Step(Abs(w, x), e);
      SP.StepKeepsProto(Abs(w, x), e);
    }
  }

  ghost predicate IsRun(g: Config, x: Ids, tr: seq<World>, acts: seq<Act>) {
    && |tr| == |acts| + 1
    && forall k :: 0 <= k < |acts| ==>
         && Shaped(tr[k], x) && Usable(g, tr[k], x) && MayAct(g, tr[k], x, acts[k])
         && (acts[k].Go? ==> Possible(tr[k], tr[k].s.c.run.value))
         && tr[k + 1] == Step(g, tr[k], x, acts[k])
  }

  /** Over whole runs of kernel and driver: the semaphores of the kernel, the tasks in the driver and the
      buffers share exactly one resource for each direction, at most one task writes and one reads, no
      buffer overflows, no character is lost, and no signal fails. */
  lemma {:induction false} RunsAreSafe(g: Config, x: Ids, tr: seq<World>, acts: seq<Act>, n: nat)
    requires IsRun(g, x, tr, acts) && WorldInv(g, tr[0], x) && n < |tr|
    ensures WorldInv(g, tr[n], x) && !tr[n].err && PortOk(tr[n].port)
    ensures tr[n].s.sem[x.snd].cnt + SP.Holders(Pcs(tr[n]), true) + SP.Bit(SndFull(tr[n].port)) == 1
    ensures tr[n].s.sem[x.rcv].cnt + SP.Holders(Pcs(tr[n]), false) + SP.Bit(tr[n].port.rcv == []) == 1
  {
    hide SysInv, QueueIs, Usable, MayAct, Step;
    if n > 0 {
      RunsAreSafe(g, x, tr, acts, n - 1);
      assert tr[n - 1 + 1] == Step(g, tr[n - 1], x, acts[n - 1]);
      StepSimulates(g, tr[n - 1], x, acts[n - 1]);
    }
  }

  /** The system starts so when the port is opened, its semaphores as configured, and nobody waits. */
  lemma StartsTied(g: Config, w: World, x: Ids)
    requires SysInv(g, w.s) && Shaped(w, x) && forall t :: 0 <= t < |w.at| ==> w.at[t].Idle?
    requires w.port == Opened(w.port.sndsz, w.port.rcvsz) && 0 < w.port.sndsz && 0 < w.port.rcvsz && !w.err
    requires w.s.sem[x.snd].max == 1 == w.s.sem[x.snd].cnt && w.s.sem[x.rcv].max == 1 && w.s.sem[x.rcv].cnt == 0
    requires WaitQ(w.s.c, SemQ(x.snd)) == [] == WaitQ(w.s.c, SemQ(x.rcv))
    ensures WorldInv(g, w, x)
  {
    hide SysInv;
    SP.InitOk(Abs(w, x));
  }

  // ----- the code of the driver -----

  /** What the callbacks on the control block of the port do (SPCB.SioIrdySnd, SPCB.SioIrdyRcv) is the
      signal of this system. */
  lemma SignalledIsSignal(g: Config, w: World, i: nat, c': Core, y': S.Sem, e': bool)
    requires SysInv(g, w.s) && i < |w.s.sem| && Signalled(g, true, w.s.c, w.s.sem[i], i, w.err, c', y', e')
    ensures Y.May(g, w.s, Y.OnSem(i, Y.Sig))
    ensures Signal(g, w, i) == w.(s := w.s.(c := c', sem := w.s.sem[i := y']), err := e')
  {
    W.WaitersAreWaiting(w.s.c, SemQ(i));
  }
}
