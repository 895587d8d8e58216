/**
  The protocol between the tasks that call serial_wri_dat and serial_rea_dat and the interrupt
  callbacks of a port (syssvc/serial.c): who may touch a buffer is decided by two binary semaphores,
  whose resource passes between the count, the task that holds it, and the state of the buffer.
  Echo is off.
 */
module SerialProtocol {
  import opened Types
  import opened SerialPort

  /** Where a task is.  In serial_wri_dat: at the head of the loop, about to call wai_sem, blocked in
      it, or about to write a character; lf says that the CR has been sent and the LF is next.
      rest is what remains to be written.  Likewise in serial_rea_dat. */
  datatype Pc =
    | Idle
    | WTop(full: bool, rest: seq<char>) | WAsk(rest: seq<char>, lf: bool)
    | WWait(rest: seq<char>, lf: bool) | WGot(rest: seq<char>, lf: bool)
    | RTop(empty: bool, left: nat) | RAsk(left: nat) | RWait(left: nat) | RGot(left: nat)

  /** err is the error flag, set if a signal fails. */
  datatype St = St(port: Port, sndcnt: nat, rcvcnt: nat, pc: seq<Pc>, err: bool)

  /** who is the task that a signal wakes, if any waits: the kernel takes the head of the queue, here
      it may be any of them. */
  datatype Move =
    | WStart(t: Tid, buf: seq<char>) | RStart(t: Tid, len: nat)
    | Run(t: Tid, ready: bool, who: Option<Tid>)
    | Release(t: Tid)
    | SndIrq(who: Option<Tid>)
    | RcvIrq(c: char, ready: bool, who: Option<Tid>, whoRcv: Option<Tid>)
    | Ctl(ioctl: Ioctl)

  predicate Waits(p: Pc, snd: bool) { if snd then p.WWait? else p.RWait? }

  /** The task has taken the resource of the semaphore and neither returned it nor left it to the
      buffer. */
  predicate Holds(p: Pc, snd: bool) {
    if snd then p.WGot? || (p.WTop? && !p.full) else p.RGot? || (p.RTop? && !p.empty)
  }

  function Woken(p: Pc): Pc {
    match p
    case WWait(rest, lf) => WGot(rest, lf)
    case RWait(left) => RGot(left)
    case _ => p
  }

  /** The choice fits the tasks that wait. */
  predicate WhoOk(pc: seq<Pc>, snd: bool, who: Option<Tid>) {
    match who
    case Some(t) => t < |pc| && Waits(pc[t], snd)
    case None => forall t :: 0 <= t < |pc| ==> !Waits(pc[t], snd)
  }

  /** sig_sem and isig_sem on a semaphore with maximum 1. */
  function Sig(s: St, snd: bool, who: Option<Tid>): St
    requires WhoOk(s.pc, snd, who)
  {
    match who
    case Some(t) => s.(pc := s.pc[t := Woken(s.pc[t])])
    case None =>
      if snd then (if s.sndcnt < 1 then s.(sndcnt := s.sndcnt + 1) else s.(err := true))
      else (if s.rcvcnt < 1 then s.(rcvcnt := s.rcvcnt + 1) else s.(err := true))
  }

  function Goto(s: St, t: Tid, p: Pc): St
    requires t < |s.pc|
  {
    s.(pc := s.pc[t := p])
  }

  /** Does the task signal a semaphore in its next step, and which? */
  predicate Returns(p: Pc, snd: bool) {
    if snd then p.WTop? && p.rest == [] && !p.full else p.RTop? && p.left == 0 && !p.empty
  }

  predicate CanRun(s: St, t: Tid, who: Option<Tid>) {
    && t < |s.pc| && !s.pc[t].Idle? && !s.pc[t].WWait? && !s.pc[t].RWait?
    && (Returns(s.pc[t], true) ==> WhoOk(s.pc, true, who))
    && (Returns(s.pc[t], false) ==> WhoOk(s.pc, false, who))
    && (s.pc[t].WGot? ==> s.pc[t].rest != [])
    && (s.pc[t].RGot? ==> s.port.rcv != [] && s.pc[t].left > 0)
  }

  /** One step of serial_wri_dat or serial_rea_dat. */
  function RunStep(s: St, t: Tid, ready: bool, who: Option<Tid>): St
    requires CanRun(s, t, who)
  {
    match s.pc[t]
    case WTop(full, rest) =>
      if rest == [] then (if full then Goto(s, t, Idle) else Goto(Sig(s, true, who), t, Idle))
      else Goto(s, t, if full then WAsk(rest, false) else WGot(rest, false))
    case WAsk(rest, lf) =>
      if s.sndcnt >= 1 then Goto(s, t, WGot(rest, lf)).(sndcnt := s.sndcnt - 1) else Goto(s, t, WWait(rest, lf))
    case WGot(rest, lf) =>
      if !lf && rest[0] == '\n' && s.port.ioctl.crlf then
        var (q, full) := WriChr(s.port, '\r', ready);
        Goto(s, t, if full then WAsk(rest, true) else WGot(rest, true)).(port := q)
      else
        var (q, full) := WriChr(s.port, rest[0], ready);
        Goto(s, t, WTop(full, rest[1..])).(port := q)
    case RTop(empty, left) =>
      if left == 0 then (if empty then Goto(s, t, Idle) else Goto(Sig(s, false, who), t, Idle))
      else Goto(s, t, if empty then RAsk(left) else RGot(left))
    case RAsk(left) =>
      if s.rcvcnt >= 1 then Goto(s, t, RGot(left)).(rcvcnt := s.rcvcnt - 1) else Goto(s, t, RWait(left))
    case RGot(left) =>
      var (q, c, empty) := ReaChr(s.port, ready);
      Goto(s, t, RTop(empty, left - 1)).(port := q)
    case _ => s
  }

  predicate Enabled(s: St, e: Move) {
    match e
    case WStart(t, _) => t < |s.pc| && s.pc[t].Idle?
    case RStart(t, _) => t < |s.pc| && s.pc[t].Idle?
    case Run(t, _, who) => CanRun(s, t, who)
    case Release(t) => t < |s.pc| && (s.pc[t].WWait? || s.pc[t].RWait?)
    case SndIrq(who) => WhoOk(s.pc, true, who)
    case RcvIrq(_, _, who, whoRcv) => WhoOk(s.pc, true, who) && WhoOk(s.pc, false, whoRcv)
    case Ctl(_) => true
  }

  function Step(s: St, e: Move): St
    requires Enabled(s, e)
  {
    match e
    case WStart(t, buf) => Goto(s, t, WTop(true, buf))
    case RStart(t, len) => Goto(s, t, RTop(true, len))
    case Run(t, ready, who) => RunStep(s, t, ready, who)
    case Release(t) => Goto(s, t, Idle)
    case SndIrq(who) =>
      var (q, sig) := IrdySnd(s.port);
      (if sig then Sig(s, true, who) else s).(port := q)
    case RcvIrq(c, ready, who, whoRcv) =>
      var (q, sigS, sigR) := IrdyRcv(s.port, c, ready);
      (if sigS then Sig(s, true, who) else if sigR then Sig(s, false, whoRcv) else s).(port := q)
    case Ctl(ioctl) => s.(port := s.port.(ioctl := ioctl))
  }

  // ----- counting the resource -----

  function Holders(pc: seq<Pc>, snd: bool): nat {
    if pc == [] then 0 else (if Holds(pc[0], snd) then 1 else 0) + Holders(pc[1..], snd)
  }

  function Bit(b: bool): nat { if b then 1 else 0 }

  lemma {:induction false} HoldersUpdate(pc: seq<Pc>, t: Tid, p: Pc, snd: bool)
    requires t < |pc|
    ensures Holders(pc[t := p], snd) + Bit(Holds(pc[t], snd)) == Holders(pc, snd) + Bit(Holds(p, snd))
  {
    if t == 0 {
      assert pc[t := p][1..] == pc[1..];
    } else {
      HoldersUpdate(pc[1..], t - 1, p, snd);
      assert pc[t := p][1..] == pc[1..][t - 1 := p];
    }
  }

  function Count(s: St, snd: bool): nat { if snd then s.sndcnt else s.rcvcnt }

  /** What is in the semaphore or in the hands of tasks. */
  function Tokens(s: St, snd: bool): nat { Count(s, snd) + Holders(s.pc, snd) }

  /** The buffer keeps the resource: a full send buffer, an empty receive buffer. */
  predicate Blocking(p: Port, snd: bool) { if snd then SndFull(p) else p.rcv == [] }

  predicate PcOk(p: Pc) {
    match p
    case WAsk(rest, lf) => rest != [] && (lf ==> rest[0] == '\n')
    case WWait(rest, lf) => rest != [] && (lf ==> rest[0] == '\n')
    case WGot(rest, lf) => rest != [] && (lf ==> rest[0] == '\n')
    case RAsk(left) => left > 0
    case RWait(left) => left > 0
    case RGot(left) => left > 0
    case _ => true
  }

  ghost predicate NoneWaits(s: St, snd: bool) { forall t :: 0 <= t < |s.pc| ==> !Waits(s.pc[t], snd) }

  /** There is always exactly one resource: in the semaphore, with a task, or with the buffer. */
  ghost predicate OneToken(s: St, snd: bool) {
    && Tokens(s, snd) + Bit(Blocking(s.port, snd)) == 1
    && (Count(s, snd) > 0 ==> NoneWaits(s, snd))
  }

  ghost predicate ProtoInv(s: St) {
    && PortOk(s.port) && !s.err
    && OneToken(s, true) && OneToken(s, false)
    && forall t :: 0 <= t < |s.pc| ==> PcOk(s.pc[t])
  }

  /** serial_opn_por, with the semaphores as serial.cfg creates them. */
  lemma InitOk(s: St)
    requires PortOk(s.port) && s.port.snd == [] == s.port.rcv && s.sndcnt == 1 && s.rcvcnt == 0 && !s.err
    requires forall t :: 0 <= t < |s.pc| ==> s.pc[t].Idle?
    ensures ProtoInv(s)
  {
    AllIdle(s.pc, true);
    AllIdle(s.pc, false);
  }

  lemma {:induction false} AllIdle(pc: seq<Pc>, snd: bool)
    requires forall t :: 0 <= t < |pc| ==> pc[t].Idle?
    ensures Holders(pc, snd) == 0
  {
    if pc != [] { AllIdle(pc[1..], snd); }
  }

  lemma GotoTokens(s: St, t: Tid, p: Pc, snd: bool)
    requires t < |s.pc|
    ensures Tokens(Goto(s, t, p), snd) + Bit(Holds(s.pc[t], snd)) == Tokens(s, snd) + Bit(Holds(p, snd))
  {
    HoldersUpdate(s.pc, t, p, snd);
  }

  /** A signal given when the resource is neither in the semaphore nor with a task puts it there, and
      cannot fail. */
  lemma SigOk(s: St, snd: bool, who: Option<Tid>)
    requires WhoOk(s.pc, snd, who) && Tokens(s, snd) == 0 && forall t :: 0 <= t < |s.pc| ==> PcOk(s.pc[t])
    ensures var s' := Sig(s, snd, who);
            && Tokens(s', snd) == 1 && Tokens(s', !snd) == Tokens(s, !snd) && Count(s', !snd) == Count(s, !snd)
            && s'.err == s.err && s'.port == s.port && |s'.pc| == |s.pc|
            && (Count(s', snd) > 0 ==> NoneWaits(s', snd))
            && (NoneWaits(s, !snd) ==> NoneWaits(s', !snd))
            && (forall t :: 0 <= t < |s'.pc| ==> PcOk(s'.pc[t]))
            && (forall t :: 0 <= t < |s.pc| && !Waits(s.pc[t], snd) ==> s'.pc[t] == s.pc[t])
  {
    if who.Some? {
      HoldersUpdate(s.pc, who.value, Woken(s.pc[who.value]), snd);
      HoldersUpdate(s.pc, who.value, Woken(s.pc[who.value]), !snd);
    }
  }

  lemma HolderCounted(pc: seq<Pc>, t: Tid, snd: bool)
    requires t < |pc| && Holds(pc[t], snd)
    ensures Holders(pc, snd) >= 1
  {
    HoldersUpdate(pc, t, Idle, snd);
  }

  /** While a task holds the resource, the semaphore is empty and the buffer does not keep it. */
  lemma HolderAlone(s: St, t: Tid, snd: bool)
    requires OneToken(s, snd) && t < |s.pc| && Holds(s.pc[t], snd)
    ensures Count(s, snd) == 0 && !Blocking(s.port, snd) && Holders(s.pc, snd) == 1
  {
    HolderCounted(s.pc, t, snd);
  }

  /** At most one task writes, and at most one reads. */
  lemma OneHolder(s: St, t: Tid, u: Tid, snd: bool)
    requires ProtoInv(s) && t < |s.pc| && u < |s.pc| && Holds(s.pc[t], snd) && Holds(s.pc[u], snd)
    ensures t == u
  {
    HolderAlone(s, t, snd);
    if t != u {
      HoldersUpdate(s.pc, t, Idle, snd);
      HolderCounted(s.pc[t := Idle], u, snd);
    }
  }

  /** The step of one task, as far as the semaphores are concerned. */
  lemma MoveOk(s: St, t: Tid, p: Pc, q: Port, sc: nat, rc: nat)
    requires ProtoInv(s) && t < |s.pc| && PcOk(p) && PortOk(q)
    requires !Waits(s.pc[t], true) && !Waits(s.pc[t], false)
    requires sc + Bit(Holds(p, true)) + Bit(Blocking(q, true))
          == s.sndcnt + Bit(Holds(s.pc[t], true)) + Bit(Blocking(s.port, true))
    requires rc + Bit(Holds(p, false)) + Bit(Blocking(q, false))
          == s.rcvcnt + Bit(Holds(s.pc[t], false)) + Bit(Blocking(s.port, false))
    requires sc <= s.sndcnt && rc <= s.rcvcnt && (p.WWait? ==> sc == 0) && (p.RWait? ==> rc == 0)
    ensures ProtoInv(Goto(s, t, p).(port := q, sndcnt := sc, rcvcnt := rc))
  {
    GotoTokens(s, t, p, true);
    GotoTokens(s, t, p, false);
  }

  lemma WriteOk(s: St, t: Tid, ready: bool, who: Option<Tid>)
    requires ProtoInv(s) && CanRun(s, t, who) && s.pc[t].WGot?
    ensures ProtoInv(RunStep(s, t, ready, who))
  {
    HolderAlone(s, t, true);
    var rest, lf := s.pc[t].rest, s.pc[t].lf;
    if !lf && rest[0] == '\n' && s.port.ioctl.crlf {
      WriChrOk(s.port, '\r', ready);
      var (q, full) := WriChr(s.port, '\r', ready);
      MoveOk(s, t, if full then WAsk(rest, true) else WGot(rest, true), q, s.sndcnt, s.rcvcnt);
    } else {
      WriChrOk(s.port, rest[0], ready);
      var (q, full) := WriChr(s.port, rest[0], ready);
      MoveOk(s, t, WTop(full, rest[1..]), q, s.sndcnt, s.rcvcnt);
    }
  }

  lemma ReadOk(s: St, t: Tid, ready: bool, who: Option<Tid>)
    requires ProtoInv(s) && CanRun(s, t, who) && s.pc[t].RGot?
    ensures ProtoInv(RunStep(s, t, ready, who))
  {
    HolderAlone(s, t, false);
    ReaChrOk(s.port, ready);
    var (q, c, empty) := ReaChr(s.port, ready);
    assert q.sndsz == s.port.sndsz;
    MoveOk(s, t, RTop(empty, s.pc[t].left - 1), q, s.sndcnt, s.rcvcnt);
  }

  /** The end of a call that returns the resource. */
  lemma ReturnOk(s: St, t: Tid, snd: bool, who: Option<Tid>)
    requires ProtoInv(s) && t < |s.pc| && Holds(s.pc[t], snd) && !Holds(s.pc[t], !snd) && WhoOk(s.pc, snd, who)
    requires !Waits(s.pc[t], true) && !Waits(s.pc[t], false)
    ensures ProtoInv(Goto(Sig(s, snd, who), t, Idle))
  {
    HolderAlone(s, t, snd);
    var s1 := Goto(s, t, Idle);
    GotoTokens(s, t, Idle, snd);
    GotoTokens(s, t, Idle, !snd);
    assert WhoOk(s1.pc, snd, who);
    SigOk(s1, snd, who);
    assert Goto(Sig(s, snd, who), t, Idle) == Sig(s1, snd, who) by {
      if who.Some? {
        assert s.pc[who.value := Woken(s.pc[who.value])][t := Idle] == s1.pc[who.value := Woken(s1.pc[who.value])];
      }
    }
  }

  lemma WriterOk(s: St, t: Tid, ready: bool, who: Option<Tid>)
    requires ProtoInv(s) && CanRun(s, t, who) && (s.pc[t].WTop? || s.pc[t].WAsk?)
    ensures ProtoInv(RunStep(s, t, ready, who))
  {
    hide PortOk;
    match s.pc[t]
    case WTop(full, rest) =>
      if rest == [] {
        if full { MoveOk(s, t, Idle, s.port, s.sndcnt, s.rcvcnt); } else { ReturnOk(s, t, true, who); }
      } else {
        MoveOk(s, t, if full then WAsk(rest, false) else WGot(rest, false), s.port, s.sndcnt, s.rcvcnt);
      }
    case WAsk(rest, lf) =>
      if s.sndcnt >= 1 {
        MoveOk(s, t, WGot(rest, lf), s.port, s.sndcnt - 1, s.rcvcnt);
      } else {
        MoveOk(s, t, WWait(rest, lf), s.port, s.sndcnt, s.rcvcnt);
      }
  }

  lemma ReaderOk(s: St, t: Tid, ready: bool, who: Option<Tid>)
    requires ProtoInv(s) && CanRun(s, t, who) && (s.pc[t].RTop? || s.pc[t].RAsk?)
    ensures ProtoInv(RunStep(s, t, ready, who))
  {
    hide PortOk;
    match s.pc[t]
    case RTop(empty, left) =>
      if left == 0 {
        if empty { MoveOk(s, t, Idle, s.port, s.sndcnt, s.rcvcnt); } else { ReturnOk(s, t, false, who); }
      } else {
        MoveOk(s, t, if empty then RAsk(left) else RGot(left), s.port, s.sndcnt, s.rcvcnt);
      }
    case RAsk(left) =>
      if s.rcvcnt >= 1 {
        MoveOk(s, t, RGot(left), s.port, s.sndcnt, s.rcvcnt - 1);
      } else {
        MoveOk(s, t, RWait(left), s.port, s.sndcnt, s.rcvcnt);
      }
  }

  lemma RunStepOk(s: St, t: Tid, ready: bool, who: Option<Tid>)
    requires ProtoInv(s) && CanRun(s, t, who)
    ensures ProtoInv(RunStep(s, t, ready, who))
  {
    hide ProtoInv, RunStep;
    match s.pc[t]
    case WGot(rest, lf) => WriteOk(s, t, ready, who);
    case RGot(left) => ReadOk(s, t, ready, who);
    case WTop(full, rest) => WriterOk(s, t, ready, who);
    case WAsk(rest, lf) => WriterOk(s, t, ready, who);
    case RTop(empty, left) => ReaderOk(s, t, ready, who);
    case RAsk(left) => ReaderOk(s, t, ready, who);
  }

  /** A signal of an interrupt callback, given as the buffer releases the resource. */
  lemma IrqOk(s: St, snd: bool, who: Option<Tid>, q: Port)
    requires ProtoInv(s) && WhoOk(s.pc, snd, who) && PortOk(q)
    requires Blocking(s.port, snd) && !Blocking(q, snd) && Bit(Blocking(q, !snd)) == Bit(Blocking(s.port, !snd))
    ensures ProtoInv(Sig(s, snd, who).(port := q))
  {
    SigOk(s, snd, who);
  }

  lemma SndIrqOk(s: St, who: Option<Tid>)
    requires ProtoInv(s) && WhoOk(s.pc, true, who)
    ensures ProtoInv(Step(s, SndIrq(who)))
  {
    IrdySndOk(s.port);
    var (q, sig) := IrdySnd(s.port);
    if sig { IrqOk(s, true, who, q); }
  }

  lemma RcvIrqOk(s: St, c: char, ready: bool, who: Option<Tid>, whoRcv: Option<Tid>)
    requires ProtoInv(s) && WhoOk(s.pc, true, who) && WhoOk(s.pc, false, whoRcv)
    ensures ProtoInv(Step(s, RcvIrq(c, ready, who, whoRcv)))
  {
    IrdyRcvOk(s.port, c, ready);
    var (q, sigS, sigR) := IrdyRcv(s.port, c, ready);
    if sigS { IrqOk(s, true, who, q); } else if sigR { IrqOk(s, false, whoRcv, q); }
  }

  /** Every step keeps the protocol, also the forced release of a waiting task: no buffer overflows, no
      character is lost or reordered, no signal fails. */
  lemma StepKeepsProto(s: St, e: Move)
    requires ProtoInv(s) && Enabled(s, e)
    ensures ProtoInv(Step(s, e))
  {
    match e
    case WStart(t, buf) => MoveOk(s, t, WTop(true, buf), s.port, s.sndcnt, s.rcvcnt);
    case RStart(t, len) => MoveOk(s, t, RTop(true, len), s.port, s.sndcnt, s.rcvcnt);
    case Run(t, ready, who) => RunStepOk(s, t, ready, who);
    case Release(t) =>
      GotoTokens(s, t, Idle, true);
      GotoTokens(s, t, Idle, false);
    case SndIrq(who) => SndIrqOk(s, who);
    case RcvIrq(c, ready, who, whoRcv) => RcvIrqOk(s, c, ready, who, whoRcv);
    case Ctl(ioctl) =>
  }

  ghost predicate IsRun(tr: seq<St>, es: seq<Move>) {
    && |tr| == |es| + 1
    && forall k :: 0 <= k < |es| ==> Enabled(tr[k], es[k]) && tr[k + 1] == Step(tr[k], es[k])
  }

  lemma {:induction false} RunsKeepProto(tr: seq<St>, es: seq<Move>, n: nat)
    requires IsRun(tr, es) && ProtoInv(tr[0]) && n < |tr|
    ensures ProtoInv(tr[n])
  {
    if n > 0 {
      RunsKeepProto(tr, es, n - 1);
      StepKeepsProto(tr[n - 1], es[n - 1]);
    }
  }

  /** Whoever is not blocked can go on: a writer that has got the semaphore finds room in the buffer, a
      reader a character. */
  lemma NotStuck(s: St, t: Tid)
    requires ProtoInv(s) && t < |s.pc| && !s.pc[t].Idle? && !s.pc[t].WWait? && !s.pc[t].RWait?
    ensures exists who :: CanRun(s, t, who)
    ensures s.pc[t].WGot? ==> |s.port.snd| < s.port.sndsz
    ensures s.pc[t].RGot? ==> s.port.rcv != []
  {
    if Holds(s.pc[t], true) { HolderAlone(s, t, true); }
    if Holds(s.pc[t], false) { HolderAlone(s, t, false); }
    var snd := Returns(s.pc[t], true);
    if u :| 0 <= u < |s.pc| && Waits(s.pc[u], snd) {
      assert CanRun(s, t, Some(u));
    } else {
      assert CanRun(s, t, None);
    }
  }

  /** A task waits only for a resource that some task holds or the buffer keeps: whenever a task waits,
      the semaphore is empty, and either exactly one task holds the resource, or the send buffer is
      full (the receive buffer empty) and an interrupt will bring it back. */
  lemma WaitsForSomebody(s: St, t: Tid, snd: bool)
    requires ProtoInv(s) && t < |s.pc| && Waits(s.pc[t], snd)
    ensures Count(s, snd) == 0 && (Holders(s.pc, snd) == 1 <==> !Blocking(s.port, snd)) && Holders(s.pc, snd) <= 1
  {
  }

  /** While a task holds the send semaphore nobody else adds a character. */
  lemma HolderWritesAlone(s: St, t: Tid, e: Move)
    requires ProtoInv(s) && t < |s.pc| && Holds(s.pc[t], true) && Enabled(s, e) && !(e.Run? && e.t == t)
    ensures Step(s, e).port.accepted == s.port.accepted
  {
    match e
    case Run(u, ready, who) => if s.pc[u].WGot? { OneHolder(s, t, u, true); }
    case SndIrq(who) => IrdySndOk(s.port);
    case RcvIrq(c, ready, who, whoRcv) => IrdyRcvOk(s.port, c, ready);
    case _ =>
  }
}
