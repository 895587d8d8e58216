/** Flow control of the other side (syssvc/serial.c): whether it has been told what rcv_stopped says. */
module SerialFlow {
  import opened Types
  import opened SerialPort
  import opened SerialProtocol
  import opened SerialLines

  /** What the other side has been told last, or will be told as soon as the device is ready, is what
      rcv_stopped says. */
  ghost predicate FlowOk(p: Port) {
    var told := if p.fcChr.Some? then p.fcChr.value else if p.ctl == [] then FC_START else p.ctl[|p.ctl| - 1];
    told == if p.rcvStopped then FC_STOP else FC_START
  }

  /** Reading a character makes the driver start the other side. */
  predicate Starts(p: Port) { p.rcv != [] && p.rcvStopped && |p.rcv| - 1 <= p.rcvsz / 2 }

  /** A received character is kept, and makes the driver stop the other side. */
  predicate Stops(p: Port, c: char) {
    && !(p.ioctl.fcsnd && (c == FC_STOP || c == FC_START))
    && !(p.sndStopped && (c == FC_START || p.ioctl.fcany))
    && |p.rcv| < p.rcvsz
    && p.ioctl.fcrcv && !p.rcvStopped && |p.rcv| + 1 >= p.rcvsz * 3 / 4
  }

  /** A START or STOP goes straight to the device while an older one is still waiting for it: the older
      one will go out last. */
  predicate Overtakes(s: St, e: Move) {
    match e
    case Run(t, ready, _) => t < |s.pc| && s.pc[t].RGot? && Starts(s.port) && ready && s.port.fcChr.Some?
    case RcvIrq(c, ready, _, _) => Stops(s.port, c) && ready && s.port.fcChr.Some?
    case _ => false
  }

  lemma ReaChrFlow(p: Port, ready: bool)
    requires p.rcv != [] && FlowOk(p)
    ensures FlowOk(ReaChr(p, ready).0) <==> !(Starts(p) && ready && p.fcChr.Some?)
  {
  }

  lemma StoreFlow(p: Port, c: char, ready: bool)
    requires FlowOk(p)
    ensures var stops := p.ioctl.fcrcv && !p.rcvStopped && |p.rcv| + 1 >= p.rcvsz * 3 / 4;
            FlowOk(Store(p, c, ready).0) <==> !(stops && ready && p.fcChr.Some?)
  {
  }

  lemma IrdyRcvFlow(p: Port, c: char, ready: bool)
    requires FlowOk(p) && |p.rcv| <= p.rcvsz
    ensures FlowOk(IrdyRcv(p, c, ready).0) <==> !(Stops(p, c) && ready && p.fcChr.Some?)
  {
    hide Store;
    StoreFlow(p, c, ready);
  }

  /** The waiting character goes out: what the other side is told does not change. */
  lemma IrdySndFlow(p: Port)
    ensures FlowOk(IrdySnd(p).0) <==> FlowOk(p)
  {
  }

  lemma WriChrFlow(p: Port, c: char, ready: bool)
    ensures FlowOk(WriChr(p, c, ready).0) <==> FlowOk(p)
  {
  }

  /** A step keeps the other side told, exactly if it does not overtake. */
  lemma StepFlow(s: St, e: Move)
    requires ProtoInv(s) && Enabled(s, e) && FlowOk(s.port)
    ensures FlowOk(Step(s, e).port) <==> !Overtakes(s, e)
  {
    hide FlowOk, WriChr, ReaChr, IrdySnd, IrdyRcv, Starts, Stops;
    match e
    case Run(t, ready, who) =>
      match s.pc[t] {
        case WGot(rest, lf) => WriChrFlow(s.port, '\r', ready); WriChrFlow(s.port, rest[0], ready);
        case RGot(left) => ReaChrFlow(s.port, ready);
        case _ =>
      }
    case SndIrq(who) => IrdySndFlow(s.port);
    case RcvIrq(c, ready, who, whoRcv) => IrdyRcvFlow(s.port, c, ready);
    case Ctl(ioctl) => SetIoctl(s.port, ioctl);
    case _ =>
  }

  lemma SetIoctl(p: Port, ioctl: Ioctl)
    ensures FlowOk(p.(ioctl := ioctl)) <==> FlowOk(p)
  {
  }

  /** In every run in which no flow control character overtakes another, the other side is told at every
      moment what rcv_stopped says; and at the first one that does, it is not. */
  lemma {:induction false} RunFlow(tr: seq<St>, es: seq<Move>, n: nat)
    requires IsRun(tr, es) && ProtoInv(tr[0]) && FlowOk(tr[0].port) && n <= |es|
    requires forall k :: 0 <= k < n ==> !Overtakes(tr[k], es[k])
    ensures FlowOk(tr[n].port)
    ensures n < |es| ==> (FlowOk(tr[n + 1].port) <==> !Overtakes(tr[n], es[n]))
  {
    hide ProtoInv, FlowOk, Enabled, Step, Overtakes;
    RunsKeepProto(tr, es, n);
    if n > 0 { RunFlow(tr, es, n - 1); }
    if n < |es| {
      assert Enabled(tr[n], es[n]) && tr[n + 1] == Step(tr[n], es[n]);
      StepFlow(tr[n], es[n]);
    }
  }

  /** A run from the opening of the port in which it happens: a character comes in while the device is
      busy, is read when it is ready again, and then the device takes the STOP.  The other side stays
      stopped although the driver waits for data. */
  lemma StopOvertakesStart(n: nat) returns (tr: seq<St>, es: seq<Move>)
    requires 0 < n
    ensures IsRun(tr, es) && tr[0] == St(Opened(n, 1), 1, 0, [Idle], false) && ProtoInv(tr[0]) && FlowOk(tr[0].port)
    ensures var p := tr[|es|].port; p.ctl == [FC_START, FC_STOP] && p.fcChr.None? && !p.rcvStopped && p.rcv == []
  {
    var s0 := St(Opened(n, 1), 1, 0, [Idle], false);
    InitOk(s0);
    var s3, tr1, es1 := StopWaits(s0);
    var tr2, es2 := StartPasses(s3);
    RunJoin(tr1, es1, tr2, es2);
    tr, es := tr1 + tr2[1..], es1 + es2;
  }

  lemma StopWaits(s0: St) returns (s3: St, tr: seq<St>, es: seq<Move>)
    requires s0.port == Opened(s0.port.sndsz, 1) && s0 == St(s0.port, 1, 0, [Idle], false)
    ensures IsRun(tr, es) && |es| == 3 && tr[0] == s0 && tr[3] == s3
    ensures s3.pc == [RAsk(1)] && s3.rcvcnt == 1
    ensures s3.port == s0.port.(rcv := ['a'], stored := ['a'], fcChr := Some(FC_STOP), rcvStopped := true)
  {
    var e1, e2, e3 := RcvIrq('a', false, None, None), RStart(0, 1), Run(0, true, None);
    var s1 := Step(s0, e1);
    var s2 := Step(s1, e2);
    s3 := Step(s2, e3);
    tr, es := [s0, s1, s2, s3], [e1, e2, e3];
  }

  lemma StartPasses(s: St) returns (tr: seq<St>, es: seq<Move>)
    requires s.pc == [RAsk(1)] && s.rcvcnt == 1
    requires s.port
          == Opened(s.port.sndsz, 1).(rcv := ['a'], stored := ['a'], fcChr := Some(FC_STOP), rcvStopped := true)
    ensures IsRun(tr, es) && |es| == 3 && tr[0] == s
    ensures var p := tr[3].port; p.ctl == [FC_START, FC_STOP] && p.fcChr.None? && !p.rcvStopped && p.rcv == []
  {
    var e, e3 := Run(0, true, None), SndIrq(None);
    var s1 := Step(s, e);
    var s2 := Step(s1, e);
    var s3 := Step(s2, e3);
    tr, es := [s, s1, s2, s3], [e, e, e3];
  }

  // ----- when the other side is stopped -----

  /** The other side is stopped at three quarters of the receive buffer and started again at one half; a buffer
      of one or two characters is too small for that. */
  predicate Marks(p: Port) {
    p.rcvsz >= 3 ==> if p.rcvStopped then |p.rcv| > p.rcvsz / 2 else p.ioctl.fcrcv ==> |p.rcv| < p.rcvsz * 3 / 4
  }

  lemma ReaChrMarks(p: Port, ready: bool)
    requires p.rcv != [] && Marks(p)
    ensures Marks(ReaChr(p, ready).0) && ReaChr(p, ready).0.ioctl == p.ioctl
  {
  }

  lemma IrdyRcvMarks(p: Port, c: char, ready: bool)
    requires Marks(p)
    ensures Marks(IrdyRcv(p, c, ready).0) && IrdyRcv(p, c, ready).0.ioctl == p.ioctl
  {
  }

  lemma StepMarks(s: St, e: Move)
    requires Enabled(s, e) && Marks(s.port) && !e.Ctl?
    ensures Marks(Step(s, e).port)
  {
    hide WriChr, ReaChr, IrdyRcv;
    match e
    case Run(t, ready, who) =>
      match s.pc[t] {
        case WGot(rest, lf) => WriChrReceives(s.port, '\r', ready); WriChrReceives(s.port, rest[0], ready);
        case RGot(left) => ReaChrMarks(s.port, ready);
        case _ =>
      }
    case RcvIrq(c, ready, who, whoRcv) => IrdyRcvMarks(s.port, c, ready);
    case _ =>
  }

  lemma WriChrReceives(p: Port, c: char, ready: bool)
    ensures var q := WriChr(p, c, ready).0; q == p.(snd := q.snd, sent := q.sent, accepted := q.accepted)
  {
  }

  /** So it is at every moment, as long as the options of the port are not changed: there is always room for a
      quarter of the buffer when the other side is stopped, and a buffer half empty never stays stopped. */
  lemma {:induction false} RunMarks(tr: seq<St>, es: seq<Move>, n: nat)
    requires IsRun(tr, es) && Marks(tr[0].port) && n <= |es| && forall k :: 0 <= k < n ==> !es[k].Ctl?
    ensures Marks(tr[n].port)
  {
    hide Marks, Enabled, Step;
    if n > 0 {
      RunMarks(tr, es, n - 1);
      assert Enabled(tr[n - 1], es[n - 1]) && tr[n - 1 + 1] == Step(tr[n - 1], es[n - 1]);
      StepMarks(tr[n - 1], es[n - 1]);
    }
  }

  // ----- when the other side stops the driver -----

  /** A character that lets a stopped driver go on. */
  predicate Resumes(p: Port, e: Move) {
    e.RcvIrq? && (e.c == FC_START || p.ioctl.fcany) && !(e.c == FC_STOP && p.ioctl.fcsnd)
  }

  /** A STOP stops the driver, and neither STOP nor START reaches the receive buffer. */
  lemma StopReceived(p: Port, ready: bool)
    requires p.ioctl.fcsnd
    ensures IrdyRcv(p, FC_STOP, ready).0 == p.(sndStopped := true)
    ensures var q := IrdyRcv(p, FC_START, ready).0; !q.sndStopped && q.rcv == p.rcv && q.stored == p.stored
  {
  }

  /** A stopped driver sends no data: they wait until it may go on. */
  lemma StepHolds(s: St, e: Move)
    requires Enabled(s, e) && s.port.sndStopped && !Resumes(s.port, e)
    ensures Step(s, e).port.sndStopped && Step(s, e).port.sent == s.port.sent
  {
    hide ReaChr;
    if e.Run? && s.pc[e.t].RGot? { ReaChrSends(s.port, e.ready); }
  }

  lemma ReaChrSends(p: Port, ready: bool)
    requires p.rcv != []
    ensures var q := ReaChr(p, ready).0;
            q.sndStopped == p.sndStopped && q.sent == p.sent && q.snd == p.snd && q.sndsz == p.sndsz
  {
  }

  lemma {:induction false} RunHolds(tr: seq<St>, es: seq<Move>, m: nat, n: nat)
    requires IsRun(tr, es) && m <= n <= |es| && tr[m].port.sndStopped
    requires forall k :: m <= k < n ==> !Resumes(tr[k].port, es[k])
    ensures tr[n].port.sndStopped && tr[n].port.sent == tr[m].port.sent
    decreases n
  {
    hide Enabled, Step, Resumes;
    if m < n {
      RunHolds(tr, es, m, n - 1);
      assert Enabled(tr[n - 1], es[n - 1]) && tr[n - 1 + 1] == Step(tr[n - 1], es[n - 1]);
      StepHolds(tr[n - 1], es[n - 1]);
    }
  }

  /** A character goes straight to a device that is ready, if none is waiting and the driver is not stopped, and
      else behind those that are waiting. */
  lemma WriChrSends(p: Port, c: char, ready: bool)
    ensures var (q, full) := WriChr(p, c, ready);
            if p.snd == [] && !p.sndStopped && ready then q.sent == p.sent + [c] && q.snd == [] && !full
            else q.sent == p.sent && q.snd == p.snd + [c] && (full <==> SndFull(q))
  {
  }

  /** A driver that is not stopped gives the device its oldest character whenever the device is ready, but for
      a flow control character that has been waiting. */
  lemma IrdySends(p: Port)
    requires !p.sndStopped && p.snd != [] && p.fcChr.None?
    ensures IrdySnd(p).0.sent == p.sent + [p.snd[0]] && IrdySnd(p).0.snd == p.snd[1..]
  {
  }
}
