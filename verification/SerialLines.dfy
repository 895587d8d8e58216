/** The two characters of a line end: when the LF follows its CR, and what may happen when it does not
    (serial_wri_chr in syssvc/serial.c). */
module SerialLines {
  import opened Types
  import opened SerialPort
  import opened SerialProtocol

  /** Task t is about to write the CR of a line end. */
  predicate AtCr(s: St, t: Tid) {
    && t < |s.pc| && s.pc[t].WGot? && !s.pc[t].lf && s.pc[t].rest != [] && s.pc[t].rest[0] == '\n'
    && s.port.ioctl.crlf
  }

  /** The CR goes straight to the device, or leaves room in the buffer. */
  predicate CrFits(p: Port, ready: bool) {
    (p.snd == [] && !p.sndStopped && ready) || |p.snd| + 1 < p.sndsz
  }

  /** After the CR nothing has been accepted yet, and t holds the semaphore for the LF. */
  predicate LfPending(s: St, t: Tid, cr: seq<char>) {
    && s.port.accepted == cr && t < |s.pc|
    && s.pc[t].WGot? && s.pc[t].lf && s.pc[t].rest != [] && s.pc[t].rest[0] == '\n'
  }

  /** In step m task t adds the LF right after the CR. */
  ghost predicate LfWritten(tr: seq<St>, es: seq<Move>, m: nat, t: Tid, cr: seq<char>)
    requires m < |es| < |tr|
  {
    && es[m].Run? && es[m].t == t
    && tr[m].port.accepted == cr && tr[m + 1].port.accepted == cr + ['\n']
  }

  /** No other character comes between CR and LF up to state n: the LF is still to come, its task next to
      write, or it came directly after the CR. */
  ghost predicate LfNext(tr: seq<St>, es: seq<Move>, k: nat, n: nat, t: Tid)
    requires k < n <= |es| < |tr|
  {
    var cr := tr[k].port.accepted + ['\r'];
    || LfPending(tr[n], t, cr)
    || exists m :: k < m < n && LfWritten(tr, es, m, t, cr)
  }

  lemma CrWritten(s: St, t: Tid, ready: bool, who: Option<Tid>)
    requires ProtoInv(s) && AtCr(s, t) && Enabled(s, Run(t, ready, who)) && CrFits(s.port, ready)
    ensures LfPending(Step(s, Run(t, ready, who)), t, s.port.accepted + ['\r'])
  {
    HolderAlone(s, t, true);
    WriChrOk(s.port, '\r', ready);
  }

  /** While the LF is pending, a step leaves it pending or writes it. */
  lemma LfStep(s: St, e: Move, t: Tid, cr: seq<char>)
    requires ProtoInv(s) && Enabled(s, e) && LfPending(s, t, cr)
    ensures LfPending(Step(s, e), t, cr) || (e.Run? && e.t == t && Step(s, e).port.accepted == cr + ['\n'])
  {
    if !(e.Run? && e.t == t) {
      HolderWritesAlone(s, t, e);
      OthersStay(s, e, t);
    }
  }

  /** A signal moves only a task that waits. */
  lemma SigStays(s: St, snd: bool, who: Option<Tid>, t: Tid)
    requires WhoOk(s.pc, snd, who) && t < |s.pc| && s.pc[t].WGot?
    ensures |Sig(s, snd, who).pc| == |s.pc| && Sig(s, snd, who).pc[t] == s.pc[t]
  {
  }

  lemma RunStays(s: St, u: Tid, ready: bool, who: Option<Tid>, t: Tid)
    requires CanRun(s, u, who) && t < |s.pc| && s.pc[t].WGot? && u != t
    ensures t < |RunStep(s, u, ready, who).pc| && RunStep(s, u, ready, who).pc[t] == s.pc[t]
  {
    hide WriChr, ReaChr, Sig;
    if Returns(s.pc[u], true) { SigStays(s, true, who, t); }
    if Returns(s.pc[u], false) { SigStays(s, false, who, t); }
  }

  /** The others do not move a task that does not wait. */
  lemma OthersStay(s: St, e: Move, t: Tid)
    requires Enabled(s, e) && t < |s.pc| && s.pc[t].WGot? && !(e.Run? && e.t == t)
    ensures t < |Step(s, e).pc| && Step(s, e).pc[t] == s.pc[t]
  {
    hide RunStep, IrdySnd, IrdyRcv, Sig, CanRun, WhoOk;
    match e
    case Run(u, ready, who) => RunStays(s, u, ready, who, t);
    case SndIrq(who) => SigStays(s, true, who, t);
    case RcvIrq(c, ready, who, whoRcv) => SigStays(s, true, who, t); SigStays(s, false, whoRcv, t);
    case _ =>
  }

  /** If the CR fits, the LF follows: in every run the next character after the CR is the LF of the same
      task, whatever other tasks and interrupts do. */
  lemma {:induction false} LfFollows(tr: seq<St>, es: seq<Move>, k: nat, n: nat, t: Tid)
    requires IsRun(tr, es) && ProtoInv(tr[0]) && k < n <= |es|
    requires AtCr(tr[k], t) && es[k].Run? && es[k].t == t && CrFits(tr[k].port, es[k].ready)
    ensures LfNext(tr, es, k, n, t)
    decreases n
  {
    hide ProtoInv, Enabled, Step, AtCr, CrFits, LfPending;
    var cr := tr[k].port.accepted + ['\r'];
    RunsKeepProto(tr, es, n - 1);
    assert Enabled(tr[n - 1], es[n - 1]) && tr[n - 1 + 1] == Step(tr[n - 1], es[n - 1]);
    if n == k + 1 {
      CrWritten(tr[k], t, es[k].ready, es[k].who);
    } else {
      LfFollows(tr, es, k, n - 1, t);
      if LfPending(tr[n - 1], t, cr) {
        LfStep(tr[n - 1], es[n - 1], t, cr);
        PendingAccepted(tr[n - 1], t, cr);
        assert LfPending(tr[n], t, cr) || LfWritten(tr, es, n - 1, t, cr);
      }
    }
  }

  lemma PendingAccepted(s: St, t: Tid, cr: seq<char>)
    requires LfPending(s, t, cr)
    ensures s.port.accepted == cr
  {
  }

  /** If the CR fills the buffer, it may remain without its LF: the task has to wait for the semaphore
      again, and gives up when its wait is released. */
  lemma CrAlone(s: St, t: Tid, ready: bool) returns (tr: seq<St>, es: seq<Move>)
    requires ProtoInv(s) && AtCr(s, t) && !CrFits(s.port, ready)
    ensures IsRun(tr, es) && tr[0] == s && es == [Run(t, ready, None), Run(t, ready, None), Release(t)]
    ensures forall k :: 1 <= k <= 3 ==> tr[k].port.accepted == s.port.accepted + ['\r']
    ensures t < |tr[3].pc| && tr[3].pc[t].Idle?
  {
    HolderAlone(s, t, true);
    var e := Run(t, ready, None);
    var s1 := Step(s, e);
    StepKeepsProto(s, e);
    assert s1.pc[t] == WAsk(s.pc[t].rest, true) && SndFull(s1.port) && s1.sndcnt == 0;
    var s2 := Step(s1, e);
    var s3 := Step(s2, Release(t));
    tr, es := [s, s1, s2, s3], [e, e, Release(t)];
  }

  ghost predicate CrRun(s: St, t: Tid, ready: bool, tr: seq<St>, es: seq<Move>) {
    IsRun(tr, es) && tr[0] == s && es != [] && es[0].Run? && es[0].t == t && es[0].ready == ready
  }

  /** The condition is exact. */
  lemma CrFitsExact(s: St, t: Tid, ready: bool)
    requires ProtoInv(s) && AtCr(s, t)
    ensures CrFits(s.port, ready) <==>
            forall tr, es :: CrRun(s, t, ready, tr, es) ==> LfNext(tr, es, 0, |es|, t)
  {
    hide ProtoInv, AtCr, CrFits, Enabled, Step;
    if CrFits(s.port, ready) {
      forall tr, es | CrRun(s, t, ready, tr, es) ensures LfNext(tr, es, 0, |es|, t) { LfFollows(tr, es, 0, |es|, t); }
    } else {
      var tr, es := CrAlone(s, t, ready);
      assert CrRun(s, t, ready, tr, es);
      var cr := s.port.accepted + ['\r'];
      forall m | 0 < m < 3 ensures !LfWritten(tr, es, m, t, cr) { assert tr[m + 1].port.accepted == cr; }
    }
  }

  /** One run after the other. */
  lemma RunJoin(tr: seq<St>, es: seq<Move>, tr': seq<St>, es': seq<Move>)
    requires IsRun(tr, es) && IsRun(tr', es') && tr[|es|] == tr'[0]
    ensures IsRun(tr + tr'[1..], es + es')
  {
    hide Enabled, Step;
    var t, e, n := tr + tr'[1..], es + es', |es|;
    forall k | 0 <= k < |e| ensures Enabled(t[k], e[k]) && t[k + 1] == Step(t[k], e[k]) {
      if k < n {
        assert tr[k + 1] == Step(tr[k], es[k]);
      } else {
        assert tr'[k - n + 1] == Step(tr'[k - n], es'[k - n]) && t[k] == tr'[k - n];
      }
    }
  }

  /** Four steps. */
  lemma Four(s: seq<St>, e: seq<Move>)
    requires |s| == 5 && |e| == 4
    requires Enabled(s[0], e[0]) && s[1] == Step(s[0], e[0]) && Enabled(s[1], e[1]) && s[2] == Step(s[1], e[1])
    requires Enabled(s[2], e[2]) && s[3] == Step(s[2], e[2]) && Enabled(s[3], e[3]) && s[4] == Step(s[3], e[3])
    ensures IsRun(s, e)
  {
    hide Enabled, Step;
  }

  /** The first task writes its CR, which fills the buffer. */
  lemma FirstWrites(p: Port, cr: Port) returns (tr: seq<St>, es: seq<Move>)
    requires p == Opened(1, 1) && cr == p.(snd := ['\r'], accepted := ['\r'])
    ensures IsRun(tr, es) && |es| == 4 && tr[0] == St(p, 1, 0, [Idle, Idle], false)
    ensures tr[4] == St(cr, 0, 0, [WAsk(['\n'], true), Idle], false)
  {
    var s1 := St(p, 1, 0, [WTop(true, ['\n']), Idle], false);
    var s2 := St(p, 1, 0, [WAsk(['\n'], false), Idle], false);
    var s3 := St(p, 0, 0, [WGot(['\n'], false), Idle], false);
    tr := [St(p, 1, 0, [Idle, Idle], false), s1, s2, s3, St(cr, 0, 0, [WAsk(['\n'], true), Idle], false)];
    es := [WStart(0, ['\n']), Run(0, false, None), Run(0, false, None), Run(0, false, None)];
    Four(tr, es);
  }

  /** The second task asks for the semaphore before the first does so again. */
  lemma SecondAsks(cr: Port) returns (tr: seq<St>, es: seq<Move>)
    ensures IsRun(tr, es) && |es| == 4 && tr[0] == St(cr, 0, 0, [WAsk(['\n'], true), Idle], false)
    ensures tr[4] == St(cr, 0, 0, [WWait(['\n'], true), WWait(['x'], false)], false)
  {
    var s0 := St(cr, 0, 0, [WAsk(['\n'], true), Idle], false);
    var s1 := s0.(pc := [WAsk(['\n'], true), WTop(true, ['x'])]);
    var s2 := s0.(pc := [WAsk(['\n'], true), WAsk(['x'], false)]);
    var s3 := s0.(pc := [WAsk(['\n'], true), WWait(['x'], false)]);
    tr := [s0, s1, s2, s3, s0.(pc := [WWait(['\n'], true), WWait(['x'], false)])];
    es := [WStart(1, ['x']), Run(1, false, None), Run(1, false, None), Run(0, false, None)];
    Four(tr, es);
  }

  /** A buffer for one character takes it, and gives it to the device. */
  lemma InAndOut(p: Port, q: Port, x: char)
    requires p.fcChr.None? && !p.sndStopped && p.snd == [] && p.sndsz == 1
    requires q == p.(snd := [x], accepted := p.accepted + [x])
    ensures WriChr(p, x, false) == (q, true) && IrdySnd(q) == (q.(snd := [], sent := q.sent + [x]), true)
  {
    assert q.snd[1..] == [] && [] + [x] == [x];
  }

  /** So it writes first when the device takes the CR. */
  lemma SecondWrites(cr: Port) returns (tr: seq<St>, es: seq<Move>, lf: Port)
    requires cr == Opened(1, 1).(snd := ['\r'], accepted := ['\r'])
    ensures IsRun(tr, es) && |es| == 4 && tr[0] == St(cr, 0, 0, [WWait(['\n'], true), WWait(['x'], false)], false)
    ensures tr[4].port == lf && lf.accepted == ['\r', 'x', '\n']
  {
    InAndOut(Opened(1, 1), cr, '\r');
    var c0 := cr.(snd := [], sent := cr.sent + ['\r']);
    var x1 := c0.(snd := ['x'], accepted := cr.accepted + ['x']);
    InAndOut(c0, x1, 'x');
    var x0 := x1.(snd := [], sent := x1.sent + ['x']);
    lf := x0.(snd := ['\n'], accepted := x0.accepted + ['\n']);
    InAndOut(x0, lf, '\n');
    var s0 := St(cr, 0, 0, [WWait(['\n'], true), WWait(['x'], false)], false);
    var s1 := St(c0, 0, 0, [WWait(['\n'], true), WGot(['x'], false)], false);
    var s2 := St(x1, 0, 0, [WWait(['\n'], true), WTop(true, [])], false);
    var s3 := St(x0, 0, 0, [WGot(['\n'], true), WTop(true, [])], false);
    tr := [s0, s1, s2, s3, St(lf, 0, 0, [WTop(true, []), WTop(true, [])], false)];
    es := [SndIrq(Some(1)), Run(1, false, None), SndIrq(Some(0)), Run(0, false, None)];
    hide WriChr, IrdySnd, Opened;
    assert ['x'][1..] == [] && ['\n'][1..] == [];
    Four(tr, es);
  }

  /** A run in which a character of another task comes between CR and LF: the buffer has room for one
      character, and the device takes none at once. */
  lemma CrSplit() returns (tr: seq<St>, es: seq<Move>)
    ensures IsRun(tr, es) && tr[0] == St(Opened(1, 1), 1, 0, [Idle, Idle], false) && ProtoInv(tr[0])
    ensures tr[|es|].port.accepted == ['\r', 'x', '\n']
  {
    hide IsRun;
    var p := Opened(1, 1);
    var cr := p.(snd := ['\r'], accepted := ['\r']);
    tr, es := FirstWrites(p, cr);
    var tr1, es1 := SecondAsks(cr);
    var tr2, es2, lf := SecondWrites(cr);
    Sizes(tr, es);
    Sizes(tr1, es1);
    Sizes(tr2, es2);
    RunJoin(tr, es, tr1, es1);
    tr, es := tr + tr1[1..], es + es1;
    RunJoin(tr, es, tr2, es2);
    tr, es := tr + tr2[1..], es + es2;
    InitOk(tr[0]);
  }

  lemma Sizes(tr: seq<St>, es: seq<Move>)
    requires IsRun(tr, es)
    ensures |tr| == |es| + 1
  {
  }
}
