/** What the tasks inside serial_wri_dat and serial_rea_dat transfer (syssvc/serial.c): the writer exactly the
    characters of its buffer, a CR before each LF, the reader as many characters as it asked for, whatever the
    other tasks and the interrupts do meanwhile. */
module SerialData {
  import opened Types
  import opened SerialPort
  import opened SerialProtocol

  /** The characters of s as they are to go out. */
  function Lines(s: seq<char>, crlf: bool): seq<char> {
    if s == [] then []
    else (if crlf && s[0] == '\n' then ['\r', '\n'] else [s[0]]) + Lines(s[1..], crlf)
  }

  /** What a writer has yet to send. */
  function Todo(p: Pc, crlf: bool): seq<char> {
    match p
    case WTop(_, rest) => Lines(rest, crlf)
    case WAsk(rest, lf) => Next(rest, lf, crlf)
    case WWait(rest, lf) => Next(rest, lf, crlf)
    case WGot(rest, lf) => Next(rest, lf, crlf)
    case _ => []
  }

  /** lf: the CR that belongs to the first character has gone out. */
  function Next(rest: seq<char>, lf: bool, crlf: bool): seq<char> {
    if lf && rest != [] then [rest[0]] + Lines(rest[1..], crlf) else Lines(rest, crlf)
  }

  predicate Writes(p: Pc) { p.WTop? || p.WAsk? || p.WWait? || p.WGot? }

  predicate Reads(p: Pc) { p.RTop? || p.RAsk? || p.RWait? || p.RGot? }

  /** The characters that the step, if it is one of task t, adds to those accepted for sending. */
  function Adds(s: St, e: Move, t: Tid): seq<char>
    requires Enabled(s, e)
  {
    var a, b := s.port.accepted, Step(s, e).port.accepted;
    if e.Run? && e.t == t && |a| <= |b| then b[|a|..] else []
  }

  lemma SignalLeaves(s: St, snd: bool, who: Option<Tid>, t: Tid, crlf: bool)
    requires WhoOk(s.pc, snd, who) && t < |s.pc|
    ensures var s' := Sig(s, snd, who);
            && |s'.pc| == |s.pc| && s'.port == s.port
            && Todo(s'.pc[t], crlf) == Todo(s.pc[t], crlf) && Left(s'.pc[t]) == Left(s.pc[t])
            && (Writes(s'.pc[t]) <==> Writes(s.pc[t])) && (Reads(s'.pc[t]) <==> Reads(s.pc[t]))
  {
  }

  /** How many characters a reader still wants. */
  function Left(p: Pc): nat {
    match p
    case RTop(_, left) => left
    case RAsk(left) => left
    case RWait(left) => left
    case RGot(left) => left
    case _ => 0
  }

  lemma WriChrAccepts(p: Port, c: char, ready: bool)
    ensures var q := WriChr(p, c, ready).0; q.accepted == p.accepted + [c] && q.ioctl == p.ioctl
  {
  }

  /** The CR first, if there has to be one and it has not gone out yet. */
  lemma FirstOfTodo(rest: seq<char>, lf: bool, crlf: bool)
    requires rest != []
    ensures var cr := !lf && rest[0] == '\n' && crlf;
            Next(rest, lf, crlf) == if cr then ['\r'] + Next(rest, true, crlf) else [rest[0]] + Lines(rest[1..], crlf)
  {
    assert ['\r', '\n'] + Lines(rest[1..], crlf) == ['\r'] + (['\n'] + Lines(rest[1..], crlf));
  }

  lemma CharacterWritten(s: St, t: Tid, ready: bool, who: Option<Tid>)
    requires CanRun(s, t, who) && s.pc[t].WGot?
    ensures var s', x := RunStep(s, t, ready, who), Adds(s, Run(t, ready, who), t);
            && |s'.pc| == |s.pc| && s'.port.ioctl == s.port.ioctl && Writes(s'.pc[t])
            && x + Todo(s'.pc[t], s.port.ioctl.crlf) == Todo(s.pc[t], s.port.ioctl.crlf)
  {
    hide WriChr, Lines;
    var rest := s.pc[t].rest;
    WriChrAccepts(s.port, '\r', ready);
    WriChrAccepts(s.port, rest[0], ready);
    FirstOfTodo(rest, s.pc[t].lf, s.port.ioctl.crlf);
    var c := if !s.pc[t].lf && rest[0] == '\n' && s.port.ioctl.crlf then '\r' else rest[0];
    assert Adds(s, Run(t, ready, who), t) == [c];
  }

  lemma OwnStepWrites(s: St, t: Tid, ready: bool, who: Option<Tid>)
    requires CanRun(s, t, who) && Writes(s.pc[t])
    ensures var s', x := RunStep(s, t, ready, who), Adds(s, Run(t, ready, who), t);
            && |s'.pc| == |s.pc| && s'.port.ioctl == s.port.ioctl
            && x + Todo(s'.pc[t], s.port.ioctl.crlf) == Todo(s.pc[t], s.port.ioctl.crlf)
            && (Writes(s'.pc[t]) || s'.pc[t].Idle?)
  {
    hide Lines, WriChr;
    if s.pc[t].WGot? {
      CharacterWritten(s, t, ready, who);
    } else {
      NothingWritten(s, t, ready, who);
    }
  }

  lemma NothingWritten(s: St, t: Tid, ready: bool, who: Option<Tid>)
    requires CanRun(s, t, who) && Writes(s.pc[t]) && !s.pc[t].WGot?
    ensures var s' := RunStep(s, t, ready, who);
            && |s'.pc| == |s.pc| && s'.port == s.port && Adds(s, Run(t, ready, who), t) == []
            && [] + Todo(s'.pc[t], s.port.ioctl.crlf) == Todo(s.pc[t], s.port.ioctl.crlf)
            && (Writes(s'.pc[t]) || s'.pc[t].Idle?)
  {
    hide WriChr, ReaChr, Todo, WhoOk;
    StepsOn(s, t, ready, who);
    var s' := RunStep(s, t, ready, who);
    assert s.port.accepted[|s.port.accepted|..] == [];
    assert [] + Todo(s'.pc[t], s.port.ioctl.crlf) == Todo(s'.pc[t], s.port.ioctl.crlf);
  }

  lemma StepsOn(s: St, t: Tid, ready: bool, who: Option<Tid>)
    requires CanRun(s, t, who) && Writes(s.pc[t]) && !s.pc[t].WGot?
    ensures var s' := RunStep(s, t, ready, who);
            && |s'.pc| == |s.pc| && s'.port == s.port
            && Todo(s'.pc[t], s.port.ioctl.crlf) == Todo(s.pc[t], s.port.ioctl.crlf)
            && (Writes(s'.pc[t]) || s'.pc[t].Idle?)
  {
  }

  /** A step of task t sends the first of the characters it has yet to send, or none; a step of another one,
      and an interrupt, leave them alone. */
  lemma StepWrites(s: St, e: Move, t: Tid)
    requires Enabled(s, e) && !e.Ctl? && t < |s.pc| && Writes(s.pc[t])
    ensures var s', crlf := Step(s, e), s.port.ioctl.crlf;
            && |s'.pc| == |s.pc| && s'.port.ioctl == s.port.ioctl
            && (e == Release(t) || Adds(s, e, t) + Todo(s'.pc[t], crlf) == Todo(s.pc[t], crlf))
            && (Writes(s'.pc[t]) || s'.pc[t].Idle?)
  {
    hide Todo, Left, IrdySnd, IrdyRcv, Sig;
    var crlf := s.port.ioctl.crlf;
    match e
    case Run(u, ready, who) =>
      if u == t { OwnStepWrites(s, t, ready, who); } else { OtherStepLeaves(s, u, ready, who, t); }
    case SndIrq(who) => SignalLeaves(s, true, who, t, crlf); PortKeeps(s.port, 'x', true);
    case RcvIrq(c, ready, who, whoRcv) =>
      SignalLeaves(s, true, who, t, crlf);
      SignalLeaves(s, false, whoRcv, t, crlf);
      PortKeeps(s.port, c, ready);
    case _ =>
  }

  lemma PortKeeps(p: Port, c: char, ready: bool)
    ensures IrdySnd(p).0.ioctl == p.ioctl == IrdyRcv(p, c, ready).0.ioctl
  {
  }

  lemma OtherStepLeaves(s: St, u: Tid, ready: bool, who: Option<Tid>, t: Tid)
    requires CanRun(s, u, who) && t < |s.pc| && t != u
    ensures var s', crlf := RunStep(s, u, ready, who), s.port.ioctl.crlf;
            && |s'.pc| == |s.pc| && s'.port.ioctl == s.port.ioctl
            && Todo(s'.pc[t], crlf) == Todo(s.pc[t], crlf) && Left(s'.pc[t]) == Left(s.pc[t])
            && (Writes(s'.pc[t]) <==> Writes(s.pc[t])) && (Reads(s'.pc[t]) <==> Reads(s.pc[t]))
  {
    hide Todo, Sig;
    if Returns(s.pc[u], true) { SignalLeaves(s, true, who, t, s.port.ioctl.crlf); }
    if Returns(s.pc[u], false) { SignalLeaves(s, false, who, t, s.port.ioctl.crlf); }
  }

  /** What task t has sent in the steps from m up to n. */
  ghost function Sends(tr: seq<St>, es: seq<Move>, t: Tid, m: nat, n: nat): seq<char>
    requires IsRun(tr, es) && n <= |es|
  {
    if n <= m then [] else Sends(tr, es, t, m, n - 1) + Adds(tr[n - 1], es[n - 1], t)
  }

  /** While a task is inside serial_wri_dat: what it has sent and what it has yet to send are its buffer, with a
      CR before each LF. */
  lemma {:induction false} WriterSends(tr: seq<St>, es: seq<Move>, t: Tid, buf: seq<char>, k: nat, n: nat)
    requires IsRun(tr, es) && k < n <= |es| && es[k] == WStart(t, buf)
    requires forall j :: k < j < n ==> !es[j].Ctl? && es[j] != Release(t) && t < |tr[j].pc| && !tr[j].pc[t].Idle?
    ensures var crlf := tr[k].port.ioctl.crlf;
            && t < |tr[n].pc| && tr[n].port.ioctl == tr[k].port.ioctl && (Writes(tr[n].pc[t]) || tr[n].pc[t].Idle?)
            && Sends(tr, es, t, k + 1, n) + Todo(tr[n].pc[t], crlf) == Lines(buf, crlf)
    decreases n
  {
    hide Enabled, Step, Todo, Adds, Lines, Writes;
    assert Enabled(tr[n - 1], es[n - 1]) && tr[n - 1 + 1] == Step(tr[n - 1], es[n - 1]);
    if n - 1 == k {
      WriterStarts(tr[k], t, buf);
    } else {
      WriterSends(tr, es, t, buf, k, n - 1);
      StepWrites(tr[n - 1], es[n - 1], t);
      var crlf := tr[k].port.ioctl.crlf;
      Regroup(Sends(tr, es, t, k + 1, n - 1), Adds(tr[n - 1], es[n - 1], t), Todo(tr[n].pc[t], crlf));
    }
  }

  lemma Regroup(a: seq<char>, b: seq<char>, c: seq<char>)
    ensures a + (b + c) == a + b + c
  {
  }

  lemma WriterStarts(s: St, t: Tid, buf: seq<char>)
    requires Enabled(s, WStart(t, buf))
    ensures var s', crlf := Step(s, WStart(t, buf)), s.port.ioctl.crlf;
            && t < |s'.pc| && s'.port == s.port && Writes(s'.pc[t])
            && [] + Todo(s'.pc[t], crlf) == Lines(buf, crlf)
  {
  }

  /** So when serial_wri_dat returns without having been released, it has sent its whole buffer. */
  lemma WriterSendsAll(tr: seq<St>, es: seq<Move>, t: Tid, buf: seq<char>, k: nat, n: nat)
    requires IsRun(tr, es) && k < n <= |es| && es[k] == WStart(t, buf)
    requires forall j :: k < j < n ==> !es[j].Ctl? && es[j] != Release(t) && t < |tr[j].pc| && !tr[j].pc[t].Idle?
    requires t < |tr[n].pc| && tr[n].pc[t].Idle?
    ensures Sends(tr, es, t, k + 1, n) == Lines(buf, tr[k].port.ioctl.crlf)
  {
    hide Sends, Lines;
    WriterSends(tr, es, t, buf, k, n);
    assert Sends(tr, es, t, k + 1, n) + [] == Sends(tr, es, t, k + 1, n);
  }

  // ----- reading -----

  /** The characters that the step, if it is one of task t, takes from the receive buffer. */
  function Takes(s: St, e: Move, t: Tid): seq<char>
    requires Enabled(s, e)
  {
    var a, b := s.port.taken, Step(s, e).port.taken;
    if e.Run? && e.t == t && |a| <= |b| then b[|a|..] else []
  }

  lemma OwnStepReads(s: St, t: Tid, ready: bool, who: Option<Tid>)
    requires CanRun(s, t, who) && Reads(s.pc[t])
    ensures var s', x := RunStep(s, t, ready, who), Takes(s, Run(t, ready, who), t);
            && |s'.pc| == |s.pc| && |x| + Left(s'.pc[t]) == Left(s.pc[t])
            && (x != [] ==> s.port.rcv != [] && x == [s.port.rcv[0]])
            && (Reads(s'.pc[t]) || s'.pc[t].Idle?)
  {
    if Returns(s.pc[t], false) { SignalLeaves(s, false, who, t, false); }
  }

  lemma StepReads(s: St, e: Move, t: Tid)
    requires Enabled(s, e) && t < |s.pc| && Reads(s.pc[t])
    ensures var s' := Step(s, e);
            && |s'.pc| == |s.pc| && (e == Release(t) || |Takes(s, e, t)| + Left(s'.pc[t]) == Left(s.pc[t]))
            && (Reads(s'.pc[t]) || s'.pc[t].Idle?)
  {
    hide Left, IrdySnd, IrdyRcv, Sig;
    match e
    case Run(u, ready, who) =>
      if u == t { OwnStepReads(s, t, ready, who); } else { OtherStepLeaves(s, u, ready, who, t); }
    case SndIrq(who) => SignalLeaves(s, true, who, t, false);
    case RcvIrq(c, ready, who, whoRcv) =>
      SignalLeaves(s, true, who, t, false);
      SignalLeaves(s, false, whoRcv, t, false);
    case _ =>
  }

  ghost function Gets(tr: seq<St>, es: seq<Move>, t: Tid, m: nat, n: nat): seq<char>
    requires IsRun(tr, es) && n <= |es|
  {
    if n <= m then [] else Gets(tr, es, t, m, n - 1) + Takes(tr[n - 1], es[n - 1], t)
  }

  /** While a task is inside serial_rea_dat: it has got as many characters as it asked for, less those it still
      wants; so when it returns without having been released, it has got them all. */
  lemma {:induction false} ReaderGets(tr: seq<St>, es: seq<Move>, t: Tid, len: nat, k: nat, n: nat)
    requires IsRun(tr, es) && k < n <= |es| && es[k] == RStart(t, len)
    requires forall j :: k < j < n ==> es[j] != Release(t) && t < |tr[j].pc| && !tr[j].pc[t].Idle?
    ensures t < |tr[n].pc| && (Reads(tr[n].pc[t]) || tr[n].pc[t].Idle?)
    ensures |Gets(tr, es, t, k + 1, n)| + Left(tr[n].pc[t]) == len
    decreases n
  {
    hide Enabled, Step, Left, Takes, Reads;
    assert Enabled(tr[n - 1], es[n - 1]) && tr[n - 1 + 1] == Step(tr[n - 1], es[n - 1]);
    if n - 1 == k {
      ReaderStarts(tr[k], t, len);
    } else {
      ReaderGets(tr, es, t, len, k, n - 1);
      StepReads(tr[n - 1], es[n - 1], t);
    }
  }

  lemma ReaderStarts(s: St, t: Tid, len: nat)
    requires Enabled(s, RStart(t, len))
    ensures var s' := Step(s, RStart(t, len)); t < |s'.pc| && Reads(s'.pc[t]) && Left(s'.pc[t]) == len
  {
  }
}
