/** serial_wri_dat on the whole kernel: what a task writes is its buffer, whatever the kernel, the other tasks and
    the interrupts do meanwhile. */
module SerialDataOnKernel {
  import opened Types
  import opened Core
  import T = TaskCalls
  import Y = System
  import opened SerialPort
  import SP = SerialProtocol
  import D = SerialData
  import opened SerialOnKernel

  /** The characters that the step, if task t takes it inside the driver, adds to those accepted for sending. */
  function Adds(w: World, a: Act, w': World, t: Tid): seq<char> {
    var n, b := |w.port.accepted|, w'.port.accepted;
    if a.Go? && w.s.c.run == Some(t) && n <= |b| then b[n..] else []
  }

  /** The characters that task t has yet to send. */
  function Todo(w: World, t: Tid, crlf: bool): seq<char> {
    if t < |w.at| == |w.s.c.ts.tcb| then D.Todo(PcOf(w, t), crlf) else []
  }

  /** Task t is inside serial_wri_dat. */
  predicate Writing(w: World, x: Ids, t: Tid) { Shaped(w, x) && t < |w.at| && D.Writes(PcOf(w, t)) }

  /** Task t has returned from the driver, or given up waiting in it. */
  predicate Left(w: World, t: Tid) { t < |w.at| == |w.s.c.ts.tcb| && PcOf(w, t).Idle? }

  lemma StepWrites(g: Config, w: World, x: Ids, a: Act, t: Tid)
    requires WorldInv(g, w, x) && MayAct(g, w, x, a) && !a.CtlPor? && Writing(w, x, t)
    requires Usable(g, w, x) && (a.Go? ==> Possible(w, w.s.c.run.value)) && !Left(Step(g, w, x, a), t)
    ensures var w', crlf := Step(g, w, x, a), w.port.ioctl.crlf;
            && Writing(w', x, t) && w'.port.ioctl == w.port.ioctl
            && Adds(w, a, w', t) + Todo(w', t, crlf) == Todo(w, t, crlf)
  {
    hide WorldInv, MayAct, Usable, Possible, Step, SP.Step, SP.Enabled, D.Todo, PcOf;
    StepSimulates(g, w, x, a);
    var w' := Step(g, w, x, a);
    SeenAs(w, x, t);
    SeenAs(w', x, t);
    if Unseen(w, a) && Abs(w', x) == Abs(w, x) {
      assert w.port.accepted[|w.port.accepted|..] == [];
    } else {
      var e :| Answers(w, a, e) && SP.Enabled(Abs(w, x), e) && Abs(w', x) == SP.Step(Abs(w, x), e);
      D.StepWrites(Abs(w, x), e, t);
      if e == SP.Release(t) { ReleasedIdle(Abs(w, x), t); }
    }
  }

  lemma SeenAs(w: World, x: Ids, t: Tid)
    requires Shaped(w, x)
    ensures |Abs(w, x).pc| == |w.at| && Abs(w, x).port == w.port
    ensures t < |w.at| ==> Abs(w, x).pc[t] == PcOf(w, t)
  {
  }

  lemma ReleasedIdle(s: SP.St, t: Tid)
    requires SP.Enabled(s, SP.Release(t))
    ensures t < |SP.Step(s, SP.Release(t)).pc| && SP.Step(s, SP.Release(t)).pc[t].Idle?
  {
  }

  lemma WriterStarts(g: Config, w: World, x: Ids, t: Tid, buf: seq<char>)
    requires WorldInv(g, w, x) && MayAct(g, w, x, WriDat(buf)) && Usable(g, w, x) && w.s.c.run == Some(t)
    ensures var w', crlf := Step(g, w, x, WriDat(buf)), w.port.ioctl.crlf;
            Writing(w', x, t) && w'.port == w.port && Todo(w', t, crlf) == D.Lines(buf, crlf)
  {
    hide SysInv, QueueIs, SP.ProtoInv, Usable, D.Lines;
  }

  /** What task t has sent in the steps from m up to n. */
  ghost function Sends(tr: seq<World>, acts: seq<Act>, t: Tid, m: nat, n: nat): seq<char>
    requires |tr| == |acts| + 1 && n <= |acts|
  {
    if n <= m then [] else Sends(tr, acts, t, m, n - 1) + Adds(tr[n - 1], acts[n - 1], tr[n], t)
  }

  /** In any run of kernel and driver, from the call serial_wri_dat(buf) by task t up to any moment before it
      returns: what t has sent and what it has yet to send are the characters of buf in their order, a CR before
      each LF if the port is set so. */
  lemma {:induction false} WriterSends(g: Config, x: Ids, tr: seq<World>, acts: seq<Act>, t: Tid, buf: seq<char>,
      k: nat, n: nat)
    requires IsRun(g, x, tr, acts) && WorldInv(g, tr[0], x) && k < n <= |acts|
    requires acts[k] == WriDat(buf) && tr[k].s.c.run == Some(t)
    requires forall j :: k < j < n ==> !acts[j].CtlPor?
    requires forall j :: k < j <= n ==> !Left(tr[j], t)
    ensures var crlf := tr[k].port.ioctl.crlf;
            && Writing(tr[n], x, t) && tr[n].port.ioctl == tr[k].port.ioctl
            && Sends(tr, acts, t, k + 1, n) + Todo(tr[n], t, crlf) == D.Lines(buf, crlf)
    decreases n
  {
    hide WorldInv, MayAct, Usable, Possible, Step, Todo, D.Lines, Adds, Left, Writing;
    RunsAreSafe(g, x, tr, acts, n - 1);
    var w, a, crlf := tr[n - 1], acts[n - 1], tr[k].port.ioctl.crlf;
    assert Shaped(w, x) && Usable(g, w, x) && MayAct(g, w, x, a) && tr[n - 1 + 1] == Step(g, w, x, a);
    if n - 1 == k {
      WriterStarts(g, w, x, t, buf);
      assert [] + D.Lines(buf, crlf) == D.Lines(buf, crlf);
    } else {
      WriterSends(g, x, tr, acts, t, buf, k, n - 1);
      StepWrites(g, w, x, a, t);
      D.Regroup(Sends(tr, acts, t, k + 1, n - 1), Adds(w, a, tr[n], t), Todo(tr[n], t, crlf));
    }
  }

  /** So when it is about to return it has sent them all. */
  lemma WriterSendsAll(g: Config, x: Ids, tr: seq<World>, acts: seq<Act>, t: Tid, buf: seq<char>, k: nat, n: nat)
    requires IsRun(g, x, tr, acts) && WorldInv(g, tr[0], x) && k < n <= |acts|
    requires acts[k] == WriDat(buf) && tr[k].s.c.run == Some(t)
    requires forall j :: k < j < n ==> !acts[j].CtlPor?
    requires forall j :: k < j <= n ==> !Left(tr[j], t)
    requires t < |tr[n].at| && tr[n].at[t].WTop? && tr[n].at[t].rest == []
    ensures Sends(tr, acts, t, k + 1, n) == D.Lines(buf, tr[k].port.ioctl.crlf)
  {
    hide WorldInv, MayAct, Usable, Possible, Step, Left, Sends, Todo, Writing, D.Lines;
    WriterSends(g, x, tr, acts, t, buf, k, n);
    AtEnd(tr[n], t, tr[k].port.ioctl.crlf);
    assert Sends(tr, acts, t, k + 1, n) + [] == Sends(tr, acts, t, k + 1, n);
  }

  lemma AtEnd(w: World, t: Tid, crlf: bool)
    requires t < |w.at| && w.at[t].WTop? && w.at[t].rest == []
    ensures Todo(w, t, crlf) == []
  {
  }
}
