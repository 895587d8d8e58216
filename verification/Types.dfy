/**
  The values the kernel computes with: object addresses, task states, wait-information blocks,
  event blocks, configuration.  Pointers are modelled as addresses: a task is an index into
  tcb_table, a time event block is named by the structure that embeds it, a queue by its header.
 */
module Types {

  /** Index into tcb_table (INDEX_TSK of the task ID). */
  type Tid = nat

  datatype Option<+T> = None | Some(value: T)

  /** Return codes of the service calls.  BLOCKED is not a code of the kernel: it says that the
      caller went to sleep and will read its code from its wait-information block on resumption. */
  datatype ER = E_OK | E_CTX | E_PAR | E_ILUSE | E_OBJ | E_QOVR | E_RLWAI | E_TMOUT | E_DLT | BLOCKED

  const TNUM_TPRI: nat := 16
  const TMAX_RELTIM: nat := 0x7fff_ffff
  /** EVTTIM is a 32-bit unsigned long. */
  const EVTTIM_MOD: nat := 0x1_0000_0000

  /** Headers of the wait queues of the synchronisation objects. */
  datatype WQ =
    | SemQ(i: nat) | FlgQ(i: nat) | MpfQ(i: nat)
    | SDtqQ(i: nat) | RDtqQ(i: nat)
    | SPdqQ(i: nat) | RPdqQ(i: nat)

  /** All queue headers: ready_queue[pri] and the wait queues. */
  datatype QId = Ready(pri: nat) | Wait(wq: WQ)

  /** Wait factor.  A task that waits on an object also records the queue it hangs on. */
  datatype Why = Dly | Slp | Obj(wq: WQ)

  datatype TStat = Dormant | Runnable | Waiting(why: Why, susp: bool) | Suspended

  /** The union of task.h: while a task waits it holds the pointer to the time event block (or
      NULL), afterwards the return code of the ended wait. */
  datatype Winfo = Timer(timed: bool) | Wercd(wercd: ER)

  /** Object dependent part of the wait-information block. */
  datatype WData =
    | NoData
    | FlgData(waiptn: bv32, orw: bool, flgptn: bv32)
    | MsgData(data: int, datapri: int)
    | BlkData(blk: nat)

  datatype TCB = TCB(
    tstat: TStat, priority: nat, actque: bool, wupque: bool, winfo: Winfo, wdata: WData)

  /** Address of a time event block: on the stack of the blocked call of a task, or inside the
      control block of a cyclic or alarm handler. */
  datatype Blk = TaskBlk(t: Tid) | CycBlk(i: nat) | AlmBlk(i: nat)

  /** Callback function and argument stored in a time event block. */
  datatype Callback = WaitTmout(t: Tid) | WaitTmoutOk(t: Tid) | CallCychdr(i: nat) | CallAlmhdr(i: nat)

  /** A registered event: unbounded occurrence time, callback, and, as history, the number of ticks
      that had been supplied when it was registered and the relative time asked for. */
  datatype Ev = Ev(time: int, cb: Callback, tick: nat, rel: nat)

  datatype CycIni = CycIni(sta: bool, cyctim: nat, cycphs: nat)

  datatype Config = Config(
    ipri: seq<nat>,            // initial priority of each task (internal representation)
    tpri: set<WQ>,             // queues of objects with attribute TA_TPRI
    cyc: seq<CycIni>,
    nalm: nat,
    ticNume: nat, ticDeno: nat)

  /** What the configurator guarantees, and a tick short enough for the 32-bit clock. */
  predicate ValidConfig(g: Config) {
    && (forall t :: 0 <= t < |g.ipri| ==> g.ipri[t] < TNUM_TPRI)
    && (forall i :: 0 <= i < |g.cyc| ==> 0 < g.cyc[i].cyctim <= TMAX_RELTIM && g.cyc[i].cycphs <= TMAX_RELTIM)
    && 0 < g.ticNume && 0 < g.ticDeno
    && g.ticNume / g.ticDeno <= 0x3fff_fffe
  }

  /** All addresses of time event blocks there are. */
  function Addresses(nt: nat, nc: nat, na: nat): (s: seq<Blk>)
    ensures |s| == nt + nc + na
    ensures forall b :: b in s <==> match b case TaskBlk(t) => t < nt case CycBlk(i) => i < nc case AlmBlk(i) => i < na
  {
    if nt > 0 then Addresses(nt - 1, nc, na) + [TaskBlk(nt - 1)]
    else if nc > 0 then Addresses(0, nc - 1, na) + [CycBlk(nc - 1)]
    else if na > 0 then Addresses(0, 0, na - 1) + [AlmBlk(na - 1)]
    else []
  }

  function AllBlks(g: Config): seq<Blk> { Addresses(|g.ipri|, |g.cyc|, g.nalm) }

  /** Receivers are queued in FIFO order whatever the attribute of their object. */
  predicate Tpri(g: Config, wq: WQ) {
    wq in g.tpri && !wq.RDtqQ? && !wq.RPdqQ?
  }

  /** How long a caller is ready to wait: the polling forms of a call, or a TMO value. */
  datatype Patience = Polling | Tmo(tmo: int)

  const TMO_POL := 0
  const TMO_FEVR := -1
}
