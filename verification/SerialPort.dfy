/** The port control block of the serial interface driver (syssvc/serial.c): what its critical sections
    and its interrupt callbacks do to the two ring buffers and to flow control. */
module SerialPort {
  import opened Types
  import opened Core
  import T = TaskCalls
  import W = WaitQueues
  import S = Semaphore
  import opened SemaphoreCB
  import opened KernelState
  import opened Rings

  const FC_STOP: char := '\U{13}'
  const FC_START: char := '\U{11}'

  datatype Ioctl = Ioctl(crlf: bool, fcsnd: bool, fcany: bool, fcrcv: bool)

  /** The characters in the buffers, oldest first; and, as history, the data characters accepted for
      sending and those given to the device, those received into the buffer and taken from it, and the
      flow control characters given to the device. */
  datatype Port = Port(
    snd: seq<char>, sndsz: nat, sndStopped: bool,
    rcv: seq<char>, rcvsz: nat, rcvStopped: bool, fcChr: Option<char>, ioctl: Ioctl,
    accepted: seq<char>, sent: seq<char>, stored: seq<char>, taken: seq<char>, ctl: seq<char>)

  /** A port as serial_opn_por leaves it. */
  function Opened(sndsz: nat, rcvsz: nat): Port {
    Port([], sndsz, false, [], rcvsz, false, None, Ioctl(true, true, false, true), [], [], [], [], [])
  }

  predicate SndFull(p: Port) { |p.snd| == p.sndsz }

  /** Characters leave in the order in which they came, none is lost in the buffers, and no buffer
      overflows. */
  ghost predicate PortOk(p: Port) {
    && p.accepted == p.sent + p.snd && |p.snd| <= p.sndsz && 0 < p.sndsz
    && p.stored == p.taken + p.rcv && |p.rcv| <= p.rcvsz && 0 < p.rcvsz
  }

  /** A flow control character for the other side: given to the device, or kept until it is ready. */
  function Control(p: Port, x: char, ready: bool): Port {
    if ready then p.(ctl := p.ctl + [x]) else p.(fcChr := Some(x))
  }

  /** serial_wri_chr between loc_cpu and unl_cpu; ready says whether the device takes a character now.
      The second component: the buffer has become full. */
  function WriChr(p: Port, c: char, ready: bool): (Port, bool) {
    var q := p.(accepted := p.accepted + [c]);
    if p.snd == [] && !p.sndStopped && ready then (q.(sent := p.sent + [c]), false)
    else (q.(snd := p.snd + [c]), |p.snd| + 1 == p.sndsz)
  }

  /** serial_rea_chr: the character, and whether the buffer has become empty. */
  function ReaChr(p: Port, ready: bool): (Port, char, bool)
    requires p.rcv != []
  {
    var q := p.(rcv := p.rcv[1..], taken := p.taken + [p.rcv[0]]);
    var q2 := if p.rcvStopped && |q.rcv| <= p.rcvsz / 2
              then Control(q, FC_START, ready).(rcvStopped := false) else q;
    (q2, p.rcv[0], q.rcv == [])
  }

  /** The oldest character of the send buffer goes to the device; the second component: the buffer was
      full, so that the semaphore has to be signalled. */
  function SendOldest(p: Port): (Port, bool)
    requires p.snd != []
  {
    (p.(snd := p.snd[1..], sent := p.sent + [p.snd[0]]), SndFull(p))
  }

  /** sio_irdy_snd: the device can take a character. */
  function IrdySnd(p: Port): (Port, bool) {
    if p.fcChr.Some? then (p.(fcChr := None, ctl := p.ctl + [p.fcChr.value]), false)
    else if !p.sndStopped && p.snd != [] then SendOldest(p)
    else (p, false)
  }

  /** A received data character; the last component: the buffer was empty. */
  function Store(p: Port, c: char, ready: bool): (Port, bool) {
    var q := p.(rcv := p.rcv + [c], stored := p.stored + [c]);
    var stop := p.ioctl.fcrcv && !p.rcvStopped && |q.rcv| >= p.rcvsz * 3 / 4;
    (if stop then Control(q, FC_STOP, ready).(rcvStopped := true) else q, p.rcv == [])
  }

  /** sio_irdy_rcv: a character has come in.  The last components: the semaphores of the send and the
      receive buffer have to be signalled. */
  function IrdyRcv(p: Port, c: char, ready: bool): (Port, bool, bool) {
    if p.ioctl.fcsnd && c == FC_STOP then (p.(sndStopped := true), false, false)
    else if p.sndStopped && (c == FC_START || p.ioctl.fcany) then
      var q := p.(sndStopped := false);
      if p.snd != [] && ready then var (q2, sig) := SendOldest(q); (q2, sig, false)
      else (q, false, false)
    else if p.ioctl.fcsnd && c == FC_START then (p, false, false)
    else if |p.rcv| == p.rcvsz then (p, false, false)
    else var (q, sig) := Store(p, c, ready); (q, false, sig)
  }

  lemma WriChrOk(p: Port, c: char, ready: bool)
    requires PortOk(p) && !SndFull(p)
    ensures var (q, full) := WriChr(p, c, ready);
            PortOk(q) && q.accepted == p.accepted + [c] && (full <==> SndFull(q)) && q.rcv == p.rcv
  {
  }

  lemma ReaChrOk(p: Port, ready: bool)
    requires PortOk(p) && p.rcv != []
    ensures var (q, c, empty) := ReaChr(p, ready);
            PortOk(q) && q.taken == p.taken + [c] && (empty <==> q.rcv == []) && q.snd == p.snd
              && q.accepted == p.accepted
  {
    assert p.rcv == [p.rcv[0]] + p.rcv[1..];
  }

  lemma SendOldestOk(p: Port)
    requires PortOk(p) && p.snd != []
    ensures var (q, sig) := SendOldest(p); PortOk(q) && (sig <==> SndFull(p)) && !SndFull(q) && q.accepted == p.accepted
  {
    assert p.snd == [p.snd[0]] + p.snd[1..];
  }

  lemma IrdySndOk(p: Port)
    requires PortOk(p)
    ensures var (q, sig) := IrdySnd(p);
            PortOk(q) && q.accepted == p.accepted && q.rcv == p.rcv && (sig <==> SndFull(p) && !SndFull(q))
              && (SndFull(q) ==> SndFull(p))
  {
    if p.fcChr.None? && !p.sndStopped && p.snd != [] { SendOldestOk(p); }
  }

  lemma StoreOk(p: Port, c: char, ready: bool)
    requires PortOk(p) && |p.rcv| < p.rcvsz
    ensures var (q, sig) := Store(p, c, ready);
            && PortOk(q) && q.accepted == p.accepted && q.snd == p.snd && q.sndsz == p.sndsz
            && (sig <==> p.rcv == []) && q.rcv != []
  {
  }

  lemma IrdyRcvOk(p: Port, c: char, ready: bool)
    requires PortOk(p)
    ensures var (q, sigS, sigR) := IrdyRcv(p, c, ready);
            && PortOk(q) && q.accepted == p.accepted
            && (sigS <==> SndFull(p) && !SndFull(q)) && (SndFull(q) ==> SndFull(p))
            && (sigR <==> p.rcv == [] && q.rcv != []) && (q.rcv == [] ==> p.rcv == [])
  {
    hide Store;
    if p.sndStopped && p.snd != [] { SendOldestOk(p.(sndStopped := false)); }
    if |p.rcv| < p.rcvsz { StoreOk(p, c, ready); }
  }

  /** What the signal to a semaphore, if there is one, does; e is the error flag. */
  ghost predicate Signalled(g: Config, sig: bool, c: Core, s: S.Sem, i: nat, e: bool, c': Core, s': S.Sem, e': bool) {
    if !sig then c' == c && s' == s && e' == e
    else
      && W.QueueOk(c, SemQ(i))
      && var (c1, s1, er) := S.SigSem(g, c, s, i);
         c' == c1 && s' == s1 && e' == (e || er != E_OK)
  }

  lemma NoSignal(g: Config, c: Core, s: S.Sem, i: nat, e: bool)
    ensures Signalled(g, false, c, s, i, e, c, s, e)
  {
  }

  class SPCB {
    const snd_bufsz: nat
    const snd_buffer: array<char>
    const rcv_bufsz: nat
    const rcv_buffer: array<char>
    var errorflag: bool
    var ioctl: Ioctl
    var rcv_read_ptr: nat
    var rcv_write_ptr: nat
    var rcv_count: nat
    var rcv_fc_chr: Option<char>
    var rcv_stopped: bool
    var snd_read_ptr: nat
    var snd_write_ptr: nat
    var snd_count: nat
    var snd_stopped: bool
    ghost var accepted: seq<char>
    ghost var sent: seq<char>
    ghost var stored: seq<char>
    ghost var taken: seq<char>
    ghost var ctl: seq<char>

    ghost predicate Valid()
      reads this, snd_buffer, rcv_buffer
    {
      && snd_buffer != rcv_buffer
      && snd_buffer.Length == snd_bufsz && snd_read_ptr < snd_bufsz && snd_count <= snd_bufsz
      && snd_write_ptr == Slot(snd_read_ptr, snd_count, snd_bufsz)
      && rcv_buffer.Length == rcv_bufsz && rcv_read_ptr < rcv_bufsz && rcv_count <= rcv_bufsz
      && rcv_write_ptr == Slot(rcv_read_ptr, rcv_count, rcv_bufsz)
    }

    ghost function View(): Port
      requires Valid()
      reads this, snd_buffer, rcv_buffer
    {
      Port(Run(snd_buffer[..], snd_read_ptr, snd_count), snd_bufsz, snd_stopped,
           Run(rcv_buffer[..], rcv_read_ptr, rcv_count), rcv_bufsz, rcv_stopped, rcv_fc_chr, ioctl,
           accepted, sent, stored, taken, ctl)
    }

    /** The assignments of serial_opn_por. */
    constructor (sndsz: nat, rcvsz: nat)
      requires 0 < sndsz && 0 < rcvsz
      ensures Valid() && fresh(snd_buffer) && fresh(rcv_buffer) && !errorflag && PortOk(View())
      ensures View() == Opened(sndsz, rcvsz)
    {
      snd_bufsz, rcv_bufsz := sndsz, rcvsz;
      snd_buffer := new char[sndsz];
      rcv_buffer := new char[rcvsz];
      errorflag, ioctl := false, Ioctl(true, true, false, true);
      rcv_read_ptr, rcv_write_ptr, rcv_count, rcv_fc_chr, rcv_stopped := 0, 0, 0, None, false;
      snd_read_ptr, snd_write_ptr, snd_count, snd_stopped := 0, 0, 0, false;
      accepted, sent, stored, taken, ctl := [], [], [], [], [];
    }

    /** The critical section of serial_wri_chr. */
    method SerialWriChr(c: char, ready: bool) returns (buffer_full: bool)
      requires Valid() && snd_count < snd_bufsz
      modifies this, snd_buffer
      ensures Valid() && errorflag == old(errorflag) && (View(), buffer_full) == WriChr(old(View()), c, ready)
    {
      hide Run, Slot;
      accepted := accepted + [c];
      if snd_count == 0 && !snd_stopped && ready {
        sent := sent + [c];
        buffer_full := false;
      } else {
        RunAppend(snd_buffer[..], snd_read_ptr, snd_count, c);
        Appended(snd_read_ptr, snd_count, snd_bufsz);
        snd_buffer[snd_write_ptr] := c;
        snd_write_ptr := IncPtr(snd_write_ptr, snd_bufsz);
        snd_count := snd_count + 1;
        buffer_full := snd_count == snd_bufsz;
      }
    }

    /** INC_PTR. */
    static function IncPtr(ptr: nat, bufsz: nat): nat { if ptr + 1 == bufsz then 0 else ptr + 1 }

    /** The pointers after an entry has been added, or taken away. */
    static lemma Appended(h: nat, c: nat, n: nat)
      requires h < n && c < n
      ensures Slot(h, c, n) < n && IncPtr(Slot(h, c, n), n) == Slot(h, c + 1, n)
    {
    }

    static lemma Dropped(h: nat, c: nat, n: nat)
      requires h < n && 0 < c <= n
      ensures IncPtr(h, n) == Slot(h, 1, n) < n && Slot(IncPtr(h, n), c - 1, n) == Slot(h, c, n)
    {
    }

    /** The critical section of serial_rea_chr. */
    method SerialReaChr(ready: bool) returns (c: char, buffer_empty: bool)
      requires Valid() && rcv_count > 0
      modifies this
      ensures Valid() && errorflag == old(errorflag) && (View(), c, buffer_empty) == ReaChr(old(View()), ready)
    {
      hide Run, Slot;
      c := TakeReceived();
      buffer_empty := rcv_count == 0;
      if rcv_stopped && rcv_count <= rcv_bufsz / 2 {
        SendControl(FC_START, ready);
        rcv_stopped := false;
      }
    }

    /** A character is taken from the receive buffer. */
    method TakeReceived() returns (c: char)
      requires Valid() && rcv_count > 0
      modifies this`rcv_read_ptr, this`rcv_count, this`taken
      ensures Valid() && c == old(View()).rcv[0]
      ensures var p := old(View()); View() == p.(rcv := p.rcv[1..], taken := p.taken + [c])
    {
      hide Run, Slot;
      RunDrop(rcv_buffer[..], rcv_read_ptr, rcv_count);
      Dropped(rcv_read_ptr, rcv_count, rcv_bufsz);
      c := rcv_buffer[rcv_read_ptr];
      rcv_read_ptr := IncPtr(rcv_read_ptr, rcv_bufsz);
      rcv_count := rcv_count - 1;
      taken := taken + [c];
    }

    method SendControl(x: char, ready: bool)
      modifies this`rcv_fc_chr, this`ctl
      ensures rcv_fc_chr == (if ready then old(rcv_fc_chr) else Some(x))
              && ctl == if ready then old(ctl) + [x] else old(ctl)
    {
      if ready {
        ctl := ctl + [x];
      } else {
        rcv_fc_chr := Some(x);
      }
    }

    /** The oldest character of the send buffer has been given to the device. */
    method TakeSent() returns (full: bool)
      requires Valid() && snd_count > 0
      modifies this`snd_read_ptr, this`snd_count, this`sent
      ensures Valid() && (View(), full) == SendOldest(old(View()))
    {
      hide Run, Slot;
      RunDrop(snd_buffer[..], snd_read_ptr, snd_count);
      Dropped(snd_read_ptr, snd_count, snd_bufsz);
      sent := sent + [snd_buffer[snd_read_ptr]];
      snd_read_ptr := IncPtr(snd_read_ptr, snd_bufsz);
      full := snd_count == snd_bufsz;
      snd_count := snd_count - 1;
    }

    /** isig_sem on a semaphore of the port. */
    method Signal(k: Kernel, sem: SEMCB)
      requires Valid() && k.Valid() && Inv(k.g, k.View()) && SemQ(sem.i) in k.wqs
      modifies this`errorflag, sem, k.s, k.s.links, k.h, k.h.tmevt_heap
      ensures Valid() && View() == old(View()) && k.Valid()
      ensures Signalled(k.g, true, old(k.View()), old(sem.View()), sem.i, old(errorflag), k.View(), sem.View(),
              errorflag)
    {
      hide Kernel.Valid, Inv, S.SigSem, Run, Slot;
      var ercd := sem.SigSem(k);
      if ercd != E_OK {
        errorflag := true;
      }
    }

    /** sio_irdy_snd. */
    method SioIrdySnd(k: Kernel, sem: SEMCB)
      requires Valid() && k.Valid() && Inv(k.g, k.View()) && SemQ(sem.i) in k.wqs
      modifies this, sem, k.s, k.s.links, k.h, k.h.tmevt_heap
      ensures Valid() && k.Valid() && View() == IrdySnd(old(View())).0
      ensures Signalled(k.g, IrdySnd(old(View())).1, old(k.View()), old(sem.View()), sem.i, old(errorflag),
                        k.View(), sem.View(), errorflag)
    {
      hide Kernel.Valid, Inv, S.SigSem, Run, Slot;
      if rcv_fc_chr.Some? {
        ctl := ctl + [rcv_fc_chr.value];
        rcv_fc_chr := None;
      } else if !snd_stopped && snd_count > 0 {
        var full := TakeSent();
        if full {
          Signal(k, sem);
        }
      }
    }

    /** Sending is resumed. */
    method Resume(k: Kernel, sem: SEMCB, ready: bool)
      requires Valid() && k.Valid() && Inv(k.g, k.View()) && SemQ(sem.i) in k.wqs
      modifies this`snd_stopped, this`snd_read_ptr, this`snd_count, this`sent, this`errorflag, sem, k.s, k.s.links,
          k.h, k.h.tmevt_heap
      ensures Valid() && k.Valid()
      ensures var p := old(View()).(sndStopped := false);
              var (q, sig) := if p.snd != [] && ready then SendOldest(p) else (p, false);
              && View() == q
              && Signalled(k.g, sig, old(k.View()), old(sem.View()), sem.i, old(errorflag), k.View(), sem.View(),
                   errorflag)
    {
      hide Kernel.Valid, Inv, Signalled, Run, Slot, SendOldest;
      NoSignal(k.g, k.View(), sem.View(), sem.i, errorflag);
      snd_stopped := false;
      if snd_count > 0 {
        if ready {
          var full := TakeSent();
          if full {
            Signal(k, sem);
          }
        }
      }
    }

    /** A data character is stored. */
    method Receive(k: Kernel, sem: SEMCB, c: char, ready: bool)
      requires Valid() && k.Valid() && Inv(k.g, k.View()) && SemQ(sem.i) in k.wqs && rcv_count < rcv_bufsz
      modifies this, rcv_buffer, sem, k.s, k.s.links, k.h, k.h.tmevt_heap
      ensures Valid() && k.Valid() && View() == Store(old(View()), c, ready).0
      ensures Signalled(k.g, Store(old(View()), c, ready).1, old(k.View()), old(sem.View()), sem.i, old(errorflag),
                        k.View(), sem.View(), errorflag)
    {
      hide Kernel.Valid, Inv, Signalled, Run, Slot, Store;
      NoSignal(k.g, k.View(), sem.View(), sem.i, errorflag);
      var first := StoreChr(c, ready);
      if first {
        Signal(k, sem);
      }
    }

    /** sio_irdy_rcv; ready says whether the device takes a character now. */
    method SioIrdyRcv(k: Kernel, sndsem: SEMCB, rcvsem: SEMCB, c: char, ready: bool)
      requires Valid() && k.Valid() && Inv(k.g, k.View()) && SemQ(sndsem.i) in k.wqs && SemQ(rcvsem.i) in k.wqs
               && sndsem != rcvsem
      modifies this, rcv_buffer, sndsem, rcvsem, k.s, k.s.links, k.h, k.h.tmevt_heap
      ensures Valid() && k.Valid() && View() == IrdyRcv(old(View()), c, ready).0
      ensures var (q, sigS, sigR) := IrdyRcv(old(View()), c, ready);
              if sigR then
                && Signalled(k.g, true, old(k.View()), old(rcvsem.View()), rcvsem.i, old(errorflag), k.View(),
                     rcvsem.View(), errorflag)
                && sndsem.View() == old(sndsem.View()) && !sigS
              else
                && Signalled(k.g, sigS, old(k.View()), old(sndsem.View()), sndsem.i, old(errorflag), k.View(),
                     sndsem.View(), errorflag)
                && rcvsem.View() == old(rcvsem.View())
    {
      hide Kernel.Valid, Inv, Run, Slot, Store, SendOldest, S.SigSem;
      if ioctl.fcsnd && c == FC_STOP {
        snd_stopped := true;
      } else if snd_stopped && (c == FC_START || ioctl.fcany) {
        Resume(k, sndsem, ready);
      } else if ioctl.fcsnd && c == FC_START {
      } else if rcv_count == rcv_bufsz {
      } else {
        Receive(k, rcvsem, c, ready);
      }
    }

    /** A character is put into the receive buffer. */
    method PutReceived(c: char)
      requires Valid() && rcv_count < rcv_bufsz
      modifies this`rcv_write_ptr, this`rcv_count, this`stored, rcv_buffer
      ensures var p := old(View()); Valid() && View() == p.(rcv := p.rcv + [c], stored := p.stored + [c])
    {
      hide Run, Slot;
      RunAppend(rcv_buffer[..], rcv_read_ptr, rcv_count, c);
      Appended(rcv_read_ptr, rcv_count, rcv_bufsz);
      rcv_buffer[rcv_write_ptr] := c;
      rcv_write_ptr := IncPtr(rcv_write_ptr, rcv_bufsz);
      rcv_count := rcv_count + 1;
      stored := stored + [c];
    }

    /** The received character goes into the receive buffer; the other side is stopped if need be. */
    method StoreChr(c: char, ready: bool) returns (first: bool)
      requires Valid() && rcv_count < rcv_bufsz
      modifies this`rcv_write_ptr, this`rcv_count, this`stored, this`rcv_fc_chr, this`rcv_stopped, this`ctl, rcv_buffer
      ensures Valid() && (View(), first) == Store(old(View()), c, ready)
    {
      hide Run, Slot;
      first := rcv_count == 0;
      PutReceived(c);
      if ioctl.fcrcv && !rcv_stopped && rcv_count >= rcv_bufsz * 3 / 4 {
        SendControl(FC_STOP, ready);
        rcv_stopped := true;
      }
    }
  }
}
