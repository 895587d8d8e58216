/** The encoding of task states in tstat (kernel/task.h), and that its macros decide what they say. */
module TaskState {
  import opened Types

  const TS_DORMANT: bv8 := 0x00
  const TS_RUNNABLE: bv8 := 0x01
  const TS_WAITING: bv8 := 0x02
  const TS_SUSPENDED: bv8 := 0x04
  const TS_WAIT_MASK: bv8 := 0x0f << 3

  /** TS_WAIT_xxx without the shift. */
  function Factor(why: Why): bv8 {
    match why
    case Dly => 0x00
    case Slp => 0x01
    case Obj(RDtqQ(_)) => 0x02
    case Obj(RPdqQ(_)) => 0x03
    case Obj(SemQ(_)) => 0x04
    case Obj(FlgQ(_)) => 0x05
    case Obj(SDtqQ(_)) => 0x06
    case Obj(SPdqQ(_)) => 0x07
    case Obj(MpfQ(_)) => 0x09
  }

  function Encode(s: TStat): bv8 {
    match s
    case Dormant => TS_DORMANT
    case Runnable => TS_RUNNABLE
    case Suspended => TS_SUSPENDED
    case Waiting(why, susp) => TS_WAITING | (Factor(why) << 3) | (if susp then TS_SUSPENDED else 0)
  }

  predicate TstatDormant(x: bv8) { x == TS_DORMANT }

  predicate TstatRunnable(x: bv8) { x & TS_RUNNABLE != 0 }

  predicate TstatWaiting(x: bv8) { x & TS_WAITING != 0 }

  predicate TstatSuspended(x: bv8) { x & TS_SUSPENDED != 0 }

  predicate TstatWaitSlp(x: bv8) { x & TS_WAIT_MASK == 0x01 << 3 }

  predicate TstatWaitWobj(x: bv8) { x & TS_WAIT_MASK >= 0x02 << 3 }

  predicate TstatWaitWobjcb(x: bv8) { x & TS_WAIT_MASK >= 0x04 << 3 }

  /** The macros are exact for every state, those for wait factors also without asking first whether
      the task waits at all. */
  lemma MacrosExact(s: TStat)
    ensures TstatDormant(Encode(s)) <==> s.Dormant?
    ensures TstatRunnable(Encode(s)) <==> s.Runnable?
    ensures TstatWaiting(Encode(s)) <==> s.Waiting?
    ensures TstatSuspended(Encode(s)) <==> s.Suspended? || (s.Waiting? && s.susp)
    ensures TstatWaitSlp(Encode(s)) <==> s.Waiting? && s.why.Slp?
    ensures TstatWaitWobj(Encode(s)) <==> s.Waiting? && s.why.Obj?
    ensures TstatWaitWobjcb(Encode(s)) <==> s.Waiting? && s.why.Obj? && !s.why.wq.RDtqQ? && !s.why.wq.RPdqQ?
  {
    match s
    case Waiting(why, susp) =>
      match why {
        case Dly =>
        case Slp =>
        case Obj(wq) =>
          match wq {
            case SemQ(_) => case FlgQ(_) => case MpfQ(_) =>
            case SDtqQ(_) => case RDtqQ(_) => case SPdqQ(_) => case RPdqQ(_) =>
          }
      }
    case _ =>
  }

  /** What sus_tsk and rsm_tsk do to the bits of a waiting task. */
  lemma SuspendBits(why: Why)
    ensures Encode(Waiting(why, false)) | TS_SUSPENDED == Encode(Waiting(why, true))
    ensures Encode(Waiting(why, true)) & !TS_SUSPENDED == Encode(Waiting(why, false))
  {
    match why
    case Obj(wq) =>
      match wq {
        case SemQ(_) => case FlgQ(_) => case MpfQ(_) =>
        case SDtqQ(_) => case RDtqQ(_) => case SPdqQ(_) => case RPdqQ(_) =>
      }
    case _ =>
  }

  /** The wait for time alone cannot be told in this way: its factor is also that of tasks that do not
      wait. */
  lemma DlyNeedsWaiting()
    ensures Encode(Runnable) & TS_WAIT_MASK == Encode(Waiting(Dly, false)) & TS_WAIT_MASK
  {
  }
}
