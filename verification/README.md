# TOPPERS/ASP kernel: model and proofs

A Dafny model of the TOPPERS/ASP 1.9.2 real-time kernel (`kernel/`) and of the buffer protocol of its
serial interface driver (`syssvc/serial.c`), with proofs of what the kernel is for: tasks run in the
order of section 3.2.2 of the uITRON4.0 Specification and no dispatch is missed, every task hangs in
exactly the queue its state names, time events fire in order, never early and boundedly late, in spite
of 32-bit times that wrap around, and the synchronisation objects lose and duplicate nothing.

## How it is built

The project has two layers and the proof that they agree.

*The state machine.* `Core` is the state of the kernel as a value: control blocks, queues, registered
events with unbounded times, dispatcher flags, clock. `TaskCalls`, `TimeCalls`, `Semaphore`,
`EventFlag`, `DataQueue`, `PriDataQueue` and `MemoryPool` give every service call as a transition;
`System` puts them together with interrupts, ticks and callbacks. A call and its twin for interrupt
handlers are one transition: `Finish` dispatches at once in a task and sets reqflg in a handler. Each call
between lock and unlock is one step, and interrupt handlers may run between any two steps, also
between the callbacks of a tick. `Core.Inv` and the invariants of the objects are proved for every step
and every run (`SystemProofs`, `Startup`); the properties of single mechanisms are in the files named
after them and in `...Proofs`, `CallLaws`, `WaitCodes`, `StepFrames`, `DrainProofs`, `TickRuns`,
`RemainingTime`, `SemaphoreRuns`, `DataQueueRuns`, `DataQueueOrder`, `PriDataQueueRuns`, `MemoryPoolRuns`.

*What the calls mean.* The transitions are built from a few common ones; `TaskEffects`, `ObjectEffects`,
`FlagBits` and `StartState` say once more what each call and the start do, without these: which control block
changes and how, who stands where in which queue, which timer is set for when, who runs. `TimedRuns` and
`ObjectRuns` follow this through whole runs, from the call to the timeout.

*The variables of the kernel.* The classes keep the kernel's own data structures and update them in
place, with its branches: `Links.Queues` (circular lists of pointers), `TaskScheduler.Scheduler` (ready
queues, bitmap, p_schedtsk), `TimeEventHeap.Heap` (the indexed binary heap and the 32-bit clock),
`KernelState.Kernel` (task.c, wait.c, wait.h on top of them), the control blocks of the objects with
their ring buffer, sorted list and index array (`...CB`, `PriDataBuffers`), and `SerialPort.SPCB`. Each
method is proved to change the state it stands for (`View`) exactly as the transition says; the
modules `TaskManage`, `TaskSync`, `SysManage`, `Handlers`, `SignalTime`, `KernelStartup` follow the
source files. `WholeKernel` closes the circle: every call on the whole system is a step of `System`;
`WholeStart` starts it, and `WholeTick` is signal_time with everything that may happen meanwhile.

`SerialProtocol` models the tasks inside serial_wri_dat and serial_rea_dat by their program points,
interleaved with the interrupt callbacks; `SerialOnKernel` puts the same program points on top of the whole
kernel, its semaphores and its wait queues, and proves that nothing happens there that `SerialProtocol` does
not allow; `SerialData` and `SerialDataOnKernel` follow the characters of one call.

Pointers are addresses: a task is its index, a time event block is named by the structure it lies in, the
wait-information block is part of the task that waits. A blocking call ends with `BLOCKED`, meaning that
the caller reads its code from its wait-information block when it resumes; `WaitCodes` proves which
code that is.

## Assumptions

- The configurator's checks hold (`Types.ValidConfig`): priorities 0 to 15, 0 < cyctim <= TMAX_RELTIM,
  cycphs <= TMAX_RELTIM. EVTTIM has 32 bits and TMAX_RELTIM is 2^31 - 1. A tick is at most 2^30 - 2 ms
  long; `HeapNodes.ComparedRightInWindow` shows what fails beyond the 2^32 window that this guarantees.
- signal_time is not entered again while it is at work, and a handler that it calls ends before it.
- A pool has fewer than 2^32 - 2 blocks, a port buffers of at least one character.
- The callbacks of a serial port, sio_irdy_snd and sio_irdy_rcv, do not interrupt each other; the source
  does not lock them against each other.
- Nobody but the driver uses the semaphores of a port, and a task inside the driver is terminated only while
  it waits there.
- Dispatching is `p_runtsk := p_schedtsk`; with no runnable task p_runtsk is NULL.

## Where code and comments differ

- kernel/time_event.c:333-337 says that 0 is returned for an event that the next tick processes, and the code
  does so. The converse fails exactly for an event at base_time when next_subtime > 0
  (`TimeCallProofs.LeftTimZeroExact`), as for every alarm of 0 ms started then (`RemainingTime.ZeroButLater`):
  0 is returned, and a later tick processes it; with three ticks to the millisecond it may be the third
  (`RemainingTime.ThirdTick`).
- syssvc/serial.c:519-529 and 750-762: a START or STOP that goes straight to a ready device overtakes an
  older flow control character that is still waiting in rcv_fc_chr. `SerialFlow.StepFlow` gives the exact
  condition under which the other side is told what rcv_stopped says, `SerialFlow.RunFlow` the consequence
  for runs, `SerialFlow.StopOvertakesStart` a run in which it fails.
- syssvc/serial.c:413-427: a CR is to be sent before each LF. The two belong together if the CR goes
  straight to the device or leaves room in the send buffer (`SerialLines.LfFollows`), and only then
  (`SerialLines.CrFitsExact`): otherwise the task waits for the semaphore between them, and a character of
  another task may come between (`SerialLines.CrSplit`), or the LF may never come
  (`SerialLines.CrAlone`).
- kernel/dataqueue.c:271-285: a forced datum goes into the full buffer, ahead of the data of tasks that have
  been waiting to send. On a queue without TA_TPRI, where these wait in the order of sending, exactly the
  forced data that are accepted while tasks wait to send break this order (`DataQueueOrder.StepOrderExact`);
  `DataQueueOrder.ForcedOvertakesFromStart` is a run in which it happens. With TA_TPRI the data of waiting
  tasks are in the order of the priorities of these tasks.

## Model

| member | source | states |
|---|---|---|
| Links.Queues.InsertPrev | include/queue.h:86-93 | inserting before a cell keeps every circular list of the system well linked in both directions and changes the order of exactly one queue, at that cell |
| Links.Queues.Delete | include/queue.h:115-120 | unlinking a task from wherever it is removes it from its queue, keeps the order of the rest, and leaves it in no queue |
| Links.Queues.DeleteNext | include/queue.h:130-140 | takes exactly the first task of the queue |
| Links.Queues.Empty | include/queue.h:147-155 | true iff no task is linked to the header |
| Links.RingInsert | include/queue.h:86-93 | the four pointer assignments turn the ring of a sequence into the ring of the sequence with the new element at that place |
| Links.RingDelete | include/queue.h:115-120 | the two pointer assignments turn the ring of a sequence into the ring of the sequence without that element |
| Links.Queues.InsertTpri | kernel/wait.h:59-72 | the walk ends before the first task of lower priority, whatever the queue holds: the result is the priority insertion, FIFO among equals |
| ReadyBitmap.BitmapSearch | kernel/task.c:167-182 | for every non-zero bitmap the result is its lowest set bit |
| ReadyBitmap.TableIsLowBit | kernel/task.c:163-164 | the 15-entry table lists the lowest set bit of every nibble |
| TaskScheduler.Scheduler.SearchSchedtsk | kernel/task.c:227-234 | finds the head of the first non-empty ready queue, as recomputed from the queues alone |
| TaskScheduler.Scheduler.MakeRunnable | kernel/task.c:247-260 | cache and bitmap agree with recomputation again; the task is last of its priority; the result is true iff the scheduled task changed and dispatching is allowed |
| TaskScheduler.Scheduler.MakeNonRunnable | kernel/task.c:274-295 | the same for the removal of any ready task, including the scheduled one and the last one of a queue or of all |
| TaskScheduler.Scheduler.ChangeReadyPriority | kernel/task.c:347-377 | raise, drop and same-priority change of a runnable task: cache, bitmap and queues agree again, and the result is exact |
| TaskScheduler.Scheduler.RotateReadyQueue | kernel/task.c:402-417 | the queue is rotated by one, the cache agrees again, and the result is exact, for queues of any length |
| TaskQueues.TopRunnable | kernel/task.h:268-275 | the scheduled task is runnable, no runnable task has a higher priority, and there is one as soon as any task is runnable |
| TaskQueues.RehomeLinked | kernel/task.h:122-136 | link safety: whatever control block a task gets, its single link is afterwards in exactly the queue that its state names |
| TaskQueues.RehomeSorted | kernel/wait.h:263-277 | every move of a task, also a priority change while it waits, keeps all TA_TPRI queues in the order of current priorities |
| TaskQueues.InsertPriSorted | kernel/wait.h:53-72 | insertion keeps a queue sorted by priority |
| TaskQueues.PriPosSplits | kernel/wait.h:53-72 | the new task goes behind every task of at least its priority and before all others |
| TaskState.MacrosExact | kernel/task.h:97-127 | every TSTAT macro decides exactly what its comment says, for every task state; the wait-factor macros without a prior test for waiting |
| TaskState.SuspendBits | kernel/task_sync.c:432-436 | setting and clearing the suspension bit turns the code of a wait into that of the same wait, suspended or not |
| TaskState.DlyNeedsWaiting | kernel/task.h:115-121 | the time wait cannot be told by its factor alone |
| HeapNodes.AheadExact | kernel/time_event.c:58-65 | 32-bit comparison relative to min_time is comparison of the unbounded times |
| HeapNodes.ComparedRightInWindow | kernel/time_event.c:58-65 | a time less than 2^32 ahead of min_time is compared correctly with every other such time; a time outside this window is compared wrongly with one that is in it |
| HeapNodes.RootIsEarliest | kernel/time_event.c:385-386 | the root of the heap is an earliest event |
| TimeEventHeap.Heap.TmevtUp | kernel/time_event.c:124-151 | the empty node ends where the event may be inserted; every moved block knows its new position; no event is lost |
| TimeEventHeap.Heap.TmevtDown | kernel/time_event.c:164-201 | the same downwards, following the earlier child |
| TimeEventHeap.Heap.Insert | kernel/time_event.c:213-229 | the set of (block, time, callback) grows by exactly the one named; order and back pointers hold; there is always a node left |
| TimeEventHeap.Heap.Delete | kernel/time_event.c:238-287 | any registered block can be removed, wherever its node is; exactly it disappears, whichever of the two paths is taken |
| TimeEventHeap.Heap.DeleteTop | kernel/time_event.c:294-320 | exactly the block at the root disappears |
| TimeEventHeap.Heap.TopIsDue | kernel/time_event.c:385-385 | the loop test is true iff some registered event is due |
| TimeEventHeap.Heap.Enqueue | kernel/time_event.h:157-165 | an event of a relative time is registered at base_time plus that time, in unbounded time |
| TimeEventHeap.Heap.LeftTim | kernel/time_event.c:327-342 | the 32-bit remaining time |
| TimeEventHeap.Heap.Tick | kernel/time_event.c:364-378 | the 32-bit clock variables follow the unbounded clock through any number of wrap-arounds |
| TimeEventHeap.Heap.EndTick | kernel/time_event.c:391-394 | moving min_time keeps the heap in order |
| TimeEventHeap.NodesCounted | kernel/time_event.h:126-131 | last_index is the number of registered events |
| SystemClock.AdvanceInv | kernel/time_event.c:364-378 | TIC_DENO * next_time + next_subtime == (ticks + 1) * TIC_NUME after every tick: no drift |
| SystemClock.ClockBounds | kernel/time_event.c:72-99 | order of the times of the clock; next_time is at most two ticks ahead of min_time |
| SystemClock.BaseRoundsUp | kernel/time_event.h:113-123 | base_time is the end of the current tick interval rounded up to a millisecond |
| SystemClock.TimeoutBounds | kernel/time_event.h:157-165 | a request for rel ms ends after more than rel and less than rel + 1 ms + two ticks of true time |
| KernelState.Kernel.MakeNonWait | kernel/wait.h:106-127 | a waiting task becomes runnable, or suspended if it was both; the dispatch request is exact |
| KernelState.Kernel.MakeWait | kernel/wait.c:55-69 | the running task leaves the ready queue, its wait-information block gets the timer or NULL, and the timer is registered iff one is asked for |
| KernelState.Kernel.WobjQueueInsert | kernel/wait.c:151-160 | the task is queued at the object in the order of its attribute |
| KernelState.Kernel.Sleep | kernel/wait.c:179-187 | the statements by which a blocking call ends make up the one transition Block |
| KernelState.Kernel.WaitComplete | kernel/wait.c:78-84 | timer removed before the code overwrites it, E_OK recorded, task resumed |
| KernelState.Kernel.WaitTmout | kernel/wait.c:93-107 | ends the wait with E_TMOUT, also out of an object's queue, and asks for a dispatch exactly if needed |
| KernelState.Kernel.WaitTmoutOk | kernel/wait.c:112-125 | ends a delay with E_OK |
| KernelState.Kernel.WaitRelease | kernel/wait.c:134-141 | out of its queue and out of the event heap with E_RLWAI |
| KernelState.Kernel.InitWaitQueue | kernel/wait.c:196-211 | the loop wakes all waiting tasks in queue order with E_DLT and reports whether a dispatch is needed |
| KernelState.Kernel.SetPriority | kernel/task.c:347-390 | change_priority as a whole, for tasks in any state; the request is exact |
| KernelState.Kernel.WobjChangePriority | kernel/wait.h:270-277 | a waiting task is queued again by its new priority; the scheduled task does not change |
| KernelState.Kernel.MakeDormant | kernel/task.c:304-313 | the control block is that of a task never started, but for its queued activation |
| KernelState.Kernel.MakeActive | kernel/task.c:322-329 | the task enters the ready queue of its priority; the request is exact |
| KernelState.Kernel.constructor | kernel/task.c:107-125 | all structures start empty and in agreement |
| KernelState.EventsFit | kernel/kernel.tf:1032-1032 | there are never more events registered than tasks, cyclic and alarm handlers together, for which the array of the heap is laid out |
| WaitQueues.InitWaitQueueOk | kernel/wait.c:189-211 | afterwards the queue is empty, every task that was in it returns with E_DLT, and no other control block has changed |
| WaitCodes.CodeReachesTask | kernel/task.h:158-167 | over any run: a wait ends once, with the one code of the step that ended it, and that code, and the datum, flag pattern or block that the step handed over, is what the task finds when it resumes |
| WaitCodes.DataStay | kernel/dataqueue.h:97-101 | over any run: while a task waits, the datum, pattern or condition in its wait-information block stays as it is |
| WaitCodes.StepCodes | kernel/task.h:158-167 | every step treats every wait-information block as the union demands: timer while waiting, code afterwards; the data change only when a wait ends or begins; only a task that runs, not interrupted, starts a wait |
| StepFrames.ForeignQueue | kernel/wait.h:135-141 | a wait queue changes only by calls on its object, by rel_wai, ter_tsk or a timeout of one of its tasks, which takes exactly that task out, and, under TA_TPRI, by chg_pri, which keeps its tasks; the others keep their order and their data |
| StepFrames.CallFrame | kernel/time_event.h:157-188 | a service call takes back only events of tasks that it wakes or ends, or of the handler that it stops or restarts; the processor changes hands only while dispatching is allowed |
| TaskManage.ActTsk | kernel/task_manage.c:124-193 | state change, queued activation and error codes of act_tsk and iact_tsk |
| TaskManage.CanAct | kernel/task_manage.c:202-221 | clears and reports the queued activation |
| TaskManage.ExtTsk | kernel/task_manage.c:230-278 | leaves every dispatch-disabling state, ends the task, starts it again if an activation is queued, dispatches |
| TaskManage.TerTsk | kernel/task_manage.c:287-330 | ends a task in any state: out of its queue, out of the event heap; restarts it if an activation is queued |
| TaskManage.ChgPri | kernel/task_manage.c:339-369 | change of the base priority, TPRI_INI included |
| TaskSync.SlpTsk | kernel/task_sync.c:140-206 | slp_tsk and tslp_tsk |
| TaskSync.WupTsk | kernel/task_sync.c:215-290 | wup_tsk and iwup_tsk |
| TaskSync.CanWup | kernel/task_sync.c:299-323 | clears and reports the queued wakeup |
| TaskSync.RelWai | kernel/task_sync.c:332-393 | rel_wai and irel_wai |
| TaskSync.SusTsk | kernel/task_sync.c:402-447 | suspension in every state, the double wait included |
| TaskSync.RsmTsk | kernel/task_sync.c:456-495 | resumption, from the double wait too |
| TaskSync.DlyTsk | kernel/task_sync.c:504-529 | the delay of the running task |
| SysManage.RotRdq | kernel/sys_manage.c:179-228 | rot_rdq and irot_rdq |
| SysManage.DisDsp | kernel/sys_manage.c:395-412 | dispatching disabled |
| SysManage.EnaDsp | kernel/sys_manage.c:421-443 | a postponed dispatch is made up for, unless the interrupt mask still forbids it |
| SysManage.ChgIpm | kernel/interrupt.c:194-227 | the same for the interrupt priority mask |
| SysManage.IntExit | arch/efr32xg23_gcc/prc_support.S:383-490 | the outermost handler's exit acts on the requests left to it |
| CallLaws.ResumeUndoesSuspend | kernel/task_sync.c:402-495 | rsm_tsk after sus_tsk restores the whole state of a waiting task |
| CallLaws.CancelUndoesActivate | kernel/task_manage.c:124-221 | one activation is queued, a second one refused; can_act reports it and restores the state |
| CallLaws.CancelUndoesWakeup | kernel/task_sync.c:215-323 | one wakeup is queued, a second one refused; can_wup reports it and restores the state |
| CallLaws.EarlyWakeupKept | kernel/task_sync.c:140-248 | a wakeup before the sleep is not lost: the sleep returns at once |
| CallLaws.EnableUndoesDisable | kernel/sys_manage.c:395-443 | ena_dsp after dis_dsp restores the state |
| CallLaws.TerminateUndoesActivate | kernel/task_manage.c:124-330 | act_tsk makes the task runnable; unless it got the processor, ter_tsk restores the whole state |
| CallLaws.OthersKeepOrder | kernel/task.c:237-390 | whatever is done with a task, the others keep their control blocks and their order in every queue |
| CallLaws.RotationGoesRound | kernel/task.c:393-417 | n rotations bring the n-th task to the head, as many as there are tasks restore the order |
| TaskEffects.ActTskDoes | kernel/task_manage.c:124-193 | a dormant task becomes runnable, last of its priority; for another one the activation is queued, once, and a further one refused; the others keep their blocks and their order |
| TaskEffects.CanActDoes | kernel/task_manage.c:202-221 | returns 1 or 0 for a queued activation, and cancels it |
| TaskEffects.TerTskDoes | kernel/task_manage.c:287-330 | the task has its initial priority, no queued wakeup, no timer; if its activation was queued it is runnable, last of that priority, and nothing is queued any more; otherwise dormant |
| TaskEffects.ExtTskDoes | kernel/task_manage.c:230-278 | the same for the caller; dispatching is enabled and the scheduled task runs |
| TaskEffects.ChgPriDoes | kernel/task_manage.c:339-369 | the priority asked for, or the initial one for TPRI_INI; a runnable task is last of it; one that waits on a TA_TPRI object moves behind all of at least its new priority and before all others |
| TaskEffects.SlpTskDoes | kernel/task_sync.c:140-206 | a queued wakeup is taken; otherwise the caller sleeps, with a timer for exactly tmout if that is positive, none for TMO_FEVR |
| TaskEffects.WupTskDoes | kernel/task_sync.c:215-290 | a sleeping task wakes up with E_OK, its timer gone, suspended if it was; for another one the wakeup is queued, once |
| TaskEffects.CanWupDoes | kernel/task_sync.c:299-323 | returns 1 or 0 for a queued wakeup, and cancels it |
| TaskEffects.RelWaiDoes | kernel/task_sync.c:332-393 | any wait ends with E_RLWAI, its timer and its place in the queue gone; E_OBJ if the task does not wait |
| TaskEffects.SusTskDoes | kernel/task_sync.c:402-447 | a runnable task is suspended and out of the ready queue, a waiting one goes on waiting, a suspended one is refused |
| TaskEffects.RsmTskDoes | kernel/task_sync.c:456-495 | a suspended task is runnable, last of its priority; a waiting one goes on waiting |
| TaskEffects.DlyTskDoes | kernel/task_sync.c:504-529 | the timer of a delay is registered for exactly the time asked for, nothing else in the heap changes, and the task gives up the processor |
| TaskEffects.RotRdqDoes | kernel/sys_manage.c:179-228 | the ready queue of that priority, the caller's for TPRI_SELF, is rotated by one, and no other queue |
| TaskEffects.RotationYields | kernel/sys_manage.c:179-202 | with TPRI_SELF the next task of the caller's priority gets the processor |
| TaskEffects.SwitchesDo | kernel/sys_manage.c:395-443 | dis_dsp, ena_dsp and chg_ipm: disdsp, ipmflg and dspflg after each, and whether the scheduled task runs |
| TaskEffects.ExitUndoesEnter | arch/efr32xg23_gcc/prc_support.S:383-490 | an interrupt that asks for nothing leaves the state as it was |
| TaskEffects.IntExitDoes | arch/efr32xg23_gcc/prc_support.S:383-490 | the exit of the outermost handler clears reqflg, and the scheduled task runs if dispatching is allowed |
| TaskEffects.WrongContext | kernel/task_manage.c:124-369 | calls from the wrong context return E_CTX and change nothing |
| TaskEffects.QueuedActivationStarts | kernel/task_manage.c:124-330 | a task that is activated while it is active and then terminated starts once more, and only once |
| TaskEffects.ResumedGoesLast | kernel/task_sync.c:402-495 | suspending and resuming a runnable task puts it behind the others of its priority, and changes nothing else about it |
| TaskCallProofs.UnlinkKeepsTop | kernel/task.c:262-295 | removing a task that is not the scheduled one does not change the scheduled task |
| TaskCallProofs.TerTskDiscardsFalse | kernel/task_manage.c:304-311 | the dispatch request that ter_tsk ignores is always false |
| CoreProofs.FinishDispatches | kernel/task.h:262-280 | acting on an exact request misses no dispatch, in tasks and in handlers |
| TaskCallProofs.ActTskOk | kernel/task_manage.c:124-193 | keeps link safety, timer registration, clock and no missed dispatch |
| TaskCallProofs.ExtTskOk | kernel/task_manage.c:230-278 | keeps all invariants, from any dispatch-disabling state |
| TaskCallProofs.TerTskOk | kernel/task_manage.c:287-330 | keeps all invariants; no stack block of the ended task stays referenced |
| TaskCallProofs.ChgPriOk | kernel/task_manage.c:339-369 | keeps all invariants, sorted wait queues included |
| TaskCallProofs.SlpTskOk | kernel/task_sync.c:140-206 | keeps all invariants |
| TaskCallProofs.WupTskOk | kernel/task_sync.c:215-290 | keeps all invariants |
| TaskCallProofs.RelWaiOk | kernel/task_sync.c:332-393 | keeps all invariants |
| TaskCallProofs.SusTskOk | kernel/task_sync.c:402-447 | keeps all invariants, also when a task suspends itself |
| TaskCallProofs.RsmTskOk | kernel/task_sync.c:456-495 | keeps all invariants |
| TaskCallProofs.DlyTskOk | kernel/task_sync.c:504-529 | keeps all invariants |
| TaskCallProofs.RotRdqOk | kernel/sys_manage.c:179-228 | keeps all invariants |
| TaskCallProofs.DisDspOk | kernel/sys_manage.c:395-412 | keeps dspflg == (ipmflg and not disdsp) and the rest |
| TaskCallProofs.EnaDspOk | kernel/sys_manage.c:421-443 | no dispatch is missed when dispatching is allowed again |
| TaskCallProofs.ChgIpmOk | kernel/interrupt.c:194-227 | the same for the interrupt mask |
| TaskCallProofs.IntExitOk | arch/efr32xg23_gcc/prc_support.S:383-490 | no dispatch is missed at the exit of handlers, nested ones included |
| Handlers.StaCyc | kernel/cyclic.c:139-164 | (re)start of a cyclic handler in 32-bit time |
| Handlers.StpCyc | kernel/cyclic.c:173-195 | stop of a cyclic handler |
| Handlers.StaAlm | kernel/alarm.c:138-201 | (re)start of an alarm handler |
| Handlers.StpAlm | kernel/alarm.c:210-263 | stop of an alarm handler |
| TimeCallProofs.StaCycOk | kernel/cyclic.c:139-164 | the block of a handler is in the heap iff it is started; all invariants are kept |
| TimeCallProofs.StaAlmOk | kernel/alarm.c:138-201 | the block of an alarm is in the heap iff almsta; all invariants are kept |
| TimeCallProofs.FireOk | kernel/time_event.c:385-389 | a callback of an earliest due event keeps all invariants; the log of the tick grows by it, in time order |
| TimeCallProofs.TickBeginOk | kernel/time_event.c:361-378 | every queued time stays within the 32-bit window when the clock advances |
| TimeCallProofs.TickEndOk | kernel/time_event.c:391-394 | and when min_time moves |
| TimeCallProofs.CyclicNoDrift | kernel/cyclic.c:238-266 | between ticks a started handler has run exactly once per elapsed period, for periods shorter and longer than a tick |
| TimeCallProofs.NeverEarlyBoundedlyLate | kernel/time_event.c:351-397 | an event registered with the relative time r fires after more than r ms and less than r + 1 ms + two ticks of true time; TimedRuns says which r the calls register |
| TimeCallProofs.NotLateYet | kernel/time_event.c:351-397 | one that is still queued between ticks has waited less than r + 1 ms + one tick |
| TimeCallProofs.LeftTimExact | kernel/time_event.c:327-342 | the remaining time is max(0, time - base_time) and fits RELTIM |
| TimeCallProofs.LeftTimZeroExact | kernel/time_event.c:327-342 | it is 0 for every event that the next tick processes; and for these only, iff the event does not lie at base_time with next_subtime > 0 |
| TimedRuns.WaitAsks | kernel/wait.c:55-72 | whichever of the calls with a timeout makes its caller wait: the timer is registered for base_time + tmout, nothing else in the heap changes, and with TMO_FEVR nothing at all |
| TimedRuns.TimeoutTakes | kernel/wait.c:55-107 | over any run: who finds E_TMOUT has waited more than the tmout of its call, and less than tmout + 1 ms + two ticks; nothing but its own timer ends a wait with E_TMOUT |
| TimedRuns.TimedWaitEnds | kernel/wait.c:55-107 | as long as such a wait goes on, between ticks, less than tmout + 1 ms + one tick have passed |
| TimedRuns.ForeverHasNoTimer | kernel/wait.c:55-72 | over any run: a wait with TMO_FEVR has no timer and does not time out |
| TimedRuns.DelayTakes | kernel/task_sync.c:504-529 | over any run: a delay that is not ended from outside takes more than dlytim, and less than dlytim + 1 ms + two ticks |
| TimedRuns.StaAlmDoes | kernel/alarm.c:138-201 | the alarm is registered for base_time + almtim, whether it was started before or not; nothing else in the heap changes |
| TimedRuns.StpAlmDoes | kernel/alarm.c:210-263 | the alarm is not started any more and out of the heap |
| TimedRuns.AlarmTakes | kernel/alarm.c:138-201 | over any run: unless it is stopped or started anew, the handler is called more than almtim after the call, and less than almtim + 1 ms + two ticks |
| TimedRuns.AlarmGoesOff | kernel/alarm.c:138-201 | as long as it has not been called, between ticks, less than almtim + 1 ms + one tick have passed |
| TimedRuns.StaCycDoes | kernel/cyclic.c:139-164 | the handler is registered for base_time + cycphs, whether it was started before or not |
| TimedRuns.StpCycDoes | kernel/cyclic.c:173-195 | the handler is not started any more and out of the heap |
| TimedRuns.CyclicCalls | kernel/cyclic.c:139-266 | over any run from sta_cyc on: the number of calls of the handler, between ticks, is that of the times base_time + cycphs, and every cyctim after that, which have come |
| TimedRuns.StoppedIsNotCalled | kernel/alarm.c:210-263 | over any run: a cyclic or alarm handler that was stopped is not called until it is started again |
| RemainingTime.ZeroButLater | kernel/time_event.c:327-342 | whenever next_subtime > 0, an alarm of 0 ms started then has the remaining time 0 and is not processed by the next tick |
| RemainingTime.ThirdTick | kernel/time_event.c:351-397 | a kernel in which the third tick after that processes it |
| SignalTime.CallBack | kernel/time_event.c:385-389 | one round of the loop on the kernel's variables is the callback of an earliest due event, for all four kinds of callback |
| WholeTick.SignalTime | kernel/time_event.c:351-397 | terminates whatever handlers and interrupts do meanwhile, calls on any object included; what happened is a run of the state machine from the beginning to the end of a tick, and an exact one (TickRuns.TickExact) |
| SignalTime.TmevtLefttim | kernel/time_event.c:327-342 | exact for every registered event in every reachable state, in spite of 32-bit arithmetic |
| SignalTime.Perform | kernel/task_manage.c:124-369 | every service call on the kernel's variables is the corresponding step of the state machine |
| DrainProofs.FireReduces | kernel/cyclic.c:241-250 | every callback reduces the sum of overdue times, although cyclic handlers register themselves again |
| DrainProofs.CallsAddNoWork | kernel/time_event.h:119-165 | no service call adds to that sum |
| DrainProofs.WorkLeft | kernel/time_event.c:385-389 | as long as the sum is positive a callback can be made, and when it is zero the tick can end |
| SystemProofs.DrainTerminates | kernel/time_event.c:385-389 | over any interleaving the number of callbacks of a tick is bounded by the sum at its beginning |
| TickRuns.TickExact | kernel/time_event.c:385-389 | over any run of one tick, whatever calls and interrupts come between: what fires was queued when the tick began and is due, at its own time, or is a repetition of a cyclic handler; no block fires twice, but for cyclic handlers at later and later times; what was queued and is due has fired, what is not due stays, unless a service call took it back; nothing due is left |
| TickRuns.EventFate | kernel/time_event.c:385-389 | an event queued at any moment of a tick is later in it still queued, or has fired at its time, or was taken back by a call that ended the wait or stopped or restarted that handler |
| TickRuns.CyclicRepeats | kernel/cyclic.c:238-250 | a cyclic handler that was called is called again in the same tick if its next time is due as well, unless it is stopped or restarted before |
| SemaphoreCB.SEMCB.SigSem | kernel/semaphore.c:149-222 | sig_sem and isig_sem on the control block and the kernel's variables |
| SemaphoreCB.SEMCB.WaiSem | kernel/semaphore.c:231-335 | wai_sem, pol_sem and twai_sem |
| SemaphoreCB.SEMCB.IniSem | kernel/semaphore.c:344-368 | ini_sem |
| Semaphore.SigSemOk | kernel/semaphore.c:149-222 | initial count + signals - acquisitions == semcnt <= maxsem, and nobody waits while semcnt > 0 |
| Semaphore.WaiSemOk | kernel/semaphore.c:231-335 | the same for acquisitions and waits |
| Semaphore.IniSemOk | kernel/semaphore.c:344-368 | the same after reinitialisation |
| Semaphore.SemRely | kernel/semaphore.c:149-335 | timeouts, forced release and termination of waiting tasks do not disturb it |
| ObjectEffects.SigSemDoes | kernel/semaphore.c:149-222 | the first waiting task wakes up with E_OK; without one the count goes up by one, and E_QOVR at the maximum |
| ObjectEffects.WaiSemDoes | kernel/semaphore.c:231-335 | E_OK takes one off the count; otherwise the caller waits in the queue, at its end or by its priority, with a timer for exactly its tmout; one rule (Outcome) for the code of all calls that may wait |
| ObjectEffects.IniSemDoes | kernel/semaphore.c:344-368 | the initial count again, every waiting task returns with E_DLT, no other is touched |
| ObjectEffects.ReadyInQueueOrder | kernel/wait.c:196-211 | the tasks woken become ready in the order of their queue |
| ObjectRuns.AttributesStay | kernel/semaphore.h:57-98 | no step changes a maximum, an initial value, a capacity, an attribute or the area of a pool |
| SemaphoreRuns.StepConserves | kernel/semaphore.c:149-335 | in every step of every call, interrupt or tick: the count after plus a resource acquired equals the count before plus a resource returned; no other step touches it |
| SemaphoreRuns.RunConserves | kernel/semaphore.c:149-335 | over any run without reinitialisation: count at the start + successful signals == acquisitions + count now, within 0..maxsem, and nobody waits while it is positive, through timeouts, forced releases and terminations |
| EventFlagCB.FLGCB.CheckFlgCond | kernel/eventflag.c:157-169 | the condition, the pattern reported, and the clearing under TA_CLR |
| EventFlagCB.FLGCB.Scan | kernel/eventflag.c:194-210 | the in-place scan, which unlinks while it walks and stops early under TA_CLR, does what a scan over a copy of the queue does |
| EventFlagCB.FLGCB.SetFlg | kernel/eventflag.c:178-267 | set_flg and iset_flg |
| EventFlagCB.FLGCB.WaiFlg | kernel/eventflag.c:304-433 | wai_flg, pol_flg and twai_flg |
| EventFlagCB.FLGCB.ClrFlg | kernel/eventflag.c:276-295 | clr_flg |
| EventFlagCB.FLGCB.IniFlg | kernel/eventflag.c:442-466 | ini_flg |
| EventFlag.SetFlgReleases | kernel/eventflag.c:178-220 | exactly the released tasks leave the queue, with E_OK and the pattern that released them; a release clears the flag under TA_CLR; FlagBits says which pattern that is |
| EventFlag.ReleasedAll | kernel/eventflag.c:194-210 | without TA_CLR: exactly those whose condition holds |
| EventFlag.ReleasedFirst | kernel/eventflag.c:206-208 | with TA_CLR: the first of them, if any |
| EventFlag.SetFlgOk | kernel/eventflag.c:178-220 | no waiting task is left whose condition holds |
| EventFlag.ClrFlgOk | kernel/eventflag.c:276-295 | clearing bits satisfies nobody |
| EventFlag.WaiFlgOk | kernel/eventflag.c:304-433 | who is let through has a satisfied condition, who waits has not |
| FlagBits.CondIsSatisfied | kernel/eventflag.c:157-169 | bit by bit: with TWF_ORW one of the bits waited for is set, with TWF_ANDW all of them |
| FlagBits.OrIsUnion | kernel/eventflag.c:194-194 | the new pattern has exactly the bits set before and those of setptn |
| FlagBits.SetFlgDoes | kernel/eventflag.c:178-267 | no bit set before is lost; exactly the waiting tasks that the pattern satisfies, or the first of them under TA_CLR, get E_OK and this pattern; the flag keeps it, unless one was released under TA_CLR |
| FlagBits.ClrFlgDoes | kernel/eventflag.c:276-295 | exactly the bits remain that are set in the flag and in clrptn |
| FlagBits.SetThenPoll | kernel/eventflag.c:178-380 | if set_flg released nobody, pol_flg for the bits set succeeds, in both modes, and reports the bits set before as well |
| FlagBits.ClearThenPoll | kernel/eventflag.c:276-380 | after clr_flg, pol_flg for bits that were cleared fails, and is answered as before for bits that were not |
| ObjectEffects.WaiFlgDoes | kernel/eventflag.c:304-433 | the codes, E_ILUSE for a second waiter without TA_WMUL included; who passes gets the pattern, which TA_CLR clears; who waits does so with a timer for exactly its tmout |
| ObjectEffects.IniFlgDoes | kernel/eventflag.c:442-466 | the initial pattern again, and every waiting task returns with E_DLT |
| ObjectEffects.SetFlgInOrder | kernel/eventflag.c:194-210 | the tasks released become ready in the order of the queue |
| ObjectRuns.RunsKeepOne | kernel/eventflag.c:304-433 | over any run: without TA_WMUL never more than one task waits |
| DataQueueCB.DataBuffer.EnqueueData | kernel/dataqueue.c:184-193 | the ring buffer appends |
| DataQueueCB.DataBuffer.ForceEnqueueData | kernel/dataqueue.c:202-216 | the ring buffer appends, losing the oldest datum iff it is full |
| DataQueueCB.DataBuffer.DequeueData | kernel/dataqueue.c:225-234 | the ring buffer gives its oldest datum |
| DataQueueCB.DTQCB.SendData | kernel/dataqueue.c:243-262 | to the first receiver, else into the buffer, else not |
| DataQueueCB.DTQCB.ForceSendData | kernel/dataqueue.c:271-285 | to the first receiver, else into the buffer by force |
| DataQueueCB.DTQCB.ReceiveData | kernel/dataqueue.c:294-322 | from the buffer, which the first sender refills, or from the first sender |
| DataQueueCB.DTQCB.SndDtq | kernel/dataqueue.c:331-482 | the four sending calls |
| DataQueueCB.DTQCB.FsndDtq | kernel/dataqueue.c:491-544 | the two forced sending calls |
| DataQueueCB.DTQCB.RcvDtq | kernel/dataqueue.c:553-677 | the three receiving calls |
| DataQueueCB.DTQCB.IniDtq | kernel/dataqueue.c:686-715 | ini_dtq |
| DataQueue.ReceiveTakesFirst | kernel/dataqueue.c:294-322 | buffer and waiting senders are one FIFO: receiving takes its first element and leaves the rest in order, fails iff it is empty |
| DataQueue.SendAppends | kernel/dataqueue.c:243-262 | sending appends to it, or hands the datum to the longest waiting receiver; it fails only if the buffer is full |
| DataQueue.WaitingSenderAppends | kernel/dataqueue.c:331-363 | a sender that waits adds its datum at the end, or, under TA_TPRI, by its priority among the waiting ones |
| DataQueue.ForcedSendDropsOldest | kernel/dataqueue.c:271-285 | forced sending drops exactly the oldest buffered datum iff the buffer is full; the datum goes ahead of those of waiting senders |
| DataQueueRuns.StepFlows | kernel/dataqueue.c:184-322 | every step of every call, interrupt and timeout balances: data there + sent == data there + delivered + dropped + withdrawn, as multisets; on a queue without TA_TPRI their order is kept, unless the step is a forced sending that is accepted past waiting senders |
| DataQueueRuns.RunConserves | kernel/dataqueue.c:184-322 | the same over any run: no datum is lost or comes twice, whatever timeouts, releases, terminations and reinitialisations there are |
| DataQueueRuns.RunInOrder | kernel/dataqueue.c:184-322 | over runs without such steps, on a queue without TA_TPRI: what was delivered, followed by what is there, is what was there followed by what was sent, less some of the data |
| DataQueueRuns.RunIsFifo | kernel/dataqueue.c:184-322 | over any run in which nothing was dropped or withdrawn, on a queue without TA_TPRI: delivered, followed by what is there, is exactly what was there followed by what was sent |
| DataQueueRuns.WithdrawnIsTold | kernel/dataqueue.c:331-363 | a datum is withdrawn only when the wait of its sender is ended from outside, and the sender gets E_RLWAI or E_TMOUT, or is terminated |
| DataQueueRuns.DeliveredIsFound | kernel/dataqueue.c:243-262 | a datum handed to a waiting receiver is what it finds, with E_OK, when it resumes |
| ObjectEffects.SndDtqDoes | kernel/dataqueue.c:331-482 | handed to the first receiver, buffered, or the caller waits with its datum and a timer for exactly its tmout, at the end of the queue or by its priority |
| ObjectEffects.FsndDtqDoes | kernel/dataqueue.c:491-544 | E_ILUSE without a buffer; otherwise always accepted, the oldest datum making room |
| ObjectEffects.RcvDtqDoes | kernel/dataqueue.c:553-677 | the first sender wakes up with E_OK; a receiver that waits does so with a timer for exactly its tmout |
| ObjectEffects.IniDtqDoes | kernel/dataqueue.c:686-715 | the buffer is empty, all senders and receivers return with E_DLT |
| DataQueueOrder.StepOrderExact | kernel/dataqueue.c:271-285 | without TA_TPRI a step keeps the order iff it is not a forced sending that is accepted past waiting senders (of a datum that can be told from those there) |
| DataQueueOrder.ForcedOvertakes | kernel/dataqueue.c:271-285 | from every state in which two tasks can run and a queue for one datum is empty: a run in which 1, 2, 3 are sent in this order and 3 is delivered before 2 |
| DataQueueOrder.ForcedOvertakesFromStart | kernel/dataqueue.c:271-285 | such a run from the first dispatch of a kernel |
| DataQueue.SndDtqOk | kernel/dataqueue.c:331-482 | receivers wait only if the queue is empty, senders only if the buffer is full, for capacity 0 too |
| DataQueue.RcvDtqOk | kernel/dataqueue.c:553-677 | the same for receiving |
| DataQueue.FsndDtqOk | kernel/dataqueue.c:491-544 | the same for forced sending |
| PriDataBuffers.PriDataBuffer.EnqueuePridata | kernel/pridataq.c:170-198 | the linked list is the stable sort of the buffered messages by priority; list and free list partition the nodes below unused |
| PriDataBuffers.PriDataBuffer.DequeuePridata | kernel/pridataq.c:207-221 | gives the earliest message of the best priority; its node is free afterwards |
| PriDataBuffers.PriDataBuffer.TakeNode | kernel/pridataq.c:176-183 | a node of the free list, or else one never used; there is one whenever count < pdqcnt |
| PriDataQueue.HeadIsBest | kernel/pridataq.c:187-193 | the head of the sorted list is the earliest message of the best priority, and the rest is the stable sort of the others |
| PriDataQueueCB.PDQCB.SendPridata | kernel/pridataq.c:230-250 | to the first receiver, else into the buffer, else not |
| PriDataQueueCB.PDQCB.ReceivePridata | kernel/pridataq.c:259-291 | the best message; the first sender refills the buffer |
| PriDataQueueCB.PDQCB.SndPdq | kernel/pridataq.c:300-457 | the four sending calls |
| PriDataQueueCB.PDQCB.RcvPdq | kernel/pridataq.c:466-592 | the three receiving calls |
| PriDataQueueCB.PDQCB.IniPdq | kernel/pridataq.c:601-631 | ini_pdq |
| PriDataQueue.SndPdqOk | kernel/pridataq.c:300-457 | receivers wait only if nothing is buffered, senders only if the buffer is full |
| PriDataQueue.RcvPdqOk | kernel/pridataq.c:466-592 | the same for receiving |
| ObjectEffects.SndPdqDoes | kernel/pridataq.c:300-457 | as for data queues; E_PAR for a priority outside 1 to maxdpri |
| ObjectEffects.RcvPdqDoes | kernel/pridataq.c:466-592 | the earliest of the messages of the best priority in the buffer, the others staying in their order; the first sender wakes up and fills the buffer up |
| ObjectEffects.IniPdqDoes | kernel/pridataq.c:601-631 | the buffer is empty, all senders and receivers return with E_DLT |
| PriDataQueueRuns.StepFlows | kernel/pridataq.c:170-291 | for every priority, in every step of every call, interrupt and timeout: messages there + sent == messages there + delivered + dropped + withdrawn, and without TA_TPRI those of one priority keep their order |
| PriDataQueueRuns.RunFlows | kernel/pridataq.c:170-291 | the same over any run: no message is lost or comes twice, and those of one priority come out in the order in which they went in, past the buffer, its sorting and the waiting senders |
| PriDataQueueRuns.RunIsFifo | kernel/pridataq.c:170-291 | if none of a priority was dropped or withdrawn, the messages of this priority form a FIFO queue |
| MemoryPoolCB.MPFCB.GetMpfBlock | kernel/mempfix.c:150-167 | free list and marks in the index array, the count of free blocks, the address handed out |
| MemoryPoolCB.MPFCB.CheckBlock | kernel/mempfix.c:308-315 | the parameter checks of rel_mpf decide whether the address is that of a block in use |
| MemoryPoolCB.MPFCB.GetMpf | kernel/mempfix.c:176-286 | get_mpf, pget_mpf and tget_mpf |
| MemoryPoolCB.MPFCB.RelMpf | kernel/mempfix.c:295-335 | rel_mpf |
| MemoryPoolCB.MPFCB.IniMpf | kernel/mempfix.c:344-370 | ini_mpf |
| MemoryPool.GetBlockExclusive | kernel/mempfix.c:150-167 | the block handed out belonged to nobody, the others keep their owners, one free block less is counted |
| MemoryPool.ValidBlockExact | kernel/mempfix.c:308-315 | an address is accepted iff it is that of a block in use |
| MemoryPool.ReleaseFrees | kernel/mempfix.c:327-331 | a returned block is free and cannot be returned again; all others stay in use |
| MemoryPool.HandOver | kernel/mempfix.c:318-325 | a block passed to a waiting task stays in use |
| MemoryPool.FreeBlocksFit | kernel/mempfix.c:85-91 | as many blocks as are counted free can be had: fblkcnt == blkcnt - unused + free list |
| MemoryPool.GetMpfOk | kernel/mempfix.c:176-286 | nobody waits while a block is free |
| MemoryPool.RelMpfOk | kernel/mempfix.c:295-335 | the same for returning |
| ObjectEffects.GetMpfDoes | kernel/mempfix.c:176-286 | a task gets a block at once iff one of the blkcnt blocks is not in use, and its address is that of such a block; otherwise it waits, with a timer for exactly its tmout |
| ObjectEffects.RelMpfDoes | kernel/mempfix.c:295-335 | the block goes to the first waiting task, which wakes up with its address, or is free |
| ObjectEffects.IniMpfDoes | kernel/mempfix.c:344-370 | all blocks are free, all waiting tasks return with E_DLT |
| ObjectEffects.BlocksApart | kernel/mempfix.c:150-167 | blocks do not overlap and lie within the pool |
| MemoryPoolRuns.StepOwner | kernel/mempfix.c:150-370 | in every step of the system the owner of a block changes only through the calls that give it to a task, give it back or initialise the pool again, and as they say |
| MemoryPoolRuns.GivenIsFree | kernel/mempfix.c:150-335 | a block is given to a task only if nobody has it, or by the call that gives it back; only a block that somebody has is given back |
| MemoryPoolRuns.RunKeepsOwner | kernel/mempfix.c:150-335 | over any run a task keeps its block, and nobody else gets it, until it is given back or the pool is initialised again |
| MemoryPoolRuns.GivenOnce | kernel/mempfix.c:150-335 | over any run, from the results of the calls alone: between two calls that give the same block it was given back, or the pool initialised again |
| MemoryPoolRuns.ReturnedOnce | kernel/mempfix.c:295-335 | and between two calls that give it back it was given to a task |
| MemoryPoolRuns.GivenIsFound | kernel/mempfix.c:318-325 | a waiting task that gets a block finds E_OK and its address when it resumes |
| SystemProofs.StepKeepsInv | kernel/wait.c:55-211 | every call, callback, interrupt and tick keeps link safety, timers, no missed dispatch and the invariants of all objects |
| SystemProofs.RunsKeepInv | kernel/wait.c:55-211 | so do all runs |
| SystemProofs.TickAlwaysProgresses | kernel/time_event.c:385-389 | a tick in progress can make a callback or end |
| SystemProofs.CallsAlwaysPossible | kernel/wait.c:55-211 | in every state that satisfies the invariants every call on existing tasks and objects finds what it needs; interrupts may come, handlers return and ticks begin whenever none of them is in progress that forbids it |
| Startup.InitCoreInv | kernel/startup.c:83-112 | the state of the first dispatch satisfies the invariants |
| Startup.ReachableStatesAreSafe | kernel/startup.c:83-112 | every reachable state does |
| StartState.StartsWith | kernel/startup.c:83-112 | the tasks with TA_ACT are runnable, in the order of their creation within each priority, the others dormant; the handlers with TA_STA, and no others, are registered for cycphs; the first task of the highest priority runs |
| StartState.ObjectsStartWith | kernel/semaphore.c:128-140 | initial counts and patterns, empty buffers, free blocks, as configured |
| KernelStartup.InitializeTask | kernel/task.c:127-134 | the loop activates the tasks with TA_ACT in the order given |
| KernelStartup.InitializeCyclic | kernel/cyclic.c:113-130 | the loop starts the handlers with TA_STA |
| KernelStartup.StartKernel | kernel/startup.c:83-112 | the kernel's variables at the first dispatch stand for the initial state |
| WholeKernel.Whole.DoSem | kernel/semaphore.c:149-368 | a call on any of the semaphores is a step of the whole system: no other object and no foreign queue is touched |
| WholeKernel.Whole.DoFlg | kernel/eventflag.c:178-466 | the same for event flags |
| WholeKernel.Whole.DoDtq | kernel/dataqueue.c:331-715 | the same for data queues |
| WholeKernel.Whole.DoPdq | kernel/pridataq.c:300-631 | the same for priority data queues |
| WholeKernel.Whole.DoMpf | kernel/mempfix.c:176-370 | the same for memory pools |
| WholeKernel.Whole.DoTask | kernel/task_sync.c:140-529 | the same for calls that name no object |
| WholeKernel.Whole.Do | kernel/task_sync.c:140-529 | any service call on any object is a step of the whole system |
| WholeStart.InitializeSemaphore | kernel/semaphore.c:128-140 | the loop makes a control block for every semaphore, with its initial count |
| WholeStart.InitializeDataqueue | kernel/dataqueue.c:160-175 | the same for data queues, whose buffers are not shared |
| WholeStart.StartWhole | kernel/startup.c:83-112 | the system can start: kernel and control blocks of any configuration stand for the initial state, and all invariants hold |
| SerialPort.SPCB.SerialWriChr | syssvc/serial.c:428-449 | straight to the device or into the ring buffer; reports a full buffer |
| SerialPort.SPCB.SerialReaChr | syssvc/serial.c:511-533 | the oldest received character; starts the other side again; reports an empty buffer |
| SerialPort.SPCB.SioIrdySnd | syssvc/serial.c:658-691 | flow control first, then the oldest character; isig_sem exactly when the buffer stops being full |
| SerialPort.SPCB.SioIrdyRcv | syssvc/serial.c:696-764 | flow control in both directions; isig_sem exactly when the send buffer stops being full or the receive buffer being empty |
| SerialPort.IrdySndOk | syssvc/serial.c:658-691 | accepted == sent + buffered is kept |
| SerialPort.IrdyRcvOk | syssvc/serial.c:696-764 | stored == taken + buffered is kept; no buffer overflows |
| SerialFlow.StepFlow | syssvc/serial.c:519-764 | a step keeps the other side told what rcv_stopped says, iff no flow control character overtakes one that still waits for the device |
| SerialFlow.RunFlow | syssvc/serial.c:519-764 | over any run: as long as none overtakes, the other side is told; at the first that does, it is not |
| SerialFlow.StopOvertakesStart | syssvc/serial.c:519-529 | a run from the opening of the port at whose end STOP went out after START, so that the other side stays stopped although the driver waits for data |
| SerialFlow.RunMarks | syssvc/serial.c:519-764 | over any run without a change of options, for buffers of three characters and more: the other side is stopped only while the buffer is more than half full, and not stopped only while it is less than three quarters full |
| SerialFlow.StopReceived | syssvc/serial.c:704-731 | a STOP stops the driver, a START lets it go on, and neither is taken for data |
| SerialFlow.RunHolds | syssvc/serial.c:658-764 | over any run: a stopped driver sends no data until a character lets it go on |
| SerialFlow.WriChrSends | syssvc/serial.c:428-449 | straight to a device that is ready if nothing waits and the driver is not stopped, else behind what waits |
| SerialFlow.IrdySends | syssvc/serial.c:658-691 | a driver that is not stopped gives its oldest character to the device when that is ready |
| SerialData.WriterSends | syssvc/serial.c:410-501 | over any run: what a task inside serial_wri_dat has sent and what it has yet to send are its buffer, with a CR before each LF if asked for |
| SerialData.WriterSendsAll | syssvc/serial.c:461-501 | when it returns without having been released, it has sent all of it |
| SerialData.ReaderGets | syssvc/serial.c:543-598 | a task inside serial_rea_dat has got as many characters as it asked for, less those it still wants; all of them when it returns without having been released |
| SerialProtocol.StepKeepsProto | syssvc/serial.c:410-598 | semaphore + holders + (1 if the buffer is full, empty) == 1 for both directions at every interleaving, forced release included; no signal fails |
| SerialProtocol.RunsKeepProto | syssvc/serial.c:410-764 | over all runs; with it the order of characters and the absence of overflow |
| SerialProtocol.InitOk | syssvc/serial.cfg:12-28 | the protocol holds at the start with the semaphores as configured |
| SerialProtocol.OneHolder | syssvc/serial.c:461-501 | at most one task writes, at most one reads |
| SerialProtocol.HolderWritesAlone | syssvc/serial.c:461-501 | while a task holds the send semaphore no other adds a character |
| SerialProtocol.NotStuck | syssvc/serial.c:410-598 | a task that is not blocked finds room, or a character |
| SerialProtocol.WaitsForSomebody | syssvc/serial.c:461-598 | a task waits only while exactly one other holds the resource or the buffer keeps it |
| SerialLines.LfFollows | syssvc/serial.c:413-427 | over any run: if the CR goes straight to the device or leaves room in the buffer, the next character is the LF of the same task |
| SerialLines.CrFitsExact | syssvc/serial.c:413-427 | and this holds in all runs from there only if the CR does so |
| SerialLines.CrAlone | syssvc/serial.c:423-427 | whenever the CR fills the buffer, it may remain without its LF: the task waits again and is released |
| SerialLines.CrSplit | syssvc/serial.c:423-427 | a run in which the character of another task comes between CR and LF |
| SerialOnKernel.SignalSim | kernel/semaphore.c:149-222 | sig_sem on the kernel's semaphore and queue is the signal of the protocol, the head of the queue being the task that is woken |
| SerialOnKernel.AskSim | kernel/semaphore.c:231-259 | wai_sem is the step of the protocol that takes the resource or waits |
| SerialOnKernel.OtherSim | kernel/task_sync.c:332-393 | everything else the kernel does leaves the protocol alone, or releases a waiting task, which returns with an error |
| SerialOnKernel.StepSimulates | syssvc/serial.c:410-764 | every step of tasks, interrupts and kernel together is the step of the protocol that it stands for -- the same task, arguments and character -- and only steps of the kernel and the return from a wait may be invisible there |
| SerialOnKernel.RunsAreSafe | syssvc/serial.c:410-764 | over all runs of kernel and driver: semcnt + holders + (1 if the buffer is full, empty) == 1 for the kernel's own semaphores, no signal fails, no character is lost |
| SerialDataOnKernel.WriterSends | syssvc/serial.c:410-501 | over any run of kernel and driver: what a task has sent since it called serial_wri_dat, and what it has yet to send, are its buffer, with a CR before each LF if the port is set so |
| SerialDataOnKernel.WriterSendsAll | syssvc/serial.c:461-501 | when it is about to return it has sent all of it |
| SerialOnKernel.StartsTied | syssvc/serial.c:275-309 | the system starts so when the port has been opened |
| SerialOnKernel.SignalledIsSignal | syssvc/serial.c:678-746 | the signal that the callbacks on the port's control block give is the one of this system |

## Left out

- Task exception routines (enatex, texptn, call_texrtn): they run unseen user code on return from the kernel.
- loc_cpu, unl_cpu and their twins, and CPU exception handlers: every step is a locked section as a whole.
- Checks for identifiers out of range (E_ID) and the CPU-locked forms of E_CTX; the ref_ calls except the remaining time; get_ and sns_ calls.
- Mailboxes: their list and wait rule are those of the priority data queue.
- Time management calls, system log, banner, overrun: no bearing on the properties.
- The dcre and messagebuf extensions.
- Serial driver: opening and closing, serial_get_chr, serial_ref_por, echo, and tasks that are terminated while they hold a semaphore.
- Assembly code: contexts, stacks, register access; only the order of flags and dispatch at the exit of handlers is modelled.
- MemoryPoolCB.MPFCB.RelMpf: the checks before the lock and the release after it are one step, although in the source a preemption may come between them.
- TaskScheduler.Scheduler.ChangeReadyPriority: the new priority is assigned after the task has left its old queue, not before; nothing reads it in between.
- SerialProtocol.StepKeepsProto: the woken task may be any of the waiting ones, not only the head of the queue, so that the order of waiting writers is not part of the claim.
- TickRuns.TickExact: in the runs it speaks of interrupts may also come between the start of a tick and its first callback, where the source has none; WholeTick.SignalTime is as the source.
