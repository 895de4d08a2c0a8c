# Signals, thread groups, the DMA ring and the load average

This project models four parts of the kernel tree and proves properties of them.

**Pending-signal queues** (`Signals`, `SigQueue`, `Drain`, `Conservation`,
`Records`, `SigWords`). A queue is a bitmap of pending signals and an ordered list
of siginfo records. The two may disagree in one direction only: every record's
signal is in the bitmap. The project proves what each operation means under that
invariant, that dequeuing to exhaustion is a stable sort, that deliveries never
exceed sends, that real-time signals are first in, first out, how long records live
and how far the user's charge can exceed the limit, and that the word-level scans
compute the set-level meaning for any number of words.

**Thread groups** (`GroupState`, `GroupMeaning`, `GroupRun`, `GroupOutcomes`, `GroupStop`, `GroupRace`,
`GroupKill`, `GroupReports`, `GroupWakeups`, `GroupPrivate`, `GroupQueues`, `GroupLedger`,
`GroupRecords`, `GroupOps`). A group is a ring of any
number of threads with a shared queue, a handler table, the `SIGNAL_*` flags and the
group-stop count. A run is an arbitrary interleaving of siglock critical sections.
Inductive invariants over whole runs give group-stop accounting, the permanence of
group exit, the outcome of the stop/continue race, the mutual exclusion of SIGCONT and
stop signals, at most one report per stop, that no shared and no private signal is
lost, that SIGKILL cannot be missed, that a fatal signal is final, and that a
stop leaves its signal as the exit code. `GroupMeaning` says on the fields of the group
what each section does: which signals are dropped, merged, refused, queued or fatal, what
becomes of the handler table, the masks and the exit code, and what does not change. Two simulations carry the results about single queues over
to group runs: every step acts on each queue of the group as a sequence of queue
operations, and on the pool of records as a sequence of pool events, so conservation,
order, record lifetime and the limit hold for groups.

**The DMA ring** (`DmaRing`). A circular buffer of any size N >= 2 between one
submitter, the completion interrupt and a device that holds one transfer. The ring
refines a plain queue for exactly the runs in which a woken submitter does not find
the ring empty when it takes the lock again; the run in which it does is exhibited,
and the ring is shown never to recover from it.

**CALC_LOAD** (`LoadAverage`). Bounds, convergence and absence of 32-bit overflow.

## How to read the model

* A siglock critical section is one atomic step. `GroupState` gives each as a function
  on values, and the theorems are about the functions. Class `GroupOps.ThreadGroup`
  carries the sections out with the code's own loops on an array of threads, and each of
  its methods is proved equal to its function; the turns of the delivery loop, which
  spans several sections, exist as functions only. In `ThreadGroup` a queue is a value;
  the walks over its list are those of `SigQueue.SigPending`, proved equal to the same
  functions. `Records.Account`, `SigWords.SmunchTarget` and `DmaRing.Kyouko` are the other
  mutable objects.
* The points of `get_signal_to_deliver` are program points of a thread: `Relock`, `Loop`,
  `Dispatch` between the dequeue and the action (the lock can be dropped there for a
  timer, `signal.c:656-667`), `Orphan` for the window of `signal.c:2282-2291`, and `Fatal`
  on the way to `do_group_exit`. The delivery loop is thereby cut more finely than the
  code cuts it, so every interleaving of the modelled sections is a run.
* `exit_signals` tests for a group exit before it takes the lock (`signal.c:2373`), so
  the model lets its locked path run under a group exit too.
* Which thread occupies a processor (`task_curr`) is an arbitrary set `onCpu` of each
  step; whether memory can be allocated is an arbitrary boolean, or the outcome `slot`.
* The signal number of a caller's siginfo is the number being sent. `si_code` is a whole
  number; `SI_USER` and `SI_KERNEL` have their usual values, and `SI_TIMER` is the value
  used inside the kernel, which carries `__SI_TIMER` in its upper half and is not
  negative (`signal.c:657`, `signal.c:2580-2600`). Which records were allocated past the
  limit is kept with the pool, as `__send_signal` decided it at the allocation.
* Signal numbers are those of x86, and the `sig_kernel_*` masks and the `sigset` and list
  helpers, which come from headers that are not part of this model, have their usual
  meaning.
* A signal without an entry in the handler table is at SIG_DFL.
* The group theorems are about groups that are untraced, killable, and have SIGKILL
  unblocked.
* Words are natural numbers; and, or, and-not, shift and truncation are defined bit by bit
  and related to sets by lemmas. Words of `bpw` bits hold no bit above `bpw`.
* The DMA device is the register pair last written: `Idle`, or `Busy(slot, count)`. In the
  FIFO theorem a transfer is the pair of slot number and byte count.

## Where the code does not do what one would expect

* A submitter that was woken because the ring was full queues its request without looking
  again (`dmaBuffer.c:212-220`). If the ring has emptied in the meantime, the request sits
  in the ring while the device is idle. `DmaRing.InvariantIffTimely` says that this is
  exactly what breaks the ring, `RaceIsReachable` gives such a run for every size, and
  `StallIsPermanent` shows that no later step gets the device going again.
* The short form of `rm_from_queue` clears the bits of real-time signals under its mask but
  leaves their records (`signal.c:736-743`). `SigQueue.ShortRemovalCoherence` says exactly
  when that matters, and `ShortRemovalLeavesRealTime` gives a queue and a mask; all callers
  pass masks below SIGRTMIN.
* CALC_LOAD need not reach n. `LoadAverage.ReachedFromBelowIff`: from a load that is at most
  n, n is reached if and only if the load is n already or exp is 0 (for any load,
  `ReachedIff`). Otherwise `SettlesFromBelow` gives the gap that is left: the first gap or
  (FIXED_1 - 1) / (FIXED_1 - exp), whichever is smaller, which is 12 for EXP_1.
* The limit on pending signals is tested on a counter that includes the charges of other
  allocations that are still to be decided or given back (`signal.c:363-378`).
  `Records.RecordLifetime`: the counter is the number of objects if and only if no charge is
  in flight. `CounterCanPassTheBound` gives a run in which it passes the bound that the
  objects keep; `LimitBound` says by how much it can.

## Model

| member | source | states |
|---|---|---|
| Signals.NextSignal | linuxKerDev/syscallSignals/signal.c:164-208 | of the ready signals the result is the one that precedes all others: synchronous ones first, then ascending; 0 iff none is ready |
| Signals.NextIsUnique | linuxKerDev/syscallSignals/signal.c:158-177 | the service order determines the next signal, so any two implementations that meet it agree |
| SigQueue.FullRemovalIsDiscard | linuxKerDev/syscallSignals/signal.c:705-722 | removal with its early exit equals the plain filter if and only if no record of the mask is queued without its bit; a coherent queue always qualifies and stays coherent |
| SigQueue.ShortRemovalCoherence | linuxKerDev/syscallSignals/signal.c:729-745 | the one-word removal keeps a coherent queue coherent if and only if no real-time record lies under its mask, and is the plain filter for legacy masks |
| SigQueue.ShortRemovalLeavesRealTime | linuxKerDev/syscallSignals/signal.c:736-743 | one real-time record whose signal is in the mask: the bit goes, the record stays, the queue is no longer coherent |
| SigQueue.CollectMeaning | linuxKerDev/syscallSignals/signal.c:538-573 | collecting hands out the oldest record of the signal, or blank information if there is none; all other signals keep their records, order and bits; the bit stays iff a record remains; coherence is kept |
| SigQueue.Dequeue | linuxKerDev/syscallSignals/signal.c:575-594 | without a notifier the dequeued signal is the next one outside the mask, and nothing changes if there is none |
| SigQueue.FirstAndSecond | linuxKerDev/syscallSignals/signal.c:546-552 | what the walk knows when it stops: where the first record is, and that a second was seen iff there is more than one |
| SigQueue.FlushTimersMeaning | linuxKerDev/syscallSignals/signal.c:427-448 | after the timer flush a bit is left iff it was set and either a non-timer record backs it or no timer record did; coherence is kept |
| SigQueue.KeptApart | linuxKerDev/syscallSignals/signal.c:435-445 | what the timer flush keeps of a list is what it keeps of its parts, in order |
| SigQueue.SigPending.CollectSignal | linuxKerDev/syscallSignals/signal.c:538-573 | the single walk that stops at the second record leaves the queue, the information and the unlinked record that the specification gives |
| SigQueue.SigPending.RemoveFull | linuxKerDev/syscallSignals/signal.c:705-722 | deleting while walking leaves the filtered queue, returns whether a bit of the mask was set, and unlinks exactly the records under the mask in order |
| SigQueue.SigPending.RemoveShort | linuxKerDev/syscallSignals/signal.c:729-745 | the same for the one-word form, which unlinks only records below SIGRTMIN |
| SigQueue.SigPending.FlushItimerSignals | linuxKerDev/syscallSignals/signal.c:427-448 | the walk that drops and retains bits record by record leaves the flushed queue and unlinks exactly the timer records |
| Drain.DequeueWorks | linuxKerDev/syscallSignals/signal.c:575-594 | every dequeue that finds a signal takes exactly one unit off the sum of the loads of the unmasked signals |
| Drain.LoadIsMaximum | linuxKerDev/syscallSignals/signal.c:538-573 | in a coherent queue the load of a signal is the larger of its record count and its pending bit |
| Drain.DrainTerminatesAfterItsWork | linuxKerDev/syscallSignals/signal.c:575-594 | repeated dequeuing under a fixed mask ends after exactly the sum of the loads of the unmasked signals |
| Drain.DrainIsSorted | linuxKerDev/syscallSignals/signal.c:164-208 | the signals come out synchronous first, then in ascending order |
| Drain.DrainIsStable | linuxKerDev/syscallSignals/signal.c:538-594 | within each signal the information comes out in list order, complete and without duplicates; masked signals do not come out |
| Drain.DrainLeavesTheMasked | linuxKerDev/syscallSignals/signal.c:538-594 | what is left: the masked signals with their bits and records as they were, and nothing of any signal that came out |
| Conservation.ApplyBalanced | linuxKerDev/syscallSignals/signal.c:1014-1109 | one operation on a queue of any kind keeps coherence and keeps deliveries plus what is held within the accepted sends, for every signal but SIGKILL |
| Conservation.DeliveriesNeverExceedSends | linuxKerDev/syscallSignals/signal.c:538-573 | over any run of sends, dequeues, removals, flushes and direct bit writes, the queue stays coherent, and for every signal but SIGKILL deliveries plus the larger of records and bit never exceed the accepted sends |
| Conservation.ApplyInOrder | linuxKerDev/syscallSignals/signal.c:1063-1100 | one operation keeps "sent is delivered followed by queued, in order" for a real-time signal that always gets a record and is not removed |
| Conservation.RealTimeSignalsAreFifo | linuxKerDev/syscallSignals/signal.c:1039-1109 | a real-time signal whose sends all got records and that is never flushed arrives completely and in send order: dequeues plus queued records equal sends |
| Records.StepKeepsPoolInv | linuxKerDev/syscallSignals/signal.c:352-406 | charging, giving back, allocating, sending, timer sends of any si_code, dequeuing, removal and flushing, in any interleaving, keep the invariant of links, charges, overriding records and limit |
| Records.RecordLifetime | linuxKerDev/syscallSignals/signal.c:1515-1588 | in every run, other allocations in between or not, sigpending is the number of live objects plus the charges in flight, so it is the number of objects iff none is in flight; each object is preallocated or on exactly one list, never on two, none is freed twice, and a freed one is on no list |
| Records.LimitBound | linuxKerDev/syscallSignals/signal.c:352-378 | in every run with limit L and Q queues, timers sent into them or not, there are at most L + 31 * Q live objects, and sigpending exceeds that by at most the charges in flight |
| Records.CounterCanPassTheBound | linuxKerDev/syscallSignals/signal.c:363-378 | for any limit and any empty queues there is a run of charges alone that carries sigpending past L + 31 * Q |
| Records.RecordGranted | linuxKerDev/syscallSignals/signal.c:1039-1100 | with memory, a legacy signal from the kernel, without siginfo or with a code that is not negative gets a record whatever the counter unless it is pending; any other gets one iff the counter is within the limit; what becomes of list, bit, counter and marks |
| Records.TimerGranted | linuxKerDev/syscallSignals/signal.c:1515-1523 | a timer gets its object iff there is memory and the counter is within the limit |
| Records.TimerSent | linuxKerDev/syscallSignals/signal.c:1568-1582 | a timer's object goes to the tail unless it is on a list, and then nothing changes |
| Records.SendRecordKeeps | linuxKerDev/syscallSignals/signal.c:1057-1068 | a fresh record that overrides the limit is legacy and the only one of its signal in its queue, any other is within the limit; the invariant is kept |
| Records.ReleaseMeaning | linuxKerDev/syscallSignals/signal.c:1525-1548 | after sigqueue_free the object is live exactly while it is on a list, and freed exactly if it was on none |
| Records.OversAreLegacy | linuxKerDev/syscallSignals/signal.c:1057-1060 | if only legacy records were allocated with override_rlimit, counting them signal by signal over the 31 legacy signals counts them all |
| Records.Account.ChargeCounter | linuxKerDev/syscallSignals/signal.c:361-365 | the counter goes up by one charge in flight and stays the objects plus the charges in flight |
| Records.Account.SettleCharge | linuxKerDev/syscallSignals/signal.c:367-385 | on whatever the counter is by then: allocated iff it is within the limit or the limit is overridden, and memory is there; otherwise the charge is given back; the counter stays the objects plus the charges in flight |
| Records.Account.SigqueueAllocRaw | linuxKerDev/syscallSignals/signal.c:352-385 | the two halves with nothing in between: a failure changes nothing |
| Records.Account.SigqueueFreeRaw | linuxKerDev/syscallSignals/signal.c:387-394 | a preallocated object is left alone, any other is freed and its charge given back; the counter stays the number of live objects |
| Records.Account.FlushSigqueue | linuxKerDev/syscallSignals/signal.c:396-406 | unlinking and freeing head by head leaves what freeing the whole list at once leaves, and keeps the pool invariant |
| Records.Account.SigqueueAlloc | linuxKerDev/syscallSignals/signal.c:1515-1523 | a timer's object is charged within the limit and marked preallocated; the pool invariant is kept |
| Records.Account.SigqueueFree | linuxKerDev/syscallSignals/signal.c:1525-1548 | a queued object only loses its mark and lives on, any other is freed at once; the pool invariant is kept |
| SigWords.ReadyIsDifference | linuxKerDev/syscallSignals/signal.c:102-118 | wordwise and-not of two arrays denotes the difference of their sets, for any number of words |
| SigWords.NextSignalWords | linuxKerDev/syscallSignals/signal.c:164-208 | for every number of words the unrolled cases and the loop return the next signal of the set difference |
| SigWords.HasPendingWords | linuxKerDev/syscallSignals/signal.c:97-121 | for every number of words the unrolled cases and the loop tell whether the set difference is non-empty |
| SigWords.SmunchWritesAgree | linuxKerDev/syscallSignals/systemCall/deepSmunch/driverCode/smunch.c:51-56 | the one-word and the two-word write both denote union with the same 64-signal pattern |
| SigWords.SmunchTarget.Smunch | linuxKerDev/syscallSignals/systemCall/deepSmunch/driverCode/smunch.c:8-61 | 0 or -1, which signals are added, whether the task is released, woken and flagged, in all cases of look-up, lock, group, zombie state and pattern; the SIGKILL branch adds SIGKILL alone and does not set TIF_SIGPENDING |
| GroupState.PickFindsWillingThread | linuxKerDev/syscallSignals/signal.c:938-973 | the choice of a thread for a group signal fails if and only if no thread wants the signal |
| GroupState.Scan | linuxKerDev/syscallSignals/signal.c:961-972 | the cyclic scan returns a thread that wants the signal, or -1 if none from the current position on does |
| GroupState.TakeMeaning | linuxKerDev/syscallSignals/signal.c:602-655 | dequeuing serves the private queue first and then leaves the shared one alone; TIF_SIGPENDING afterwards says exactly whether anything is left to do; a stop signal, and nothing else, leaves the marker; no other thread changes |
| GroupMeaning.TakeInfo | linuxKerDev/syscallSignals/signal.c:538-573 | the information is that of the oldest record of the signal in the queue taken from, or blank; the other records and signals of that queue stay |
| GroupMeaning.IgnoredMeaning | linuxKerDev/syscallSignals/signal.c:74-91 | a signal blocked now or before a timed wait is never ignored; any other is ignored iff its entry is SIG_IGN, or SIG_DFL and the default is to ignore |
| GroupMeaning.PrepareStop | linuxKerDev/syscallSignals/signal.c:863-871 | a stop signal removes SIGCONT, bit and record, from every queue and changes nothing else |
| GroupMeaning.PrepareContinue | linuxKerDev/syscallSignals/signal.c:872-911 | SIGCONT removes the stop signals from every queue, resumes every stopped thread and cancels every stop; flags, count and exit code in each of the three cases |
| GroupMeaning.UnwillingMeaning | linuxKerDev/syscallSignals/signal.c:925-936 | a thread is passed over iff it blocks the signal or is exiting or, but for SIGKILL, is stopped or already has signals to look at and is not on a processor |
| GroupMeaning.ScanIsFirst | linuxKerDev/syscallSignals/signal.c:961-972 | the scan takes the first willing thread of the ring from the current target on |
| GroupMeaning.PickMeaning | linuxKerDev/syscallSignals/signal.c:949-973 | the addressed thread has the first choice, a private signal and a lone thread leave no other, and a group signal finds somebody iff somebody is willing |
| GroupMeaning.CompleteMeaning | linuxKerDev/syscallSignals/signal.c:938-1012 | an unhandled signal that terminates without a core dump and is not in the chosen thread's saved mask takes a living group down: exit flag alone, exit code, SIGKILL and wake-up for every thread; any other wakes the chosen thread and changes nothing else |
| GroupMeaning.GroupExitIff | linuxKerDev/syscallSignals/signal.c:979-1003 | the group exit starts iff a thread is chosen, the entry is absent or SIG_DFL, the default is neither to ignore nor to stop nor to dump core, and the thread did not block the signal before a timed wait |
| GroupMeaning.SendToMeaning | linuxKerDev/syscallSignals/signal.c:1039-1100 | merged iff legacy and pending; refused iff real-time, not from kill, with siginfo and without a record; otherwise the bit is set and the record, with the sender's information, is at the tail |
| GroupMeaning.SendMeaning | linuxKerDev/syscallSignals/signal.c:1019-1109 | an ignored, merged or refused signal leaves no more than what prepare_signal did; any other is in its queue with its record at the tail |
| GroupMeaning.SendOutcome | linuxKerDev/syscallSignals/signal.c:1030-1100 | a refused signal changes nothing at all; one neither ignored nor refused is in its queue afterwards |
| GroupMeaning.SendExits | linuxKerDev/syscallSignals/signal.c:979-1003 | sending starts a group exit only for an unhandled signal that terminates without a core dump and that was not merged or refused, and leaves it as the exit code |
| GroupMeaning.BlockedIsQueued | linuxKerDev/syscallSignals/signal.c:76-82 | a blocked signal is in its queue after it was sent, unless it was refused |
| GroupMeaning.SendSigqueueMeaning | linuxKerDev/syscallSignals/signal.c:1550-1583 | the object goes to the tail of its queue unless the signal is ignored or the object is queued |
| GroupMeaning.ForceBaseMeaning | linuxKerDev/syscallSignals/signal.c:1205-1215 | the signal is unblocked in the thread; its entry becomes SIG_DFL iff it was blocked or ignored; no other entry and no other thread changes |
| GroupMeaning.ForceMeaning | linuxKerDev/syscallSignals/signal.c:1198-1222 | a forced signal that is not ignored by default and not refused is pending in the thread, with its record at the tail unless it was pending |
| GroupMeaning.SigactionMeaning | linuxKerDev/syscallSignals/signal.c:2899-2942 | the new action is in force and every other stays; an action that does not ignore the signal changes nothing besides |
| GroupMeaning.RetargetMeaning | linuxKerDev/syscallSignals/signal.c:2341-2366 | retargeting only wakes threads without TIF_SIGPENDING that are not exiting and can take something of what is retargeted |
| GroupMeaning.SetBlockedMeaning | linuxKerDev/syscallSignals/signal.c:2437-2447 | the mask becomes the one asked for, TIF_SIGPENDING says whether anything outside it is left to do, and the others are at most woken for a shared signal that was just blocked |
| GroupMeaning.EndTimedWaitMeaning | linuxKerDev/syscallSignals/signal.c:2694-2696 | the saved mask is back, none is saved any more, and TIF_SIGPENDING fits |
| GroupMeaning.DeliverMeaning | linuxKerDev/syscallSignals/signal.c:2229-2329 | by the entry of the handler table: a handler runs and, iff it is one-shot, is replaced by SIG_DFL; ignored signals go back to the loop; stop signals but SIGSTOP to the window; SIGSTOP stops; anything else is fatal; no other entry changes |
| GroupMeaning.LoopTakeMeaning | linuxKerDev/syscallSignals/signal.c:2222-2225 | a turn ends in user space iff nothing is ready, and else goes on with the signal that comes next |
| GroupMeaning.EnterLoopMeaning | linuxKerDev/syscallSignals/signal.c:2178-2206 | a report that is due is taken and the lock tried again; otherwise the loop is entered |
| GroupMeaning.InitStopMeaning | linuxKerDev/syscallSignals/signal.c:2008-2031 | every thread that can stop is told to, with the signal, and the others of them are woken; the count is their number; the exit code is the signal unless the group was stopped already |
| GroupMeaning.ParticipateMeaning | linuxKerDev/syscallSignals/signal.c:321-345 | taking part clears the stop bits and uses up one mark; the last one leaves SIGNAL_STOP_STOPPED alone |
| GroupMeaning.SignalStopMeaning | linuxKerDev/syscallSignals/signal.c:1974-2065 | the thread stops iff a stop is pending or it holds the marker in a group that is not exiting; then it will resume at relock, and the exit code is the signal if it started the stop |
| GroupMeaning.ExitMeaning | linuxKerDev/syscallSignals/signal.c:2378-2395 | the thread is exiting, joins the stop it had to join, and the others are at most woken for what it could have taken |
| GroupOutcomes.FatalIsFinal | linuxKerDev/syscallSignals/signal.c:2305-2329 | in every run a thread that acted on an unhandled signal whose default is neither to ignore nor to stop never gets back to user space or to the loop |
| GroupOutcomes.StopCodeLasts | linuxKerDev/syscallSignals/signal.c:2008-2009 | in every run, from the start of a group stop on and as long as no SIGCONT overtakes it and the group does not exit, the stop is active and the exit code is its signal |
| GroupOutcomes.OvertakenCode | linuxKerDev/syscallSignals/signal.c:902-911 | a SIGCONT that overtakes a stop ends it and leaves the exit code 0 |
| GroupStop.StepKeepsStopInv | linuxKerDev/syscallSignals/signal.c:1974-2065 | every step of the state machine keeps the group-stop invariant |
| GroupStop.StopIsEngaged | linuxKerDev/syscallSignals/signal.c:1979-2031 | a stop that is not cancelled has every other thread marked, stopped or exiting when current takes part in it, and a positive count |
| GroupStop.GroupStopAccounting | linuxKerDev/syscallSignals/signal.c:1974-2065 | in every run the count equals the threads with STOP_CONSUME, which implies STOP_PENDING; while a stop is active every thread is marked, stopped or exiting; at STOP_STOPPED all non-exiting threads are stopped; no thread is stopped without an active stop |
| GroupStop.WarningsUnreachable | linuxKerDev/syscallSignals/signal.c:326-334 | in every run a participating thread has STOP_PENDING and STOP_CONSUME and the count is positive, so neither warning fires |
| GroupStop.GroupExitIsPermanent | linuxKerDev/syscallSignals/signal.c:993-1002 | once SIGNAL_GROUP_EXIT is set it is the only flag for ever, the count stays 0, and nobody is stopped or marked to stop |
| GroupStop.GroupExitStays | linuxKerDev/syscallSignals/signal.c:2178-2186 | no single step clears SIGNAL_GROUP_EXIT, whatever flags it overwrites |
| GroupRace.StepGrowth | linuxKerDev/syscallSignals/signal.c:2153-2335 | a step that generates no signal makes no signal pending anywhere and keeps a quiet group quiet |
| GroupRace.GeneratingStep | linuxKerDev/syscallSignals/signal.c:854-915 | generating a signal adds at most it and SIGKILL; SIGCONT leaves no stop signal, no dequeued marker and no stopped thread; a stop signal leaves no SIGCONT |
| GroupRace.ContinueBeatsStop | linuxKerDev/syscallSignals/signal.c:2271-2303 | from SIGCONT until another stop signal is generated no thread is or becomes stopped, even one that had dequeued a stop signal and dropped the lock |
| GroupRace.StopAndContinueExclusive | linuxKerDev/syscallSignals/signal.c:859-886 | in no reachable state of a group that is not exiting is SIGCONT pending in one queue and a stop signal in any |
| GroupKill.KillLands | linuxKerDev/syscallSignals/signal.c:938-1003 | queueing SIGKILL for a living group takes it down and dooms every thread if a non-exiting thread is within reach, and otherwise changes nothing but the queue |
| GroupKill.StepKeepsKillInv | linuxKerDev/syscallSignals/signal.c:1014-1017 | every step keeps it true that in a living group a shared pending SIGKILL means that every thread is exiting |
| GroupKill.KillCannotBeMissed | linuxKerDev/syscallSignals/signal.c:925-1046 | sent in any reachable state of a living group, from any source and with or without a record, SIGKILL takes the group down if and only if it can reach a non-exiting thread; then every thread has SIGKILL and TIF_SIGPENDING set and is not stopped nor in an interruptible or killable sleep |
| GroupReports.OwnFlags | linuxKerDev/syscallSignals/signal.c:321-345 | which steps other than generation change the stop count and the flags, and how |
| GroupReports.ObserveKeeps | linuxKerDev/syscallSignals/signal.c:888-911 | every step keeps what the flags promise about reports still to come |
| GroupReports.OneReportPerStop | linuxKerDev/syscallSignals/signal.c:2178-2206 | in every run each initiated stop is reported as CLD_STOPPED at most once, by the last participant or by an overtaking SIGCONT, and as CLD_CONTINUED at most once and only if reported as stopped, in the order of the stops |
| GroupWakeups.RetargetFinds | linuxKerDev/syscallSignals/signal.c:2341-2366 | if another thread can take a retargeted signal, some other thread that can take it ends up with TIF_SIGPENDING set |
| GroupWakeups.QueueAwake | linuxKerDev/syscallSignals/signal.c:938-1012 | adding a signal to a queue and completing it keeps every takable shared signal attended |
| GroupWakeups.StepKeepsWakeInv | linuxKerDev/syscallSignals/signal.c:2437-2447 | every step of the state machine keeps every takable shared signal attended |
| GroupWakeups.NoLostSharedSignal | linuxKerDev/syscallSignals/signal.c:2341-2396 | in every run, if a shared pending signal is unblocked by a non-exiting thread, some such thread has TIF_SIGPENDING set and is not in an interruptible sleep, or is stopped, or is on its way back through get_signal_to_deliver |
| GroupPrivate.CompleteSeen | linuxKerDev/syscallSignals/signal.c:938-1012 | after complete_signal every thread, the one that was sent a private signal included, is exiting, attends, or blocks what its own queue holds |
| GroupPrivate.StepKeepsSeen | linuxKerDev/syscallSignals/signal.c:125-156 | every step of the state machine keeps that |
| GroupPrivate.NoLostPrivateSignal | linuxKerDev/syscallSignals/signal.c:925-1012 | in every run, group exit or not, a non-exiting thread that leaves a signal of its own queue unblocked has TIF_SIGPENDING set and is not in an interruptible sleep, or is stopped, or is on its way back through get_signal_to_deliver |
| GroupQueues.QueuesStayCoherent | linuxKerDev/syscallSignals/signal.c:705-745 | in every run every record's signal is in the bitmap of its queue, for all private queues and the shared one |
| GroupQueues.IgnoringDiscardsEverywhere | linuxKerDev/syscallSignals/signal.c:2917-2937 | in every reachable state, setting an action that ignores a signal removes its bit and its records from every queue of the group, blocked or not, and changes nothing else |
| GroupLedger.StepIsOps | linuxKerDev/syscallSignals/signal.c:575-1109 | every step of the group does to each of its queues exactly what a sequence of queue operations does, and accepts and delivers exactly what they do |
| GroupLedger.GroupDeliveriesNeverExceedSends | linuxKerDev/syscallSignals/signal.c:538-573 | in every run, for every queue of the group and every signal but SIGKILL, what threads dequeued from the queue plus the larger of its records and bit never exceeds the sends accepted for it |
| GroupLedger.GroupRealTimeIsFifo | linuxKerDev/syscallSignals/signal.c:1039-1109 | in every run in which a real-time signal always gets a record and is never set to be ignored, for every queue what threads dequeued followed by what is queued is what was sent, in order |
| GroupRecords.TurnKeeps | linuxKerDev/syscallSignals/signal.c:1014-1109 | every step of a group, and the creation and deletion of timers, keeps the pool invariant, with the pool's queues those of the group |
| GroupRecords.GroupRecordsAreAccounted | linuxKerDev/syscallSignals/signal.c:352-378 | in every run of a group charged to a user with limit L, sigpending is the number of live objects plus the charges in flight, each object is preallocated or in exactly one queue of the group, none is freed twice, and there are at most L + 31 * (threads + 1) |
| GroupOps.ThreadGroup.RemoveFromAll | linuxKerDev/syscallSignals/signal.c:868-871 | the ring loop removes the mask from every thread's queue exactly once |
| GroupOps.ThreadGroup.ContinueThreads | linuxKerDev/syscallSignals/signal.c:878-886 | the ring loop clears the stop bits and stop signals of every thread and wakes the stopped ones |
| GroupOps.ThreadGroup.KillThreads | linuxKerDev/syscallSignals/signal.c:996-1001 | the ring loop marks every thread with SIGKILL, clears its stop bits and wakes it |
| GroupOps.ThreadGroup.DiscardFromAll | linuxKerDev/syscallSignals/signal.c:2933-2936 | the ring loop removes the signal from every thread's queue |
| GroupOps.ThreadGroup.PrepareSignal | linuxKerDev/syscallSignals/signal.c:854-915 | the new group state is the specified one, and the signal is to be delivered iff it is in one of the masks, or its entry neither is SIG_IGN nor is SIG_DFL with a default to ignore |
| GroupOps.ThreadGroup.FindTarget | linuxKerDev/syscallSignals/signal.c:943-973 | the scanning loop ends and returns the specified choice; the current target moves only if the scan chose |
| GroupOps.ThreadGroup.CompleteSignal | linuxKerDev/syscallSignals/signal.c:938-1012 | the new group state is the specified one: the group taken down iff the signal is fatal at once with the chosen thread, else at most that thread woken |
| GroupOps.ThreadGroup.SendSignal | linuxKerDev/syscallSignals/signal.c:1019-1109 | the new group state is the specified one; -EAGAIN iff the signal is not dropped, real-time, sent with siginfo by other means than kill, and has no record, and then nothing changes; a signal neither dropped nor refused is in its queue |
| GroupOps.ThreadGroup.SendPreallocated | linuxKerDev/syscallSignals/signal.c:1550-1588 | the new group state is the specified one; 1 iff the signal is in no mask and ignored by its entry, else 0, also when the object is already queued |
| GroupOps.ThreadGroup.ForceSigInfo | linuxKerDev/syscallSignals/signal.c:1198-1222 | the signal is unblocked, its entry is SIG_DFL iff it was blocked or ignored and unchanged otherwise, and unless refused or ignored by default it is pending in the thread |
| GroupOps.ThreadGroup.StartTimedWait | linuxKerDev/syscallSignals/signal.c:2687-2689 | the new state is the specified one: exactly what was blocked and is not waited for stays blocked, the old mask is saved, and TIF_SIGPENDING says whether anything is left to do |
| GroupOps.ThreadGroup.FinishTimedWait | linuxKerDev/syscallSignals/signal.c:2694-2696 | the saved mask is restored with retargeting and cleared, and TIF_SIGPENDING fits |
| GroupOps.ThreadGroup.SetJobctlPending | linuxKerDev/syscallSignals/signal.c:241-254 | the stop bits are set iff the thread has no fatal signal pending and is not exiting |
| GroupOps.ThreadGroup.InitiateStop | linuxKerDev/syscallSignals/signal.c:2008-2031 | the marking loop marks exactly the threads that can be marked and counts them; the exit code is the signal unless the group was stopped |
| GroupOps.ThreadGroup.ParticipateGroupStop | linuxKerDev/syscallSignals/signal.c:321-345 | the new state is the specified one; a report is due iff this participation completes the stop |
| GroupOps.ThreadGroup.DoSignalStop | linuxKerDev/syscallSignals/signal.c:1974-2065 | the thread stops iff a stop is pending or the marker is there and the group is not exiting; the new state is the specified one; the exit code is the signal if this starts a stop; a report is due iff it completes the stop |
| GroupOps.ThreadGroup.RetargetSharedPending | linuxKerDev/syscallSignals/signal.c:2341-2366 | the loop with its early exits wakes the threads that the specification wakes |
| GroupOps.ThreadGroup.SetTaskBlocked | linuxKerDev/syscallSignals/signal.c:2437-2447 | the mask is the one asked for, TIF_SIGPENDING says whether anything outside it is left to do, and the other threads are at most woken for a shared signal that was just blocked |
| GroupOps.ThreadGroup.ExitSignals | linuxKerDev/syscallSignals/signal.c:2378-2395 | the locked part of thread exit leaves the specified state; a report is due iff the thread had to stop and its exit completes the stop |
| GroupOps.ThreadGroup.DoSigaction | linuxKerDev/syscallSignals/signal.c:2899-2942 | SIGKILL and SIGSTOP are refused with -EINVAL and without change; otherwise the new action is in force, every other stays, and one that does not ignore the signal changes nothing besides |
| GroupOps.ThreadGroup.DequeueSignal | linuxKerDev/syscallSignals/signal.c:602-655 | the private queue is served before the shared one, TIF_SIGPENDING is recalculated, a stop signal leaves its marker, and the interval timer is armed iff it was or SIGALRM came from the shared queue and the timer is periodic |
| DmaRing.EnqueueWindow | linuxKerDev/graphicDriver/dmaBuffer/dmaBuffer.c:236-243 | queueing into a ring that is not full appends to the window and keeps the full flags exact |
| DmaRing.InterruptWindow | linuxKerDev/graphicDriver/dmaBuffer/dmaBuffer.c:160-191 | a completion removes the oldest transfer of the window, which is the one the device held, fills no slot and keeps the ring invariant |
| DmaRing.ResumeKeepsIffTimely | linuxKerDev/graphicDriver/dmaBuffer/dmaBuffer.c:212-220 | a woken submitter's request keeps the invariant if and only if the ring is not empty when it takes the lock |
| DmaRing.RingInvariantHolds | linuxKerDev/graphicDriver/dmaBuffer/dmaBuffer.c:145-247 | in every timely run, for every ring size, the full flags mark exactly the cyclic window from drain to fill, the device holds slot drain iff the window is not empty, and slot fill is free iff the ring is not full |
| DmaRing.InvariantIffTimely | linuxKerDev/graphicDriver/dmaBuffer/dmaBuffer.c:198-243 | a run satisfies the invariant throughout if and only if no woken submitter met an empty ring |
| DmaRing.RingIsFifo | linuxKerDev/graphicDriver/dmaBuffer/dmaBuffer.c:160-243 | in every timely run the programmed transfers are a prefix of the non-zero submissions in order, and the submissions are the completions followed by the window |
| DmaRing.LateResumeStalls | linuxKerDev/graphicDriver/dmaBuffer/dmaBuffer.c:212-220 | a woken submitter that meets an empty ring leaves its request before an idle device |
| DmaRing.StallIsPermanent | linuxKerDev/graphicDriver/dmaBuffer/dmaBuffer.c:198-243 | from such a state the device stays idle through any further run |
| DmaRing.SoundOrStalled | linuxKerDev/graphicDriver/dmaBuffer/dmaBuffer.c:145-247 | in every state of every run, timely or not, the ring meets its invariant if and only if it is not stalled |
| DmaRing.StalledSlotStaysFull | linuxKerDev/graphicDriver/dmaBuffer/driver.c:296-303 | in a stalled ring slot drain stays full through any further run, so the graphics-off loop never gets past it |
| DmaRing.RaceIsReachable | linuxKerDev/graphicDriver/dmaBuffer/dmaBuffer.c:198-243 | for every ring size from two on and every non-zero request there is a run that ends stalled |
| DmaRing.HandedBackBufferIsFree | linuxKerDev/graphicDriver/dmaBuffer/dmaBuffer.c:299-311 | the buffer that START_DMA hands back is free iff the ring is not full |
| DmaRing.Kyouko.constructor | linuxKerDev/graphicDriver/dmaBuffer/dmaBuffer.c:271-286 | binding leaves an empty ring of the given size |
| DmaRing.Kyouko.DmaInterrupt | linuxKerDev/graphicDriver/dmaBuffer/driver.c:170-219 | an interrupt without the flushed bit is not handled and changes nothing; with it the new state is the specified one |
| DmaRing.SubmitWindow | linuxKerDev/graphicDriver/dmaBuffer/dmaBuffer.c:198-243 | a request joins the end of the window unless the ring is full; the invariant is kept |
| DmaRing.Kyouko.InitiateTransfer | linuxKerDev/graphicDriver/dmaBuffer/driver.c:223-272 | the new state is the specified one; the caller sleeps iff the count is not zero and the ring was full; otherwise the request joins the end of the window, and the invariant is kept |
| DmaRing.Kyouko.ResumeTransfer | linuxKerDev/graphicDriver/dmaBuffer/driver.c:239-246 | the request goes into slot fill whatever the ring looks like; the invariant survives iff the ring was not empty |
| DmaRing.Kyouko.GraphicsOff | linuxKerDev/graphicDriver/dmaBuffer/driver.c:294-303 | with interrupts at any moment and no submitter the loop ends with every slot empty, fill equal to drain and the device idle, after exactly as many interrupts as transfers were pending |
| LoadAverage.NoOverflow | linuxKerDev/syscallSignals/sched.h:131-134 | for load and n below 2^21 the products and their sum stay below 2^32 |
| LoadAverage.CalcLoadInPlace | linuxKerDev/syscallSignals/sched.h:131-134 | the three in-place statements compute the average and stay within 32 bits, and the result is again below 2^21 |
| LoadAverage.StepStaysBetween | linuxKerDev/syscallSignals/sched.h:131-134 | one step stays between the old load and n; above n it moves; below n it stands still iff the gap d has d * (FIXED_1 - exp) < FIXED_1 |
| LoadAverage.IteratesStayBetween | linuxKerDev/syscallSignals/sched.h:131-134 | every iterate lies between the first load and n |
| LoadAverage.ReachesFromAbove | linuxKerDev/syscallSignals/sched.h:131-134 | from above n is reached exactly within load - n steps and kept |
| LoadAverage.SettlesFromBelow | linuxKerDev/syscallSignals/sched.h:131-134 | from below the load rises within n - load steps to exactly n minus the smaller of the first gap and (FIXED_1 - 1) / (FIXED_1 - exp), and stays there |
| LoadAverage.StaysShort | linuxKerDev/syscallSignals/sched.h:131-134 | from below n, with any weight on the old load, no iterate is n |
| LoadAverage.ReachedFromBelowIff | linuxKerDev/syscallSignals/sched.h:131-134 | from a load of at most n, n is reached if and only if the load is n or exp is 0 |
| LoadAverage.ReachedIff | linuxKerDev/syscallSignals/sched.h:131-134 | from any load, n is reached if and only if the load is n, or exp is 0, or the load is above n and exp is below FIXED_1 |
| LoadAverage.GapIsReal | linuxKerDev/syscallSignals/sched.h:124-134 | with EXP_1 one runnable task that starts from idle ends 12/2048 short |

## Left out

- ptrace: attaching, detaching, seized threads and trap stops; the group theorems are about untraced groups.
- SIGNAL_UNKILLABLE, `ignore_signals` and kernel-side blocking of SIGKILL break the assumptions of the group-stop theorem.
- `do_group_exit`, `do_coredump` and `zap_other_threads`, with `group_exit_task`: a thread that takes a fatal default action is left on its way there and only exits.
- The `block_all_signals` notifier: dequeuing is modelled without one.
- Thread creation and release: the ring of threads is fixed during a run; exiting threads stay in it.
- The freezer, and incrementing `si_overrun` when a timer's record is already queued.
- `flush_signals` on a thread group: flushing a queue is modelled for queues and records, not its clearing of TIF_SIGPENDING.
- The counters kept by `do_send_sig_info` and the system calls that set and read them.
- Permission checks, audit, namespaces, copying to and from user space, siginfo fields other than number, code and value, and RCU with the retry of `__lock_task_sighand`.
- Flushes of whole queues and of timer records, and smunch, are operations on queues and pools but not steps of a thread group.
- smunch in the thread-group theorems: it bypasses `prepare_signal` and its SIGKILL branch does not set TIF_SIGPENDING. In `Conservation` and `Records` its writes are operations on a queue.
- GroupState.TakeMeaning: says nothing of the interval timer, which is no part of the signal state; `GroupOps.ThreadGroup.DequeueSignal` covers its restart, but not the time to which it is forwarded.
- GroupOps.ThreadGroup.DequeueSignal: takes from the queues by the function `SigQueue.Dequeue`; the walk is `SigQueue.SigPending.CollectSignal`.
- GroupOps.ThreadGroup.SetJobctlPending: models the mask of a group stop only, because the other masks belong to ptrace.
- Records: one user is charged and the limit is fixed; a process whose credentials or limits change is not modelled. Charges in flight are counted, not told apart, and dropping a charge and freeing its object is one event.
- DmaRing.Kyouko.GraphicsOff: assumes the ring invariant, which by `SoundOrStalled` leaves out the stalled ring only; there the loop does not end, as `StalledSlotStaysFull` states.
- Records.Account: the record lists of removals are walked in `SigQueue.SigPending`; here a removal is one update of the queue followed by freeing the unlinked records in order.
- Concurrent START_DMA callers, and `wait_event_interruptible` returning early on a signal: the ring code guards against neither, and the ring theorems assume neither.
- Completion interrupts without a programmed transfer do not occur in the ring's runs; `DmaRing.Kyouko.DmaInterrupt` covers the handler's branch for them.
- PCI probing, mapping, register setup, the other drivers, the second copy of smunch, and the small system calls beside it.
