/** The signal state of one thread group and what each siglock critical section
    does to it (untraced, killable groups). */
module GroupState {
  import opened Signals
  import opened SigQueue

  datatype RunState = Running | Interruptible | Uninterruptible | Killable | Stopped

  datatype Disposition = Default | Ignore | Handler(oneshot: bool)

  /** The JOBCTL_STOP_* bits of task->jobctl. */
  datatype JobCtl = JobCtl(signo: int, dequeued: bool, stopPending: bool, consume: bool)

  /** Where a thread is: outside get_signal_to_deliver, at `relock`, inside the
      delivery loop, holding a dequeued signal (the lock may have been dropped
      for a timer), in the orphaned-pgrp window, or on its way to do_group_exit. */
  datatype Point = User | Relock | Loop | Dispatch(sig: Signo) | Orphan(sig: Signo) | Fatal

  datatype Task = Task(blocked: set<Signo>, realBlocked: set<Signo>, pending: Pending, tif: bool,
                       job: JobCtl, exiting: bool, state: RunState, at: Point)

  /** The SIGNAL_* flags of signal_struct. */
  datatype Flags = Flags(stopped: bool, continued: bool, groupExit: bool, cldStopped: bool, cldContinued: bool)

  const NO_FLAGS := Flags(false, false, false, false, false)
  const EXIT_FLAGS := NO_FLAGS.(groupExit := true)
  const STOPPED_FLAGS := NO_FLAGS.(stopped := true)

  /** `tasks` is the thread ring: the successor of the last index is index 0. */
  datatype Group = Group(tasks: seq<Task>, shared: Pending, action: map<Signo, Disposition>, flags: Flags,
                         stopCount: nat, exitCode: int, target: nat)

  predicate Ok(g: Group) {
    g.target < |g.tasks|
  }

  predicate ValidTask(g: Group, p: nat) {
    Ok(g) && p < |g.tasks|
  }

  // -------------------------------------------------------- the thread ring

  /** The k-th thread of the ring counted from i. */
  function Ring(i: nat, k: nat, n: nat): (j: nat)
    requires i < n && k <= n
    ensures j < n
  {
    if i + k < n then i + k else i + k - n
  }

  /** j is among the first k threads of the ring counted from i. */
  predicate Visited(i: nat, k: nat, n: nat, j: nat) {
    i <= j < i + k || j + n < i + k
  }

  // ------------------------------------------------------------ single tasks

  /** The handler table; a signal never set is at SIG_DFL. */
  function Handled(action: map<Signo, Disposition>, sig: Signo): Disposition {
    if sig in action then action[sig] else Default
  }

  function Action(g: Group, sig: Signo): Disposition {
    Handled(g.action, sig)
  }

  /** sig_handler_ignored. */
  predicate HandlerIgnored(d: Disposition, sig: Signo) {
    d == Ignore || (d == Default && sig in IGNORED_SIGNALS)
  }

  /** sig_ignored for an untraced, killable task. */
  predicate SigIgnored(g: Group, t: Task, sig: Signo) {
    sig !in t.blocked && sig !in t.realBlocked && HandlerIgnored(Action(g, sig), sig)
  }

  /** sig_fatal: the default action would terminate the group. */
  predicate SigFatal(g: Group, sig: Signo) {
    sig !in IGNORED_SIGNALS && sig !in STOP_SIGNALS && Action(g, sig) == Default
  }

  /** has_pending_signals on sets. */
  predicate HasPending(signal: set<Signo>, blocked: set<Signo>) {
    signal - blocked != {}
  }

  /** The condition of recalc_sigpending_tsk. */
  predicate MustAttend(shared: Pending, t: Task) {
    t.job.stopPending || HasPending(t.pending.signal, t.blocked) || HasPending(shared.signal, t.blocked)
  }

  /** recalc_sigpending, on current. */
  function Recalc(shared: Pending, t: Task): Task {
    t.(tif := MustAttend(shared, t))
  }

  /** signal_wake_up. */
  function WakeUp(t: Task, resume: bool): Task {
    t.(tif := true,
       state := if t.state == Interruptible || (resume && (t.state == Stopped || t.state == Killable))
                then Running else t.state)
  }

  /** task_clear_jobctl_pending(JOBCTL_STOP_PENDING); no trap bits are in use. */
  function ClearStop(t: Task): Task {
    t.(job := t.job.(dequeued := false, stopPending := false, consume := false))
  }

  /** fatal_signal_pending. */
  predicate FatalPending(t: Task) {
    t.tif && SIGKILL in t.pending.signal
  }

  /** wants_signal; `cur` says whether the task is on a processor. */
  predicate Wants(t: Task, sig: Signo, cur: bool) {
    && sig !in t.blocked
    && !t.exiting
    && (sig == SIGKILL || (t.state != Stopped && (cur || !t.tif)))
  }

  // ------------------------------------------------------ generating signals

  function Queue(g: Group, p: nat, group: bool): Pending
    requires ValidTask(g, p)
  {
    if group then g.shared else g.tasks[p].pending
  }

  function SetQueue(g: Group, p: nat, group: bool, q: Pending): Group
    requires ValidTask(g, p)
  {
    if group then g.(shared := q) else g.(tasks := g.tasks[p := g.tasks[p].(pending := q)])
  }

  function RemoveFrom(t: Task, mask: set<Signo>): Task {
    t.(pending := RmFromQueue(t.pending, mask))
  }

  /** What generating SIGCONT does to one thread. */
  function Continue(t: Task): Task {
    RemoveFrom(ClearStop(t), STOP_SIGNALS).(state := if t.state == Stopped then Running else t.state)
  }

  function RemoveAll(ts: seq<Task>, mask: set<Signo>): seq<Task> {
    seq(|ts|, j requires 0 <= j < |ts| => RemoveFrom(ts[j], mask))
  }

  function ContinueAll(ts: seq<Task>): seq<Task> {
    seq(|ts|, j requires 0 <= j < |ts| => Continue(ts[j]))
  }

  predicate StopActive(g: Group) {
    g.stopCount > 0 || g.flags.stopped
  }

  /** The flags after SIGCONT met a stop that had completed or was under way. */
  function ContinuedFlags(g: Group): Flags {
    NO_FLAGS.(continued := true, cldContinued := g.flags.stopped, cldStopped := !g.flags.stopped)
  }

  /** The group-wide effects of prepare_signal. */
  function Prepare(g: Group, sig: Signo): Group {
    if g.flags.groupExit then g
    else if sig in STOP_SIGNALS then
      g.(shared := RmFromQueue(g.shared, {SIGCONT}), tasks := RemoveAll(g.tasks, {SIGCONT}))
    else if sig == SIGCONT then
      var g1 := g.(shared := RmFromQueue(g.shared, STOP_SIGNALS), tasks := ContinueAll(g.tasks));
      if StopActive(g) then g1.(flags := ContinuedFlags(g), stopCount := 0, exitCode := 0) else g1
    else g
  }

  /** The cyclic scan of complete_signal from curr_target; -1 if nobody wants it. */
  function Scan(g: Group, sig: Signo, k: nat, onCpu: set<nat>): (r: int)
    requires Ok(g) && k <= |g.tasks|
    ensures -1 <= r < |g.tasks|
    ensures r >= 0 ==> Wants(g.tasks[r], sig, r in onCpu)
    ensures r == -1 ==> forall m :: k <= m < |g.tasks| ==>
              var j := Ring(g.target, m, |g.tasks|); !Wants(g.tasks[j], sig, j in onCpu)
    decreases |g.tasks| - k
  {
    if k == |g.tasks| then -1
    else
      var j := Ring(g.target, k, |g.tasks|);
      if Wants(g.tasks[j], sig, j in onCpu) then j else Scan(g, sig, k + 1, onCpu)
  }

  /** The thread complete_signal picks, or -1. */
  function Pick(g: Group, sig: Signo, p: nat, group: bool, onCpu: set<nat>): (t: int)
    requires ValidTask(g, p)
    ensures -1 <= t < |g.tasks|
    ensures t >= 0 ==> Wants(g.tasks[t], sig, t in onCpu)
  {
    if Wants(g.tasks[p], sig, p in onCpu) then p
    else if !group || |g.tasks| == 1 then -1
    else Scan(g, sig, 0, onCpu)
  }

  /** The scan finds a willing thread exactly if one exists. */
  lemma PickFindsWillingThread(g: Group, sig: Signo, p: nat, onCpu: set<nat>)
    requires ValidTask(g, p)
    ensures Pick(g, sig, p, true, onCpu) == -1 <==>
              forall j :: 0 <= j < |g.tasks| ==> !Wants(g.tasks[j], sig, j in onCpu)
  {
    var n := |g.tasks|;
    if Pick(g, sig, p, true, onCpu) == -1 && n > 1 {
      forall j | 0 <= j < n
        ensures !Wants(g.tasks[j], sig, j in onCpu)
      {
        var m := if g.target <= j then j - g.target else j + n - g.target;
        assert Ring(g.target, m, n) == j;
      }
    }
  }

  /** Every thread of a dying group gets SIGKILL and is woken. */
  function Kill(t: Task): Task {
    WakeUp(ClearStop(t).(pending := t.pending.(signal := t.pending.signal + {SIGKILL})), true)
  }

  function KillAll(ts: seq<Task>): seq<Task> {
    seq(|ts|, j requires 0 <= j < |ts| => Kill(ts[j]))
  }

  /** complete_signal decides to take the whole group down. */
  predicate TakesGroupDown(g: Group, sig: Signo, t: Task) {
    SigFatal(g, sig) && !g.flags.groupExit && sig !in t.realBlocked && sig !in COREDUMP_SIGNALS
  }

  function Complete(g: Group, sig: Signo, p: nat, group: bool, onCpu: set<nat>): Group
    requires ValidTask(g, p)
  {
    var t := Pick(g, sig, p, group, onCpu);
    if t == -1 then g
    else
      var g1 := if Wants(g.tasks[p], sig, p in onCpu) then g else g.(target := t);
      if TakesGroupDown(g, sig, g.tasks[t]) then
        g1.(flags := EXIT_FLAGS, exitCode := sig, stopCount := 0, tasks := KillAll(g.tasks))
      else g1.(tasks := g.tasks[t := WakeUp(g.tasks[t], sig == SIGKILL)])
  }

  /** __send_signal. */
  function Send(g: Group, sig: Signo, src: Source, p: nat, group: bool, slot: Slot, onCpu: set<nat>): Group
    requires ValidTask(g, p)
  {
    var g1 := Prepare(g, sig);
    if SigIgnored(g, g.tasks[p], sig) then g1
    else
      var r := SendTo(Queue(g1, p, group), sig, src, slot);
      if r.Accepted? then Complete(SetQueue(g1, p, group, r.queue), sig, p, group, onCpu) else g1
  }

  predicate QueuedIn(g: Group, id: nat) {
    (exists r :: r in g.shared.list && r.id == id)
    || exists j :: 0 <= j < |g.tasks| && exists r :: r in g.tasks[j].pending.list && r.id == id
  }

  /** send_sigqueue on a preallocated record. */
  function SendSigqueue(g: Group, q: Rec, p: nat, group: bool, onCpu: set<nat>): Group
    requires ValidTask(g, p)
  {
    var sig := q.info.signo;
    var g1 := Prepare(g, sig);
    if SigIgnored(g, g.tasks[p], sig) || QueuedIn(g1, q.id) then g1
    else Complete(SetQueue(g1, p, group, Append(Queue(g1, p, group), q)), sig, p, group, onCpu)
  }

  /** force_sig_info before it sends: the signal is un-ignored and unblocked, and
      a thread that thereby has something to do is woken. */
  function ForceBase(g: Group, sig: Signo, p: nat): Group
    requires ValidTask(g, p)
  {
    var t := g.tasks[p];
    var reset := if sig in t.blocked || Action(g, sig) == Ignore then g.(action := g.action[sig := Default]) else g;
    var t1 := t.(blocked := t.blocked - {sig});
    var t2 := if sig in t.blocked && MustAttend(g.shared, t1) then WakeUp(t1, false) else t1;
    reset.(tasks := g.tasks[p := t2])
  }

  /** force_sig_info. */
  function ForceSig(g: Group, sig: Signo, src: Source, p: nat, slot: Slot, onCpu: set<nat>): Group
    requires ValidTask(g, p)
  {
    Send(ForceBase(g, sig, p), sig, src, p, false, slot, onCpu)
  }

  function DiscardAll(ts: seq<Task>, sig: Signo): seq<Task> {
    seq(|ts|, j requires 0 <= j < |ts| => ts[j].(pending := RmFromQueueFull(ts[j].pending, {sig})))
  }

  /** do_sigaction with a new action. */
  function Sigaction(g: Group, sig: Signo, d: Disposition): Group {
    if sig == SIGKILL || sig == SIGSTOP then g
    else
      var g1 := g.(action := g.action[sig := d]);
      if HandlerIgnored(d, sig) then
        g1.(shared := RmFromQueueFull(g.shared, {sig}), tasks := DiscardAll(g.tasks, sig))
      else g1
  }

  // ---------------------------------------------------------------- stopping

  /** task_set_jobctl_pending would succeed on this thread of a new group stop. */
  predicate CanMark(t: Task, current: bool) {
    (current || t.state != Stopped) && !FatalPending(t) && !t.exiting
  }

  function Mark(t: Task, sig: int): Task {
    t.(job := t.job.(signo := sig, stopPending := true, consume := true))
  }

  function Marked(t: Task, current: bool, sig: int): Task {
    if !CanMark(t, current) then t
    else if current then Mark(t, sig) else WakeUp(Mark(t, sig), false)
  }

  function MarkSet(ts: seq<Task>, i: nat): set<nat> {
    set j: nat | j < |ts| && CanMark(ts[j], j == i)
  }

  function MarkAll(ts: seq<Task>, i: nat, sig: int): seq<Task> {
    seq(|ts|, j requires 0 <= j < |ts| => Marked(ts[j], j == i, sig))
  }

  /** The first half of do_signal_stop: thread i starts a group stop. */
  function InitStop(g: Group, i: nat, sig: int): Group {
    g.(tasks := MarkAll(g.tasks, i, sig), stopCount := |MarkSet(g.tasks, i)|,
       exitCode := if g.flags.stopped then g.exitCode else sig)
  }

  /** task_participate_group_stop tells its caller to report CLD_STOPPED. */
  predicate Completes(g: Group, i: nat)
    requires ValidTask(g, i)
  {
    g.tasks[i].job.consume && g.stopCount <= 1 && !g.flags.stopped
  }

  /** task_participate_group_stop. */
  function Participate(g: Group, i: nat): Group
    requires ValidTask(g, i)
  {
    var g1 := g.(tasks := g.tasks[i := ClearStop(g.tasks[i])]);
    if !g.tasks[i].job.consume then g1
    else g1.(stopCount := if g.stopCount == 0 then 0 else g.stopCount - 1,
             flags := if Completes(g, i) then STOPPED_FLAGS else g.flags)
  }

  /** do_signal_stop must start a stop and may not. */
  predicate StopCancelled(g: Group, i: nat)
    requires ValidTask(g, i)
  {
    var job := g.tasks[i].job;
    !job.stopPending && (!job.dequeued || g.flags.groupExit)
  }

  /** The group as task_participate_group_stop sees it inside do_signal_stop. */
  function StopBase(g: Group, i: nat, sig: int): Group
    requires ValidTask(g, i)
  {
    if g.tasks[i].job.stopPending then g else InitStop(g, i, sig)
  }

  /** do_signal_stop returning true: thread i is in TASK_STOPPED. */
  function DoStop(g: Group, i: nat, sig: int): Group
    requires ValidTask(g, i)
  {
    var g1 := Participate(StopBase(g, i, sig), i);
    g1.(tasks := g1.tasks[i := g1.tasks[i].(state := Stopped, at := Relock)])
  }

  /** do_signal_stop from the delivery loop; a cancelled stop goes on looping. */
  function SignalStop(g: Group, i: nat, sig: int): Group
    requires ValidTask(g, i)
  {
    if StopCancelled(g, i) then Move(g, i, Loop) else DoStop(g, i, sig)
  }

  // -------------------------------------------------------------- delivering

  function Move(g: Group, i: nat, at: Point): Group
    requires ValidTask(g, i)
  {
    g.(tasks := g.tasks[i := g.tasks[i].(at := at)])
  }

  /** The entry of get_signal_to_deliver: report SIGNAL_CLD_MASK or go on. */
  function EnterLoop(g: Group, i: nat): Group
    requires ValidTask(g, i)
  {
    if g.flags.cldStopped || g.flags.cldContinued then
      g.(flags := g.flags.(cldStopped := false, cldContinued := false))
    else Move(g, i, Loop)
  }

  datatype Taken = Taken(group: Group, sig: int, info: SigInfo)

  /** dequeue_signal on current: the private queue first, then the shared one. */
  function Take(g: Group, i: nat, mask: set<Signo>): (r: Taken)
    requires ValidTask(g, i)
    ensures r.sig != 0 ==> 1 <= r.sig <= NSIG
  {
    var t := g.tasks[i];
    var d := Dequeue(t.pending, mask);
    var e := Dequeue(g.shared, mask);
    var sig := if d.sig != 0 then d.sig else e.sig;
    var shared := if d.sig != 0 then g.shared else e.after.queue;
    var t1 := Recalc(shared, t.(pending := d.after.queue));
    var t2 := if sig in STOP_SIGNALS then t1.(job := t1.job.(dequeued := true)) else t1;
    Taken(g.(shared := shared, tasks := g.tasks[i := t2]), sig, if d.sig != 0 then d.after.info else e.after.info)
  }

  /** What dequeuing means for the thread: the private queue is served first and
      the shared one is then left alone; TIF_SIGPENDING afterwards says exactly
      whether something is left to do; a stop signal, and nothing else, leaves the
      marker; no other thread changes. */
  lemma TakeMeaning(g: Group, i: nat, mask: set<Signo>)
    requires ValidTask(g, i)
    ensures var t, r := g.tasks[i], Take(g, i, mask); var u := r.group.tasks[i];
      && IsNext(if t.pending.signal - mask != {} then t.pending.signal - mask else g.shared.signal - mask, r.sig)
      && (t.pending.signal - mask != {} ==> r.group.shared == g.shared)
      && (t.pending.signal - mask == {} ==> u.pending == t.pending)
      && (u.tif <==> u.job.stopPending || exists s :: s in u.pending.signal + r.group.shared.signal && s !in u.blocked)
      && (u.job.dequeued <==> t.job.dequeued || r.sig in STOP_SIGNALS)
      && (r.sig != 0 ==> r.info.signo == r.sig)
      && u == t.(pending := u.pending, tif := u.tif, job := t.job.(dequeued := u.job.dequeued))
      && r.group == g.(shared := r.group.shared, tasks := g.tasks[i := u])
  {
    var t, r := g.tasks[i], Take(g, i, mask);
    var u := r.group.tasks[i];
    AttendMeaning(r.group.shared, u);
  }

  lemma AttendMeaning(shared: Pending, t: Task)
    ensures MustAttend(shared, t) <==>
              t.job.stopPending || exists s :: s in t.pending.signal + shared.signal && s !in t.blocked
  {
    if s :| s in t.pending.signal + shared.signal && s !in t.blocked {
      assert s in t.pending.signal - t.blocked || s in shared.signal - t.blocked;
    }
  }

  /** One turn of the delivery loop up to the dequeued signal. */
  function LoopTake(g: Group, i: nat): Group
    requires ValidTask(g, i)
  {
    var r := Take(g, i, g.tasks[i].blocked);
    Move(r.group, i, if r.sig == 0 then User else Dispatch(r.sig))
  }

  /** The rest of the turn: act on the dequeued signal. */
  function Deliver(g: Group, i: nat, sig: Signo): Group
    requires ValidTask(g, i)
  {
    match Action(g, sig)
    case Ignore => Move(g, i, Loop)
    case Handler(oneshot) =>
      Move(if oneshot then g.(action := g.action[sig := Default]) else g, i, User)
    case Default =>
      if sig in IGNORED_SIGNALS then Move(g, i, Loop)
      else if sig in STOP_SIGNALS then
        if sig != SIGSTOP then Move(g, i, Orphan(sig)) else SignalStop(g, i, sig)
      else Move(g, i, Fatal)
  }

  // -------------------------------------------------- masks and thread exit

  /** retarget_shared_pending from ring position k on. */
  function RetargetFrom(ts: seq<Task>, i: nat, k: nat, which: set<Signo>): (r: seq<Task>)
    requires i < |ts| && 1 <= k <= |ts|
    ensures |r| == |ts| && r[i] == ts[i]
    decreases |ts| - k
  {
    if k == |ts| || which == {} then ts
    else
      var j := Ring(i, k, |ts|);
      var t := ts[j];
      if t.exiting || !HasPending(which, t.blocked) then RetargetFrom(ts, i, k + 1, which)
      else
        var ts1 := if t.tif then ts else ts[j := WakeUp(t, false)];
        RetargetFrom(ts1, i, k + 1, which * t.blocked)
  }

  function Retarget(g: Group, i: nat, which: set<Signo>): Group
    requires ValidTask(g, i)
  {
    g.(tasks := RetargetFrom(g.tasks, i, 1, g.shared.signal * which))
  }

  /** __set_task_blocked on current. */
  function SetBlocked(g: Group, i: nat, newset: set<Signo>): Group
    requires ValidTask(g, i)
  {
    var t := g.tasks[i];
    var g1 := if t.tif && |g.tasks| > 1 then Retarget(g, i, newset - t.blocked) else g;
    g1.(tasks := g1.tasks[i := Recalc(g.shared, g1.tasks[i].(blocked := newset))])
  }

  /** do_sigtimedwait before it sleeps: unblock what is waited for. */
  function BeginTimedWait(g: Group, i: nat, mask: set<Signo>): Group
    requires ValidTask(g, i)
  {
    var t := g.tasks[i];
    g.(tasks := g.tasks[i := Recalc(g.shared, t.(realBlocked := t.blocked, blocked := t.blocked * mask))])
  }

  /** do_sigtimedwait after it woke: restore the mask. */
  function EndTimedWait(g: Group, i: nat): Group
    requires ValidTask(g, i)
  {
    var g1 := SetBlocked(g, i, g.tasks[i].realBlocked);
    g1.(tasks := g1.tasks[i := g1.tasks[i].(realBlocked := {})])
  }

  function SetExiting(g: Group, i: nat): Group
    requires ValidTask(g, i)
  {
    g.(tasks := g.tasks[i := g.tasks[i].(exiting := true)])
  }

  /** exit_signals with TIF_SIGPENDING set, before it looks at the stop bits. */
  function ExitBase(g: Group, i: nat): Group
    requires ValidTask(g, i)
  {
    Retarget(SetExiting(g, i), i, ALL - g.tasks[i].blocked)
  }

  /** exit_signals after it took the lock. */
  function ExitLocked(g: Group, i: nat): Group
    requires ValidTask(g, i)
  {
    if !g.tasks[i].tif then SetExiting(g, i)
    else
      var g2 := ExitBase(g, i);
      if g2.tasks[i].job.stopPending then Participate(g2, i) else g2
  }

  function SetState(g: Group, i: nat, s: RunState): Group
    requires ValidTask(g, i)
  {
    g.(tasks := g.tasks[i := g.tasks[i].(state := s)])
  }
}
