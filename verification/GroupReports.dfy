/** Job-control reports to the parent: each group stop is reported at most once
    as stopped, and continued only after it was reported as stopped. */
module GroupReports {
  import opened Signals
  import opened SigQueue
  import opened GroupState
  import opened GroupRun
  import opened GroupStop

  /** What a run has done so far: the number of group stops initiated, the stop a
      pending SIGNAL_CLD_* flag speaks of, and the stops for which CLD_STOPPED
      and CLD_CONTINUED were decided, in order.  Stops are numbered from 1. */
  datatype History = History(epoch: nat, owed: nat, stopped: seq<nat>, continued: seq<nat>)

  const NO_HISTORY := History(0, 0, [], [])

  // ------------------------------------------------------------------- events

  /** do_signal_stop initiates a group stop in this step. */
  predicate Initiates(g: Group, s: Step)
    requires Enabled(g, s)
  {
    var p := Participant(g, s);
    p.Joins? && !s.ExitWithLock? && !g.tasks[p.i].job.stopPending
  }

  /** task_participate_group_stop completes the stop in this step. */
  predicate Finishes(g: Group, s: Step)
    requires Enabled(g, s)
  {
    match Participant(g, s)
    case Joins(i, b) => ValidTask(b, i) && Completes(b, i)
    case Nobody => false
  }

  /** SIGCONT overtakes a stop that has completed or is still under way. */
  predicate Overtakes(g: Group, s: Step)
    requires Enabled(g, s)
  {
    Generated(s) == SIGCONT && !g.flags.groupExit && StopActive(g)
  }

  function Observe(h: History, g: Group, s: Step): History
    requires Enabled(g, s)
  {
    var epoch := if Initiates(g, s) then h.epoch + 1 else h.epoch;
    History(
      epoch,
      if Overtakes(g, s) then h.epoch else h.owed,
      if Finishes(g, s) then h.stopped + [epoch]
      else if s.Lock? && g.flags.cldStopped && !g.flags.cldContinued then h.stopped + [h.owed]
      else h.stopped,
      if s.Lock? && g.flags.cldContinued then h.continued + [h.owed] else h.continued)
  }

  /** The history after the first k steps of a run. */
  ghost function HistoryOf(gs: seq<Group>, ss: seq<Step>, k: nat): History
    requires Path(gs, ss) && k <= |ss|
  {
    if k == 0 then NO_HISTORY else Observe(HistoryOf(gs, ss, k - 1), gs[k - 1], ss[k - 1])
  }

  // --------------------------------------------- what a step does to the flags

  predicate Clears(g: Group, s: Step) {
    s.Lock? && (g.flags.cldStopped || g.flags.cldContinued)
  }

  lemma CompleteFlags(g: Group, sig: Signo, p: nat, group: bool, onCpu: set<nat>)
    requires ValidTask(g, p)
    ensures var h := Complete(g, sig, p, group, onCpu);
            (h.flags == g.flags && h.stopCount == g.stopCount) || h.flags == EXIT_FLAGS
    ensures sig == SIGCONT ==> Complete(g, sig, p, group, onCpu).flags == g.flags
  {
  }

  /** Generating a signal leaves flags and count alone, unless SIGCONT overtakes a
      stop or the group exit starts. */
  predicate GenerationFlags(g: Group, h: Group, sig: int) {
    if sig == SIGCONT && !g.flags.groupExit && StopActive(g)
    then h.flags == ContinuedFlags(g) && h.stopCount == 0
    else (h.flags == g.flags && h.stopCount == g.stopCount) || h.flags == EXIT_FLAGS
  }

  lemma SendFlags(g: Group, sig: Signo, src: Source, p: nat, group: bool, slot: Slot, onCpu: set<nat>)
    requires ValidTask(g, p)
    ensures GenerationFlags(g, Send(g, sig, src, p, group, slot, onCpu), sig)
  {
    var g1 := Prepare(g, sig);
    var r := SendTo(Queue(g1, p, group), sig, src, slot);
    if r.Accepted? {
      CompleteFlags(SetQueue(g1, p, group, r.queue), sig, p, group, onCpu);
    }
  }

  lemma SendSigqueueFlags(g: Group, q: Rec, p: nat, group: bool, onCpu: set<nat>)
    requires ValidTask(g, p)
    ensures GenerationFlags(g, SendSigqueue(g, q, p, group, onCpu), q.info.signo)
  {
    var sig := q.info.signo;
    var g1 := Prepare(g, sig);
    CompleteFlags(SetQueue(g1, p, group, Append(Queue(g1, p, group), q)), sig, p, group, onCpu);
  }

  lemma ForceFlags(g: Group, sig: Signo, src: Source, p: nat, slot: Slot, onCpu: set<nat>)
    requires ValidTask(g, p)
    ensures GenerationFlags(g, ForceSig(g, sig, src, p, slot, onCpu), sig)
  {
    SendFlags(ForceBase(g, sig, p), sig, src, p, false, slot, onCpu);
  }

  lemma GenerateFlags(g: Group, s: Step)
    requires Enabled(g, s) && Generated(s) != 0
    ensures GenerationFlags(g, Next(g, s), Generated(s))
  {
    match s
    case Generate(sig, src, p, group, slot, onCpu) => SendFlags(g, sig, src, p, group, slot, onCpu);
    case GenerateQueued(q, p, group, onCpu) => SendSigqueueFlags(g, q, p, group, onCpu);
    case Force(sig, src, p, slot, onCpu) => ForceFlags(g, sig, src, p, slot, onCpu);
    case _ =>
  }

  /** What joining a stop does: `b` is the group found by the thread that takes
      part, `initiates` says that it has just started the stop. */
  ghost predicate Joined(g: Group, i: nat, b: Group, h: Group, initiates: bool) {
    && ValidTask(b, i) && Engaged(b, i) && b.flags == g.flags && h.stopCount == b.stopCount - 1
    && h.flags == (if Completes(b, i) then STOPPED_FLAGS else g.flags)
    && !g.flags.groupExit && !g.flags.stopped
    && (if initiates then !StopActive(g) else b.stopCount == g.stopCount && g.stopCount > 0)
  }

  /** What any other step does to the count and the flags. */
  predicate Unjoined(g: Group, h: Group, clears: bool) {
    && h.stopCount == g.stopCount
    && h.flags == (if clears then g.flags.(cldStopped := false, cldContinued := false) else g.flags)
  }

  /** Taking part changes count and flags as the report says, and nothing else
      outside generation and the report of SIGNAL_CLD_* touches either. */
  ghost predicate FlagsMove(g: Group, s: Step)
    requires Enabled(g, s)
  {
    match Participant(g, s)
    case Joins(i, b) => Joined(g, i, b, Next(g, s), Initiates(g, s))
    case Nobody => Unjoined(g, Next(g, s), Clears(g, s))
  }

  lemma JoinFlags(g: Group, i: nat, sig: int)
    requires StopInv(g) && Runs(g, i) && !StopCancelled(g, i)
    ensures Joined(g, i, StopBase(g, i, sig), SignalStop(g, i, sig), !g.tasks[i].job.stopPending)
  {
    StopIsEngaged(g, i, sig);
    if g.tasks[i].job.stopPending {
      PendingIsEngaged(g, i);
    } else {
      NoStopActive(g, i);
    }
  }

  lemma CancelledFlags(g: Group, i: nat, sig: int)
    requires Runs(g, i) && StopCancelled(g, i)
    ensures Unjoined(g, SignalStop(g, i, sig), false)
  {
  }

  lemma LoopFlags(g: Group, i: nat)
    requires StopInv(g) && Enabled(g, StopInLoop(i))
    ensures FlagsMove(g, StopInLoop(i))
  {
    JoinFlags(g, i, 0);
  }

  lemma ActFlags(g: Group, i: nat)
    requires StopInv(g) && Enabled(g, Act(i))
    ensures FlagsMove(g, Act(i))
  {
    var sig := g.tasks[i].at.sig;
    if sig == SIGSTOP && Action(g, sig) == Default {
      if StopCancelled(g, i) {
        CancelledFlags(g, i, sig);
      } else {
        JoinFlags(g, i, sig);
      }
    }
  }

  lemma LeaveFlags(g: Group, i: nat, orphaned: bool)
    requires StopInv(g) && Enabled(g, LeaveWindow(i, orphaned))
    ensures FlagsMove(g, LeaveWindow(i, orphaned))
  {
    if StopCancelled(g, i) {
      CancelledFlags(g, i, g.tasks[i].at.sig);
    } else {
      JoinFlags(g, i, g.tasks[i].at.sig);
    }
  }

  lemma ExitIsEngaged(g: Group, i: nat)
    requires StopInv(g) && Runs(g, i) && g.tasks[i].job.stopPending
    ensures Engaged(ExitBase(g, i), i) && ExitBase(g, i).stopCount == g.stopCount > 0
  {
    var g1, b := SetExiting(g, i), ExitBase(g, i);
    RetargetMild(g1.tasks, i, 1, g1.shared.signal * (ALL - g.tasks[i].blocked));
    PendingIsEngaged(g, i);
    assert Consumers(b.tasks) == Consumers(g.tasks) by {
      assert forall j :: 0 <= j < |g.tasks| ==> Mild(g1.tasks[j], b.tasks[j]);
    }
    forall j | 0 <= j < |b.tasks| && j != i
      ensures TaskInv(b.tasks[j], |b.tasks| == 1) && Halting(b.tasks[j])
      ensures SIGKILL in b.tasks[j].pending.signal ==> b.tasks[j].exiting
    {
      assert Mild(g1.tasks[j], b.tasks[j]);
    }
  }

  lemma ExitFlags(g: Group, i: nat)
    requires StopInv(g) && Enabled(g, ExitWithLock(i))
    ensures FlagsMove(g, ExitWithLock(i))
  {
    if g.tasks[i].tif && g.tasks[i].job.stopPending {
      ExitIsEngaged(g, i);
    }
  }

  lemma TakeFlags(g: Group, i: nat, mask: set<Signo>, at: Point)
    requires ValidTask(g, i)
    ensures Unjoined(g, Take(g, i, mask).group, false) && Unjoined(g, Move(Take(g, i, mask).group, i, at), false)
  {
  }

  /** Steps in which nobody takes part in a stop. */
  lemma QuietFlags(g: Group, s: Step)
    requires Enabled(g, s) && Generated(s) == 0
    requires !s.StopInLoop? && !s.Act? && !s.LeaveWindow? && !s.ExitWithLock?
    ensures FlagsMove(g, s)
  {
    match s
    case TakeSync(i, mask) => TakeFlags(g, i, mask, User);
    case TakeInLoop(i) =>
      var r := Take(g, i, g.tasks[i].blocked);
      TakeFlags(g, i, g.tasks[i].blocked, if r.sig == 0 then User else Dispatch(r.sig));
    case _ =>
  }

  lemma OwnFlags(g: Group, s: Step)
    requires StopInv(g) && Enabled(g, s) && Generated(s) == 0
    ensures FlagsMove(g, s)
  {
    match s
    case StopInLoop(i) => LoopFlags(g, i);
    case Act(i) => ActFlags(g, i);
    case LeaveWindow(i, orphaned) => LeaveFlags(g, i, orphaned);
    case ExitWithLock(i) => ExitFlags(g, i);
    case _ => QuietFlags(g, s);
  }

  // -------------------------------------------------------------- the invariant

  function Last(xs: seq<nat>): nat {
    if xs == [] then 0 else xs[|xs| - 1]
  }

  /** Strictly increasing stop numbers out of 1..epoch. */
  ghost predicate Ordered(xs: seq<nat>, epoch: nat) {
    && (forall a, b :: 0 <= a < b < |xs| ==> xs[a] < xs[b])
    && (forall a :: 0 <= a < |xs| ==> 1 <= xs[a] <= epoch)
  }

  lemma OrderedPush(xs: seq<nat>, epoch: nat, x: nat)
    requires Ordered(xs, epoch) && Last(xs) < x
    ensures forall e: nat :: epoch <= e && x <= e ==> Ordered(xs + [x], e)
    ensures Last(xs + [x]) == x
  {
    assert forall a :: 0 <= a < |xs| ==> xs[a] <= Last(xs);
  }

  /** What the flags promise about reports still to come. */
  ghost predicate Promises(f: Flags, count: nat, h: History) {
    && (count > 0 ==> !f.stopped && Last(h.stopped) < h.epoch && Last(h.continued) < h.epoch)
    && (f.stopped ==> h.epoch in h.stopped && Last(h.continued) < h.epoch && !f.cldStopped && !f.cldContinued)
    && (f.cldStopped || f.cldContinued ==>
          1 <= h.owed <= h.epoch && (count > 0 ==> h.owed < h.epoch) && f.cldStopped != f.cldContinued)
    && (f.cldStopped ==> Last(h.stopped) < h.owed)
    && (f.cldContinued ==> h.owed in h.stopped && Last(h.continued) < h.owed)
  }

  ghost predicate Consistent(f: Flags, count: nat, h: History) {
    && Ordered(h.stopped, h.epoch)
    && Ordered(h.continued, h.epoch)
    && (forall x :: x in h.continued ==> x in h.stopped)
    && (f.groupExit || Promises(f, count, h))
  }

  ghost predicate HistoryInv(g: Group, h: History) {
    Consistent(g.flags, g.stopCount, h)
  }

  lemma LastIn(xs: seq<nat>, epoch: nat)
    requires Ordered(xs, epoch)
    ensures Last(xs) <= epoch
    ensures epoch > 0 && epoch in xs ==> Last(xs) == epoch
  {
    if epoch in xs {
      var a :| 0 <= a < |xs| && xs[a] == epoch;
    }
  }

  lemma ObserveKeeps(g: Group, s: Step, h: History)
    requires StopInv(g) && Enabled(g, s) && HistoryInv(g, h)
    ensures HistoryInv(Next(g, s), Observe(h, g, s))
  {
    var g2, h2 := Next(g, s), Observe(h, g, s);
    LastIn(h.stopped, h.epoch);
    LastIn(h.continued, h.epoch);
    if Generated(s) != 0 {
      GenerateFlags(g, s);
    } else {
      OwnFlags(g, s);
      match Participant(g, s)
      case Joins(i, b) => JoinKeeps(g, s, h);
      case Nobody =>
        if s.Lock? {
          ReportKeeps(g, s, h);
        }
    }
  }

  /** A thread takes part in a stop, perhaps its first, perhaps its last. */
  lemma JoinHistory(f: Flags, count: nat, h: History, initiates: bool, finishes: bool, left: nat)
    requires Consistent(f, count, h) && !f.groupExit && !f.stopped
    requires initiates <==> count == 0
    requires finishes ==> left == 0
    ensures var epoch := if initiates then h.epoch + 1 else h.epoch;
            Consistent(if finishes then STOPPED_FLAGS else f, left,
                       History(epoch, h.owed, if finishes then h.stopped + [epoch] else h.stopped, h.continued))
  {
    var epoch := if initiates then h.epoch + 1 else h.epoch;
    LastIn(h.stopped, h.epoch);
    LastIn(h.continued, h.epoch);
    if finishes {
      OrderedPush(h.stopped, h.epoch, epoch);
      assert (h.stopped + [epoch])[|h.stopped|] == epoch;
      assert forall x :: x in h.continued ==> x in h.stopped + [epoch];
    }
  }

  lemma JoinMeaning(g: Group, s: Step)
    requires StopInv(g) && Enabled(g, s) && Generated(s) == 0 && Participant(g, s).Joins?
    ensures !g.flags.groupExit && !g.flags.stopped && !s.Lock?
    ensures Initiates(g, s) <==> g.stopCount == 0
    ensures Finishes(g, s) ==> Next(g, s).stopCount == 0
    ensures Next(g, s).flags == if Finishes(g, s) then STOPPED_FLAGS else g.flags
  {
    OwnFlags(g, s);
  }

  lemma JoinKeeps(g: Group, s: Step, h: History)
    requires StopInv(g) && Enabled(g, s) && HistoryInv(g, h)
    requires Generated(s) == 0 && Participant(g, s).Joins?
    ensures HistoryInv(Next(g, s), Observe(h, g, s))
  {
    JoinMeaning(g, s);
    JoinHistory(g.flags, g.stopCount, h, Initiates(g, s), Finishes(g, s), Next(g, s).stopCount);
  }

  lemma ReportKeeps(g: Group, s: Step, h: History)
    requires StopInv(g) && Enabled(g, s) && HistoryInv(g, h) && s.Lock?
    ensures HistoryInv(Next(g, s), Observe(h, g, s))
  {
    OwnFlags(g, s);
    LastIn(h.stopped, h.epoch);
    LastIn(h.continued, h.epoch);
    if g.flags.groupExit {
      assert g.flags == EXIT_FLAGS;
    } else if g.flags.cldContinued {
      OrderedPush(h.continued, h.epoch, h.owed);
    } else if g.flags.cldStopped {
      OrderedPush(h.stopped, h.epoch, h.owed);
      assert forall x :: x in h.continued ==> x in h.stopped + [h.owed];
    }
  }

  lemma {:induction false} HistoryInvariant(gs: seq<Group>, ss: seq<Step>, k: nat)
    requires Run(gs, ss) && k <= |ss|
    ensures HistoryInv(gs[k], HistoryOf(gs, ss, k))
  {
    if k > 0 {
      HistoryInvariant(gs, ss, k - 1);
      InitialStopInv(gs[0]);
      PathKeepsStopInv(gs, ss, k - 1);
      ObserveKeeps(gs[k - 1], ss[k - 1], HistoryOf(gs, ss, k - 1));
    }
  }

  /** In every run each initiated group stop yields at most one CLD_STOPPED
      report, whether from the last thread to stop or exit or from a SIGCONT that
      overtook it, and at most one CLD_CONTINUED, which only ever follows the
      stop's own CLD_STOPPED; reports come in the order of the stops. */
  lemma OneReportPerStop(gs: seq<Group>, ss: seq<Step>, k: nat)
    requires Run(gs, ss) && k <= |ss|
    ensures var h := HistoryOf(gs, ss, k);
      && (forall a, b :: 0 <= a < b < |h.stopped| ==> h.stopped[a] < h.stopped[b])
      && (forall a, b :: 0 <= a < b < |h.continued| ==> h.continued[a] < h.continued[b])
      && (forall x :: x in h.stopped ==> 1 <= x <= h.epoch)
      && (forall x :: x in h.continued ==> x in h.stopped)
  {
    HistoryInvariant(gs, ss, k);
  }
}
