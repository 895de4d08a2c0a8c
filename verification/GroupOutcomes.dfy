/** What a dequeued signal leads to over whole runs: a fatal one is the end of the
    thread, and a stop leaves its signal as the exit code for the parent to read. */
module GroupOutcomes {
  import opened Signals
  import opened SigQueue
  import opened GroupState
  import opened GroupRun
  import opened GroupMeaning
  import opened GroupStop
  import GroupReports

  // ------------------------------------------------------------ fatal signals

  /** Every thread but k is where it was. */
  ghost predicate OthersStay(g: Group, h: Group, k: int) {
    |h.tasks| == |g.tasks| && forall j :: 0 <= j < |g.tasks| && j != k ==> h.tasks[j].at == g.tasks[j].at
  }

  lemma CompleteStays(g: Group, sig: Signo, p: nat, group: bool, onCpu: set<nat>)
    requires ValidTask(g, p)
    ensures OthersStay(g, Complete(g, sig, p, group, onCpu), -1)
  {
  }

  lemma PrepareStays(g: Group, sig: Signo)
    ensures OthersStay(g, Prepare(g, sig), -1) && Prepare(g, sig).target == g.target
  {
  }

  lemma SendStays(g: Group, sig: Signo, src: Source, p: nat, group: bool, slot: Slot, onCpu: set<nat>)
    requires ValidTask(g, p)
    ensures OthersStay(g, Send(g, sig, src, p, group, slot, onCpu), -1)
  {
    var g1 := Prepare(g, sig);
    PrepareStays(g, sig);
    var r := SendTo(Queue(g1, p, group), sig, src, slot);
    if r.Accepted? {
      CompleteStays(SetQueue(g1, p, group, r.queue), sig, p, group, onCpu);
    }
  }

  lemma SendSigqueueStays(g: Group, q: Rec, p: nat, group: bool, onCpu: set<nat>)
    requires ValidTask(g, p)
    ensures OthersStay(g, SendSigqueue(g, q, p, group, onCpu), -1)
  {
    var g1 := Prepare(g, q.info.signo);
    PrepareStays(g, q.info.signo);
    CompleteStays(SetQueue(g1, p, group, Append(Queue(g1, p, group), q)), q.info.signo, p, group, onCpu);
  }

  lemma ForceStays(g: Group, sig: Signo, src: Source, p: nat, slot: Slot, onCpu: set<nat>)
    requires ValidTask(g, p)
    ensures OthersStay(g, ForceSig(g, sig, src, p, slot, onCpu), -1)
  {
    ForceBaseMeaning(g, sig, p);
    SendStays(ForceBase(g, sig, p), sig, src, p, false, slot, onCpu);
  }

  lemma SetBlockedStays(g: Group, i: nat, newset: set<Signo>)
    requires ValidTask(g, i)
    ensures OthersStay(g, SetBlocked(g, i, newset), i)
  {
    SetBlockedMeaning(g, i, newset);
    var h := SetBlocked(g, i, newset);
    forall j | 0 <= j < |g.tasks| && j != i
      ensures h.tasks[j].at == g.tasks[j].at
    {
      assert Nudged(g.tasks[j], h.tasks[j], g.shared.signal * (newset - g.tasks[i].blocked));
    }
  }

  lemma StopStays(g: Group, i: nat, sig: int)
    requires ValidTask(g, i)
    ensures OthersStay(g, SignalStop(g, i, sig), i)
  {
  }

  lemma DeliverStays(g: Group, i: nat, sig: Signo)
    requires ValidTask(g, i)
    ensures OthersStay(g, Deliver(g, i, sig), i)
  {
    StopStays(g, i, sig);
  }

  lemma ExitStays(g: Group, i: nat)
    requires ValidTask(g, i)
    ensures OthersStay(g, ExitLocked(g, i), i) && ExitLocked(g, i).tasks[i].at == g.tasks[i].at
  {
    ExitMeaning(g, i);
    var h := ExitLocked(g, i);
    forall j | 0 <= j < |g.tasks| && j != i
      ensures h.tasks[j].at == g.tasks[j].at
    {
      assert h.tasks[j] == g.tasks[j] || Nudged(g.tasks[j], h.tasks[j], g.shared.signal - g.tasks[i].blocked);
    }
  }

  /** A thread on its way to do_group_exit stays there whatever anybody does. */
  lemma StepKeepsFatal(g: Group, s: Step, i: nat)
    requires Enabled(g, s) && i < |g.tasks| && g.tasks[i].at == Fatal
    ensures |Next(g, s).tasks| == |g.tasks| && Next(g, s).tasks[i].at == Fatal
  {
    match s
    case Generate(sig, src, p, group, slot, onCpu) => SendStays(g, sig, src, p, group, slot, onCpu);
    case GenerateQueued(q, p, group, onCpu) => SendSigqueueStays(g, q, p, group, onCpu);
    case Force(sig, src, p, slot, onCpu) => ForceStays(g, sig, src, p, slot, onCpu);
    case SetAction(_, _) =>
    case SetMask(k, newset) => SetBlockedStays(g, k, newset);
    case WaitBegin(_, _) =>
    case WaitEnd(k) => SetBlockedStays(g, k, g.tasks[k].realBlocked);
    case TakeSync(_, _) =>
    case Enter(_) =>
    case Lock(_) =>
    case StopInLoop(k) => StopStays(g, k, 0);
    case TakeInLoop(_) =>
    case Act(k) => DeliverStays(g, k, g.tasks[k].at.sig);
    case LeaveWindow(k, _) => StopStays(g, k, g.tasks[k].at.sig);
    case ExitUnlocked(_) =>
    case ExitWithLock(k) => ExitStays(g, k);
    case Sleep(_, _) =>
    case Rouse(_) =>
  }

  lemma {:induction false} FatalStays(gs: seq<Group>, ss: seq<Step>, k: nat, m: nat, i: nat)
    requires Path(gs, ss) && k <= m <= |ss| && i < |gs[k].tasks| && gs[k].tasks[i].at == Fatal
    ensures i < |gs[m].tasks| && gs[m].tasks[i].at == Fatal
  {
    if k < m {
      FatalStays(gs, ss, k, m - 1, i);
      StepKeepsFatal(gs[m - 1], ss[m - 1], i);
    }
  }

  /** A fatal signal is final: a thread that acts on a signal at its default whose
      default is neither to ignore nor to stop is on its way to do_group_exit from
      then on, and never gets back to user space or to the loop. */
  lemma FatalIsFinal(gs: seq<Group>, ss: seq<Step>, k: nat, m: nat, i: nat)
    requires Path(gs, ss) && k < m <= |ss| && ss[k] == Act(i)
    requires var sig := gs[k].tasks[i].at.sig;
             AtDefault(gs[k].action, sig) && sig !in IGNORED_SIGNALS && sig !in STOP_SIGNALS
    ensures i < |gs[m].tasks| && gs[m].tasks[i].at == Fatal
  {
    DeliverMeaning(gs[k], i, gs[k].tasks[i].at.sig);
    FatalStays(gs, ss, k + 1, m, i);
  }

  // -------------------------------------------------------------- the exit code

  /** The signal for which a step starts a group stop. */
  function StopSignal(g: Group, s: Step): int
    requires Enabled(g, s)
  {
    match s
    case Act(i) => g.tasks[i].at.sig
    case LeaveWindow(i, _) => g.tasks[i].at.sig
    case _ => 0
  }

  lemma JoinedIsActive(g: Group, i: nat, b: Group, h: Group, initiates: bool)
    requires GroupReports.Joined(g, i, b, h, initiates) && b.stopCount > 0
    ensures StopActive(h)
  {
  }

  lemma StopCode(g: Group, i: nat, sig: int)
    requires StopInv(g) && Runs(g, i) && !StopCancelled(g, i)
    ensures var h := SignalStop(g, i, sig);
            StopActive(h) && h.exitCode == if g.tasks[i].job.stopPending then g.exitCode else sig
  {
    StopIsEngaged(g, i, sig);
    GroupReports.JoinFlags(g, i, sig);
    JoinedIsActive(g, i, StopBase(g, i, sig), SignalStop(g, i, sig), !g.tasks[i].job.stopPending);
    SignalStopMeaning(g, i, sig);
  }

  /** A stop that is started leaves its signal as the exit code. */
  lemma InitiatedCode(g: Group, s: Step)
    requires StopInv(g) && Enabled(g, s) && GroupReports.Initiates(g, s)
    ensures StopActive(Next(g, s)) && Next(g, s).exitCode == StopSignal(g, s)
  {
    match s
    case Act(i) => StopCode(g, i, g.tasks[i].at.sig);
    case LeaveWindow(i, _) => StopCode(g, i, g.tasks[i].at.sig);
    case _ =>
  }

  lemma SendCode(g: Group, sig: Signo, src: Source, p: nat, group: bool, slot: Slot, onCpu: set<nat>)
    requires ValidTask(g, p) && !g.flags.groupExit
    ensures var h := Send(g, sig, src, p, group, slot, onCpu);
            || h.flags.groupExit
            || h.exitCode == (if sig == SIGCONT && StopActive(g) then 0 else g.exitCode)
  {
    PrepareCode(g, sig);
    var g1 := Prepare(g, sig);
    PrepareStays(g, sig);
    var r := SendTo(Queue(g1, p, group), sig, src, slot);
    if r.Accepted? {
      CompleteMeaning(SetQueue(g1, p, group, r.queue), sig, p, group, onCpu);
    }
  }

  lemma PrepareCode(g: Group, sig: Signo)
    requires !g.flags.groupExit
    ensures Prepare(g, sig).exitCode == if sig == SIGCONT && StopActive(g) then 0 else g.exitCode
  {
    if sig == SIGCONT {
      PrepareContinue(g);
    } else if sig in STOP_SIGNALS {
      PrepareStop(g, sig);
    } else {
      PrepareNothing(g, sig);
    }
  }

  lemma SendSigqueueCode(g: Group, q: Rec, p: nat, group: bool, onCpu: set<nat>)
    requires ValidTask(g, p) && !g.flags.groupExit
    ensures var h := SendSigqueue(g, q, p, group, onCpu);
            || h.flags.groupExit
            || h.exitCode == (if q.info.signo == SIGCONT && StopActive(g) then 0 else g.exitCode)
  {
    PrepareCode(g, q.info.signo);
    var g1 := Prepare(g, q.info.signo);
    PrepareStays(g, q.info.signo);
    CompleteMeaning(SetQueue(g1, p, group, Append(Queue(g1, p, group), q)), q.info.signo, p, group, onCpu);
  }

  lemma GeneratedCode(g: Group, s: Step)
    requires Enabled(g, s) && Generated(s) != 0 && !g.flags.groupExit
    ensures Next(g, s).flags.groupExit
         || Next(g, s).exitCode == if GroupReports.Overtakes(g, s) then 0 else g.exitCode
  {
    match s
    case Generate(sig, src, p, group, slot, onCpu) => SendCode(g, sig, src, p, group, slot, onCpu);
    case GenerateQueued(q, p, group, onCpu) => SendSigqueueCode(g, q, p, group, onCpu);
    case Force(sig, src, p, slot, onCpu) =>
      ForceBaseMeaning(g, sig, p);
      SendCode(ForceBase(g, sig, p), sig, src, p, false, slot, onCpu);
    case _ =>
  }

  /** No other step of a thread of its own touches the exit code. */
  lemma OwnCode(g: Group, s: Step)
    requires StopInv(g) && Enabled(g, s) && Generated(s) == 0 && !GroupReports.Initiates(g, s)
    ensures Next(g, s).exitCode == g.exitCode
  {
    match s
    case SetMask(i, newset) => SetBlockedMeaning(g, i, newset);
    case WaitEnd(i) => EndTimedWaitMeaning(g, i);
    case StopInLoop(i) => SignalStopMeaning(g, i, 0);
    case Act(i) => ActCode(g, i);
    case LeaveWindow(i, orphaned) => SignalStopMeaning(g, i, g.tasks[i].at.sig);
    case ExitWithLock(i) => ExitMeaning(g, i);
    case _ =>
  }

  lemma ActCode(g: Group, i: nat)
    requires Enabled(g, Act(i)) && !GroupReports.Initiates(g, Act(i))
    ensures Next(g, Act(i)).exitCode == g.exitCode
  {
    var sig := g.tasks[i].at.sig;
    DeliverMeaning(g, i, sig);
    SignalStopMeaning(g, i, sig);
  }

  /** While a stop is active only SIGCONT and the group exit end it, and only they
      change the exit code. */
  lemma ActiveStepKeepsCode(g: Group, s: Step)
    requires StopInv(g) && Enabled(g, s) && StopActive(g)
    requires !GroupReports.Overtakes(g, s) && !Next(g, s).flags.groupExit
    ensures StopActive(Next(g, s)) && Next(g, s).exitCode == g.exitCode
  {
    if g.flags.groupExit {
      GroupExitStays(g, s);
    } else if Generated(s) != 0 {
      GroupReports.GenerateFlags(g, s);
      GeneratedCode(g, s);
    } else {
      ActiveOwnStep(g, s);
    }
  }

  lemma ActiveOwnStep(g: Group, s: Step)
    requires StopInv(g) && Enabled(g, s) && StopActive(g) && Generated(s) == 0
    ensures StopActive(Next(g, s)) && Next(g, s).exitCode == g.exitCode
  {
    GroupReports.OwnFlags(g, s);
    OwnCode(g, s);
    match Participant(g, s)
    case Joins(i, b) => JoinedIsActive(g, i, b, Next(g, s), GroupReports.Initiates(g, s));
    case Nobody =>
  }

  /** SIGCONT that overtakes a stop leaves no exit code. */
  lemma OvertakenCode(g: Group, s: Step)
    requires Enabled(g, s) && GroupReports.Overtakes(g, s)
    ensures !StopActive(Next(g, s)) && Next(g, s).exitCode == 0
  {
    GroupReports.GenerateFlags(g, s);
    GeneratedCode(g, s);
  }

  lemma ExitWasNotBefore(gs: seq<Group>, ss: seq<Step>, k: nat, m: nat)
    requires Run(gs, ss) && k <= m <= |ss| && !gs[m].flags.groupExit
    ensures !gs[k].flags.groupExit
  {
    if gs[k].flags.groupExit {
      GroupExitIsPermanent(gs, ss, k, m);
    }
  }

  /** SIGCONT overtakes no stop in the steps from k up to m. */
  ghost predicate NotOvertaken(gs: seq<Group>, ss: seq<Step>, k: nat, m: nat)
    requires Path(gs, ss)
  {
    m <= |ss| && forall l :: k <= l < m ==> !GroupReports.Overtakes(gs[l], ss[l])
  }

  lemma RunInitiates(gs: seq<Group>, ss: seq<Step>, k: nat)
    requires Run(gs, ss) && k < |ss| && GroupReports.Initiates(gs[k], ss[k])
    ensures StopActive(gs[k + 1]) && gs[k + 1].exitCode == StopSignal(gs[k], ss[k])
  {
    InitialStopInv(gs[0]);
    PathKeepsStopInv(gs, ss, k);
    InitiatedCode(gs[k], ss[k]);
  }

  lemma RunKeepsCode(gs: seq<Group>, ss: seq<Step>, l: nat)
    requires Run(gs, ss) && l < |ss| && StopActive(gs[l])
    requires !GroupReports.Overtakes(gs[l], ss[l]) && !gs[l + 1].flags.groupExit
    ensures StopActive(gs[l + 1]) && gs[l + 1].exitCode == gs[l].exitCode
  {
    InitialStopInv(gs[0]);
    PathKeepsStopInv(gs, ss, l);
    ActiveStepKeepsCode(gs[l], ss[l]);
  }

  /** A value that every step from k to m keeps while a flag is set, and the flag
      with it. */
  lemma {:induction false} ValueLasts(flags: seq<bool>, values: seq<int>, k: nat, m: nat)
    requires |flags| == |values| && k <= m < |values| && flags[k]
    requires forall l :: k <= l < m && flags[l] ==> flags[l + 1] && values[l + 1] == values[l]
    ensures flags[m] && values[m] == values[k]
  {
    if k < m {
      ValueLasts(flags, values, k, m - 1);
      assert flags[m - 1];
    }
  }

  lemma ActiveStep(gs: seq<Group>, ss: seq<Step>, k: nat, m: nat, l: nat)
    requires Run(gs, ss) && k <= l < m <= |ss| && StopActive(gs[l]) && !gs[m].flags.groupExit
    requires NotOvertaken(gs, ss, k, m)
    ensures StopActive(gs[l + 1]) && gs[l + 1].exitCode == gs[l].exitCode
  {
    ExitWasNotBefore(gs, ss, l + 1, m);
    RunKeepsCode(gs, ss, l);
  }

  lemma ActiveKeepsCode(gs: seq<Group>, ss: seq<Step>, k: nat, m: nat)
    requires Run(gs, ss) && k <= m <= |ss| && StopActive(gs[k]) && !gs[m].flags.groupExit
    requires NotOvertaken(gs, ss, k, m)
    ensures StopActive(gs[m]) && gs[m].exitCode == gs[k].exitCode
  {
    var flags := seq(|gs|, j requires 0 <= j < |gs| => StopActive(gs[j]));
    var values := seq(|gs|, j requires 0 <= j < |gs| => gs[j].exitCode);
    forall l | k <= l < m && flags[l]
      ensures flags[l + 1] && values[l + 1] == values[l]
    {
      ActiveStep(gs, ss, k, m, l);
    }
    ValueLasts(flags, values, k, m);
  }

  /** The exit code of a stop: from the step that starts a group stop, and as long as
      no SIGCONT overtakes it and the group does not exit, the stop is active and the
      exit code is the signal it was started for. */
  lemma StopCodeLasts(gs: seq<Group>, ss: seq<Step>, k: nat, m: nat)
    requires Run(gs, ss) && k < m <= |ss| && GroupReports.Initiates(gs[k], ss[k]) && !gs[m].flags.groupExit
    requires NotOvertaken(gs, ss, k + 1, m)
    ensures StopActive(gs[m]) && gs[m].exitCode == StopSignal(gs[k], ss[k])
  {
    RunInitiates(gs, ss, k);
    ActiveKeepsCode(gs, ss, k + 1, m);
  }
}
