/** SIGKILL cannot be missed: when it takes the group down, and what every thread
    then looks like. */
module GroupKill {
  import opened Signals
  import opened SigQueue
  import opened GroupState
  import opened GroupRun
  import opened GroupStop
  import opened GroupRace

  ghost predicate AllExiting(ts: seq<Task>) {
    forall j :: 0 <= j < |ts| ==> ts[j].exiting
  }

  /** SIGKILL stays pending on the shared queue of a living group only if nobody
      is left to take it, so a further one is never merged into it and lost. */
  ghost predicate KillInv(g: Group) {
    g.flags.groupExit || SIGKILL !in g.shared.signal || AllExiting(g.tasks)
  }

  /** Nobody comes back from exiting. */
  ghost predicate StayGone(ts: seq<Task>, us: seq<Task>) {
    |us| == |ts| && forall j :: 0 <= j < |ts| ==> ts[j].exiting ==> us[j].exiting
  }

  /** SIGKILL and TIF_SIGPENDING are set, and no sleep can hold the thread that a
      fatal signal may interrupt. */
  predicate Doomed(t: Task) {
    FatalPending(t) && t.state != Stopped && t.state != Interruptible && t.state != Killable
  }

  /** Whom SIGKILL can reach: any thread that is not exiting, or the one it was
      sent to. */
  ghost predicate Reachable(g: Group, p: nat, group: bool)
    requires ValidTask(g, p)
  {
    if group then !AllExiting(g.tasks) else !g.tasks[p].exiting
  }

  // ----------------------------------------------------- queueing and choosing

  /** Queueing SIGKILL for a living group takes the group down exactly if it can
      reach somebody. */
  lemma KillLands(g: Group, p: nat, group: bool, q: Pending, onCpu: set<nat>)
    requires StopInv(g) && ValidTask(g, p) && !g.flags.groupExit
    requires q.signal == Queue(g, p, group).signal + {SIGKILL}
    ensures var h := Complete(SetQueue(g, p, group, q), SIGKILL, p, group, onCpu);
            if Reachable(g, p, group)
            then h.flags == EXIT_FLAGS && h.stopCount == 0 && h.exitCode == SIGKILL
                 && forall t :: t in h.tasks ==> Doomed(t)
            else h == SetQueue(g, p, group, q)
  {
    var g1 := SetQueue(g, p, group, q);
    var h := Complete(g1, SIGKILL, p, group, onCpu);
    var t := Pick(g1, SIGKILL, p, group, onCpu);
    assert forall j :: 0 <= j < |g.tasks| ==> TaskInv(g.tasks[j], |g.tasks| == 1);
    assert forall j :: 0 <= j < |g.tasks| ==>
             g1.tasks[j].exiting == g.tasks[j].exiting && g1.tasks[j].blocked == g.tasks[j].blocked;
    if group {
      PickFindsWillingThread(g1, SIGKILL, p, onCpu);
    }
    if t != -1 {
      assert TakesGroupDown(g1, SIGKILL, g1.tasks[t]);
      assert h.tasks == KillAll(g1.tasks);
      forall u | u in h.tasks
        ensures Doomed(u)
      {
        var j :| 0 <= j < |h.tasks| && h.tasks[j] == u;
        assert u == Kill(g1.tasks[j]);
      }
    }
  }

  /** A living group merges a new SIGKILL into an old one only if it can reach
      nobody any more. */
  lemma NotMerged(g: Group, p: nat, group: bool)
    requires StopInv(g) && KillInv(g) && ValidTask(g, p) && !g.flags.groupExit && Reachable(g, p, group)
    ensures !LegacyQueued(Queue(g, p, group), SIGKILL)
  {
  }

  /** Whatever its source, and whether or not a record could be allocated. */
  lemma KillIsAccepted(p: Pending, src: Source, slot: Slot)
    requires !LegacyQueued(p, SIGKILL)
    ensures SendTo(p, SIGKILL, src, slot).Accepted?
  {
  }

  lemma PrepareIgnoresKill(g: Group)
    ensures Prepare(g, SIGKILL) == g
  {
  }

  /** SIGKILL sent to a living group. */
  lemma SendKill(g: Group, src: Source, p: nat, group: bool, slot: Slot, onCpu: set<nat>)
    requires StopInv(g) && KillInv(g) && ValidTask(g, p) && !g.flags.groupExit
    ensures var h := Send(g, SIGKILL, src, p, group, slot, onCpu);
            && KillInv(h) && StayGone(g.tasks, h.tasks)
            && (h.flags.groupExit <==> Reachable(g, p, group))
            && (Reachable(g, p, group) ==>
                  h.flags == EXIT_FLAGS && h.stopCount == 0 && forall t :: t in h.tasks ==> Doomed(t))
  {
    PrepareIgnoresKill(g);
    assert !SigIgnored(g, g.tasks[p], SIGKILL);
    var r := SendTo(Queue(g, p, group), SIGKILL, src, slot);
    if Reachable(g, p, group) {
      NotMerged(g, p, group);
      KillIsAccepted(Queue(g, p, group), src, slot);
    }
    if r.Accepted? {
      KillLands(g, p, group, r.queue, onCpu);
      ExitsStay(SetQueue(g, p, group, r.queue), SIGKILL, p, group, onCpu);
    }
  }

  // ----------------------------------------------------------------- all steps

  lemma ExitsStay(g: Group, sig: Signo, p: nat, group: bool, onCpu: set<nat>)
    requires ValidTask(g, p)
    ensures StayGone(g.tasks, Complete(g, sig, p, group, onCpu).tasks)
    ensures Complete(g, sig, p, group, onCpu).shared == g.shared
  {
  }

  /** Another signal adds itself at most to the shared queue. */
  lemma OtherLands(g: Group, sig: Signo, p: nat, group: bool, q: Pending, onCpu: set<nat>)
    requires ValidTask(g, p) && q.signal == Queue(g, p, group).signal + {sig} && sig != SIGKILL
    ensures var h := Complete(SetQueue(g, p, group, q), sig, p, group, onCpu);
            StayGone(g.tasks, h.tasks) && (SIGKILL in h.shared.signal ==> SIGKILL in g.shared.signal)
  {
    ExitsStay(SetQueue(g, p, group, q), sig, p, group, onCpu);
  }

  lemma PrepareLands(g: Group, sig: Signo)
    ensures var h := Prepare(g, sig);
            StayGone(g.tasks, h.tasks) && (SIGKILL in h.shared.signal ==> SIGKILL in g.shared.signal)
            && h.flags.groupExit == g.flags.groupExit && h.target == g.target
  {
  }

  lemma SendOther(g: Group, sig: Signo, src: Source, p: nat, group: bool, slot: Slot, onCpu: set<nat>)
    requires ValidTask(g, p) && sig != SIGKILL
    ensures var h := Send(g, sig, src, p, group, slot, onCpu);
            StayGone(g.tasks, h.tasks) && (SIGKILL in h.shared.signal ==> SIGKILL in g.shared.signal)
  {
    PrepareLands(g, sig);
    var g1 := Prepare(g, sig);
    var r := SendTo(Queue(g1, p, group), sig, src, slot);
    if r.Accepted? {
      OtherLands(g1, sig, p, group, r.queue, onCpu);
    }
  }

  lemma QueuedKeepsKill(g: Group, q: Rec, p: nat, group: bool, onCpu: set<nat>)
    requires StopInv(g) && KillInv(g) && ValidTask(g, p) && !g.flags.groupExit
    ensures KillInv(SendSigqueue(g, q, p, group, onCpu))
  {
    var sig := q.info.signo;
    PrepareLands(g, sig);
    var g1 := Prepare(g, sig);
    var x := Append(Queue(g1, p, group), q);
    if sig == SIGKILL {
      PrepareIgnoresKill(g);
      KillLands(g, p, group, x, onCpu);
    } else {
      OtherLands(g1, sig, p, group, x, onCpu);
    }
  }

  lemma SendKeepsKill(g: Group, sig: Signo, src: Source, p: nat, group: bool, slot: Slot, onCpu: set<nat>)
    requires StopInv(g) && KillInv(g) && ValidTask(g, p) && !g.flags.groupExit
    ensures KillInv(Send(g, sig, src, p, group, slot, onCpu))
  {
    if sig == SIGKILL {
      SendKill(g, src, p, group, slot, onCpu);
    } else {
      SendOther(g, sig, src, p, group, slot, onCpu);
    }
  }

  lemma ForceKeepsKill(g: Group, sig: Signo, src: Source, p: nat, slot: Slot, onCpu: set<nat>)
    requires StopInv(g) && KillInv(g) && ValidTask(g, p) && !g.flags.groupExit
    ensures KillInv(ForceSig(g, sig, src, p, slot, onCpu))
  {
    var h := ForceBase(g, sig, p);
    MildOne(g.tasks, p, h.tasks[p]);
    MildStep(g, h);
    SendKeepsKill(h, sig, src, p, false, slot, onCpu);
  }

  lemma RetargetStays(ts: seq<Task>, i: nat, which: set<Signo>)
    requires i < |ts|
    ensures StayGone(ts, RetargetFrom(ts, i, 1, which))
  {
    RetargetMild(ts, i, 1, which);
    forall j | 0 <= j < |ts|
      ensures ts[j].exiting ==> RetargetFrom(ts, i, 1, which)[j].exiting
    {
      assert Mild(ts[j], RetargetFrom(ts, i, 1, which)[j]);
    }
  }

  lemma SetBlockedStays(g: Group, i: nat, newset: set<Signo>)
    requires ValidTask(g, i)
    ensures StayGone(g.tasks, SetBlocked(g, i, newset).tasks)
  {
    RetargetStays(g.tasks, i, g.shared.signal * (newset - g.tasks[i].blocked));
  }

  lemma ExitStays(g: Group, i: nat)
    requires ValidTask(g, i)
    ensures StayGone(g.tasks, ExitLocked(g, i).tasks)
  {
    RetargetStays(SetExiting(g, i).tasks, i, g.shared.signal * (ALL - g.tasks[i].blocked));
  }

  lemma StopStays(g: Group, i: nat, sig: int)
    requires ValidTask(g, i)
    ensures StayGone(g.tasks, SignalStop(g, i, sig).tasks)
  {
  }

  lemma DeliverStays(g: Group, i: nat, sig: Signo)
    requires ValidTask(g, i)
    ensures StayGone(g.tasks, Deliver(g, i, sig).tasks)
  {
    StopStays(g, i, sig);
  }

  lemma TakeStays(g: Group, i: nat, mask: set<Signo>)
    requires ValidTask(g, i)
    ensures StayGone(g.tasks, Take(g, i, mask).group.tasks)
  {
  }

  lemma OneStays(g: Group, h: Group, i: nat)
    requires ValidTask(g, i) && |h.tasks| == |g.tasks| && h.tasks == g.tasks[i := h.tasks[i]]
    requires g.tasks[i].exiting ==> h.tasks[i].exiting
    ensures StayGone(g.tasks, h.tasks)
  {
  }

  /** Steps that generate nothing. */
  lemma OwnStepStays(g: Group, s: Step)
    requires Enabled(g, s) && Generated(s) == 0
    ensures StayGone(g.tasks, Next(g, s).tasks)
  {
    match s
    case Generate(_, _, _, _, _, _) => assert false;
    case GenerateQueued(_, _, _, _) => assert false;
    case Force(_, _, _, _, _) => assert false;
    case SetAction(_, _) =>
    case SetMask(i, newset) => SetBlockedStays(g, i, newset);
    case WaitEnd(i) => SetBlockedStays(g, i, g.tasks[i].realBlocked);
    case TakeSync(i, mask) => TakeStays(g, i, mask);
    case TakeInLoop(i) => TakeStays(g, i, g.tasks[i].blocked);
    case StopInLoop(i) => StopStays(g, i, 0);
    case Act(i) => DeliverStays(g, i, g.tasks[i].at.sig);
    case LeaveWindow(i, _) =>
      StopStays(g, i, g.tasks[i].at.sig);
      OneStays(g, Move(g, i, Relock), i);
    case ExitWithLock(i) => ExitStays(g, i);
    case Lock(i) =>
    case WaitBegin(i, mask) => OneStays(g, BeginTimedWait(g, i, mask), i);
    case Enter(i) => OneStays(g, Move(g, i, Relock), i);
    case ExitUnlocked(i) => OneStays(g, SetExiting(g, i), i);
    case Sleep(i, st) => OneStays(g, SetState(g, i, st), i);
    case Rouse(i) => OneStays(g, SetState(g, i, Running), i);
  }

  lemma StepKeepsKillInv(g: Group, s: Step)
    requires StopInv(g) && KillInv(g) && Enabled(g, s)
    ensures KillInv(Next(g, s))
  {
    if g.flags.groupExit {
      GroupExitStays(g, s);
    } else if Generated(s) == 0 {
      StepTame(g, s);
      OwnStepStays(g, s);
    } else {
      match s
      case Generate(sig, src, p, group, slot, onCpu) => SendKeepsKill(g, sig, src, p, group, slot, onCpu);
      case GenerateQueued(q, p, group, onCpu) => QueuedKeepsKill(g, q, p, group, onCpu);
      case Force(sig, src, p, slot, onCpu) => ForceKeepsKill(g, sig, src, p, slot, onCpu);
      case _ =>
    }
  }

  lemma {:induction false} RunKeepsKillInv(gs: seq<Group>, ss: seq<Step>, k: nat)
    requires Run(gs, ss) && k <= |ss|
    ensures StopInv(gs[k]) && KillInv(gs[k])
  {
    if k == 0 {
      InitialStopInv(gs[0]);
    } else {
      RunKeepsKillInv(gs, ss, k - 1);
      StepKeepsStopInv(gs[k - 1], ss[k - 1]);
      StepKeepsKillInv(gs[k - 1], ss[k - 1]);
    }
  }

  /** SIGKILL cannot be missed: sent in any reachable state of a living group,
      from any source, with or without memory for a record and whatever is pending
      already, it takes the group down if and only if it can reach a thread that is
      not exiting; then every thread has SIGKILL and TIF_SIGPENDING set and is in
      none of the sleeps that a fatal signal interrupts. */
  lemma KillCannotBeMissed(gs: seq<Group>, ss: seq<Step>, k: nat, src: Source, p: nat, group: bool, slot: Slot,
                           onCpu: set<nat>)
    requires Run(gs, ss) && k <= |ss| && ValidTask(gs[k], p) && !gs[k].flags.groupExit
    ensures var g, h := gs[k], Send(gs[k], SIGKILL, src, p, group, slot, onCpu);
      && (h.flags.groupExit <==>
            if group then exists t :: t in g.tasks && !t.exiting else !g.tasks[p].exiting)
      && (h.flags.groupExit ==>
            && h.flags == EXIT_FLAGS && h.stopCount == 0
            && forall t :: t in h.tasks ==>
                 && SIGKILL in t.pending.signal && t.tif
                 && t.state != Stopped && t.state != Interruptible && t.state != Killable)
  {
    RunKeepsKillInv(gs, ss, k);
    var g := gs[k];
    SendKill(g, src, p, group, slot, onCpu);
    if t :| t in g.tasks && !t.exiting {
      var j :| 0 <= j < |g.tasks| && g.tasks[j] == t;
      assert !AllExiting(g.tasks);
    }
    if !AllExiting(g.tasks) {
      var j :| 0 <= j < |g.tasks| && !g.tasks[j].exiting;
      assert g.tasks[j] in g.tasks;
    }
  }
}
