/** No private signal is lost: a thread that could take a signal of its own queue is
    on the way to look, whether or not the group is exiting. */
module GroupPrivate {
  import opened Signals
  import opened SigQueue
  import opened GroupState
  import opened GroupRun
  import GroupQueues
  import opened GroupWakeups

  /** The thread is exiting, attends, or blocks whatever its own queue holds. */
  predicate Seen(t: Task) {
    t.exiting || Attends(t) || t.pending.signal <= t.blocked
  }

  ghost predicate AllSeen(g: Group) {
    forall j :: 0 <= j < |g.tasks| ==> Seen(g.tasks[j])
  }

  // ---------------------------------------------------------------- one thread

  /** After recalc_sigpending a thread has seen its own queue. */
  lemma RecalcSeen(shared: Pending, t: Task)
    ensures Seen(Recalc(shared, t))
  {
    if !MustAttend(shared, t) {
      AttendMeaning(shared, t);
      assert forall s :: s in t.pending.signal ==> s in t.blocked;
    }
  }

  lemma OneSeen(g: Group, h: Group, i: nat)
    requires AllSeen(g) && i < |g.tasks| == |h.tasks| && h.tasks == g.tasks[i := h.tasks[i]]
    requires Seen(h.tasks[i])
    ensures AllSeen(h)
  {
  }

  /** Threads that keep their mask and queue, and attend as before. */
  lemma SteadySeen(g: Group, h: Group)
    requires AllSeen(g) && AllSteady(g.tasks, h.tasks) && GroupQueues.SameQueues(g, h)
    ensures AllSeen(h)
  {
    forall j | 0 <= j < |h.tasks|
      ensures Seen(h.tasks[j])
    {
      assert Steady(g.tasks[j], h.tasks[j]) && Seen(g.tasks[j]);
    }
  }

  // ---------------------------------------------------------- generating signals

  lemma PrepareSeen(g: Group, sig: Signo)
    requires Awake(g) && AllSeen(g)
    ensures AllSeen(Prepare(g, sig))
  {
    var h := Prepare(g, sig);
    forall j | 0 <= j < |h.tasks|
      ensures Seen(h.tasks[j])
    {
      assert AwakeTask(g.tasks[j]) && Seen(g.tasks[j]);
    }
  }

  /** complete_signal deals with the signal that made thread p unseen. */
  lemma CompleteSeen(g: Group, sig: Signo, p: nat, group: bool, onCpu: set<nat>)
    requires ValidTask(g, p)
    requires forall j :: 0 <= j < |g.tasks| && (group || j != p) ==> Seen(g.tasks[j])
    requires !group ==> Seen(g.tasks[p]) || g.tasks[p].pending.signal <= g.tasks[p].blocked + {sig}
    ensures AllSeen(Complete(g, sig, p, group, onCpu))
  {
    var h, t := Complete(g, sig, p, group, onCpu), Pick(g, sig, p, group, onCpu);
    if t != -1 && TakesGroupDown(g, sig, g.tasks[t]) {
      assert h.tasks == KillAll(g.tasks);
    } else if !group && t == -1 {
      assert !Wants(g.tasks[p], sig, p in onCpu);
    }
  }

  lemma QueueSeen(g: Group, sig: Signo, p: nat, group: bool, q: Pending, onCpu: set<nat>)
    requires AllSeen(g) && ValidTask(g, p) && q.signal == Queue(g, p, group).signal + {sig}
    ensures AllSeen(Complete(SetQueue(g, p, group, q), sig, p, group, onCpu))
  {
    var g1 := SetQueue(g, p, group, q);
    assert Seen(g.tasks[p]);
    forall j | 0 <= j < |g1.tasks| && (group || j != p)
      ensures Seen(g1.tasks[j])
    {
      assert g1.tasks[j] == g.tasks[j];
    }
    CompleteSeen(g1, sig, p, group, onCpu);
  }

  lemma SendSeen(g: Group, sig: Signo, src: Source, p: nat, group: bool, slot: Slot, onCpu: set<nat>)
    requires Awake(g) && AllSeen(g) && ValidTask(g, p)
    ensures AllSeen(Send(g, sig, src, p, group, slot, onCpu))
  {
    PrepareSeen(g, sig);
    var g1 := Prepare(g, sig);
    var r := SendTo(Queue(g1, p, group), sig, src, slot);
    if r.Accepted? {
      QueueSeen(g1, sig, p, group, r.queue, onCpu);
    }
  }

  lemma SendSigqueueSeen(g: Group, q: Rec, p: nat, group: bool, onCpu: set<nat>)
    requires Awake(g) && AllSeen(g) && ValidTask(g, p)
    ensures AllSeen(SendSigqueue(g, q, p, group, onCpu))
  {
    PrepareSeen(g, q.info.signo);
    var g1 := Prepare(g, q.info.signo);
    QueueSeen(g1, q.info.signo, p, group, Append(Queue(g1, p, group), q), onCpu);
  }

  lemma ForceBaseSeen(g: Group, sig: Signo, p: nat)
    requires Awake(g) && AllSeen(g) && ValidTask(g, p)
    ensures AllSeen(ForceBase(g, sig, p)) && Awake(ForceBase(g, sig, p))
  {
    var t := g.tasks[p];
    var t1 := t.(blocked := t.blocked - {sig});
    assert AwakeTask(t) && Seen(t);
    if sig in t.blocked {
      AttendMeaning(g.shared, t1);
      assert MustAttend(g.shared, t1) || t1.pending.signal <= t1.blocked;
    } else {
      assert t1.blocked == t.blocked;
    }
    OneSeen(g, ForceBase(g, sig, p), p);
  }

  lemma ForceSeen(g: Group, sig: Signo, src: Source, p: nat, slot: Slot, onCpu: set<nat>)
    requires Awake(g) && AllSeen(g) && ValidTask(g, p)
    ensures AllSeen(ForceSig(g, sig, src, p, slot, onCpu))
  {
    ForceBaseSeen(g, sig, p);
    SendSeen(ForceBase(g, sig, p), sig, src, p, false, slot, onCpu);
  }

  lemma SigactionSeen(g: Group, sig: Signo, d: Disposition)
    requires AllSeen(g)
    ensures AllSeen(Sigaction(g, sig, d))
  {
    var h := Sigaction(g, sig, d);
    forall j | 0 <= j < |h.tasks|
      ensures Seen(h.tasks[j])
    {
      assert Seen(g.tasks[j]);
    }
  }

  // ------------------------------------------------------ masks and dequeuing

  lemma SetBlockedSeen(g: Group, i: nat, newset: set<Signo>)
    requires AllSeen(g) && ValidTask(g, i)
    ensures AllSeen(SetBlocked(g, i, newset))
  {
    var h := SetBlocked(g, i, newset);
    RetargetSteady(g.tasks, i, 1, g.shared.signal * (newset - g.tasks[i].blocked));
    GroupQueues.MaskSame(g, i, newset);
    RecalcSeen(g.shared, g.tasks[i].(blocked := newset));
    forall j | 0 <= j < |h.tasks|
      ensures Seen(h.tasks[j])
    {
      assert j != i ==> Steady(g.tasks[j], h.tasks[j]) && Seen(g.tasks[j]);
    }
  }

  lemma WaitEndSeen(g: Group, i: nat)
    requires AllSeen(g) && ValidTask(g, i)
    ensures AllSeen(EndTimedWait(g, i))
  {
    SetBlockedSeen(g, i, g.tasks[i].realBlocked);
    OneSeen(SetBlocked(g, i, g.tasks[i].realBlocked), EndTimedWait(g, i), i);
  }

  lemma WaitBeginSeen(g: Group, i: nat, mask: set<Signo>)
    requires AllSeen(g) && ValidTask(g, i)
    ensures AllSeen(BeginTimedWait(g, i, mask))
  {
    var t := g.tasks[i];
    RecalcSeen(g.shared, t.(realBlocked := t.blocked, blocked := t.blocked * mask));
    OneSeen(g, BeginTimedWait(g, i, mask), i);
  }

  /** Wherever the thread goes on after dequeue_signal. */
  lemma TakeSeen(g: Group, i: nat, mask: set<Signo>, at: Point)
    requires AllSeen(g) && Runs(g, i)
    ensures AllSeen(Take(g, i, mask).group) && AllSeen(Move(Take(g, i, mask).group, i, at))
  {
    var h := Take(g, i, mask).group;
    var u := h.tasks[i];
    TakeMeaning(g, i, mask);
    assert u.tif || u.pending.signal <= u.blocked by {
      if !u.tif {
        assert forall s :: s in u.pending.signal ==> s in u.pending.signal + h.shared.signal;
      }
    }
    OneSeen(g, h, i);
    OneSeen(h, Move(h, i, at), i);
  }

  lemma LoopTakeSeen(g: Group, i: nat)
    requires AllSeen(g) && Runs(g, i)
    ensures AllSeen(LoopTake(g, i))
  {
    var r := Take(g, i, g.tasks[i].blocked);
    TakeSeen(g, i, g.tasks[i].blocked, if r.sig == 0 then User else Dispatch(r.sig));
  }

  // ------------------------------------------------- stopping, exiting, the rest

  lemma StopSeen(g: Group, i: nat, sig: int)
    requires AllSeen(g) && Runs(g, i)
    ensures AllSeen(SignalStop(g, i, sig))
  {
    var h := SignalStop(g, i, sig);
    forall j | 0 <= j < |h.tasks|
      ensures Seen(h.tasks[j])
    {
      assert Seen(g.tasks[j]);
    }
  }

  lemma DeliverSeen(g: Group, i: nat)
    requires AllSeen(g) && Runs(g, i) && g.tasks[i].at.Dispatch?
    ensures AllSeen(Deliver(g, i, g.tasks[i].at.sig))
  {
    var sig := g.tasks[i].at.sig;
    if Action(g, sig) == Default && sig == SIGSTOP {
      StopSeen(g, i, sig);
    } else {
      assert Seen(g.tasks[i]);
      OneSeen(g, Deliver(g, i, sig), i);
    }
  }

  lemma ExitSeen(g: Group, i: nat)
    requires AllSeen(g) && Runs(g, i)
    ensures AllSeen(ExitLocked(g, i))
  {
    var h := ExitLocked(g, i);
    ExitSteady(g, i);
    GroupQueues.ExitSame(g, i);
    forall j | 0 <= j < |h.tasks|
      ensures Seen(h.tasks[j])
    {
      assert j != i ==> Steady(g.tasks[j], h.tasks[j]) && Seen(g.tasks[j]);
    }
  }

  lemma LeaveSeen(g: Group, i: nat, orphaned: bool)
    requires AllSeen(g) && Enabled(g, LeaveWindow(i, orphaned))
    ensures AllSeen(Next(g, LeaveWindow(i, orphaned)))
  {
    if orphaned {
      OneSeen(g, Move(g, i, Relock), i);
    } else {
      StopSeen(g, i, g.tasks[i].at.sig);
    }
  }

  lemma EnterLoopSeen(g: Group, i: nat)
    requires AllSeen(g) && ValidTask(g, i)
    ensures AllSeen(EnterLoop(g, i))
  {
    if !g.flags.cldStopped && !g.flags.cldContinued {
      OneSeen(g, EnterLoop(g, i), i);
    }
  }

  lemma SetStateSeen(g: Group, i: nat, s: RunState)
    requires AllSeen(g) && ValidTask(g, i) && g.tasks[i].state != Stopped
    ensures AllSeen(SetState(g, i, s))
  {
    assert Seen(g.tasks[i]);
    OneSeen(g, SetState(g, i, s), i);
  }

  // ------------------------------------------------------------------ whole runs

  lemma StepKeepsSeen(g: Group, s: Step)
    requires WakeInv(g) && AllSeen(g) && Enabled(g, s)
    ensures AllSeen(Next(g, s))
  {
    match s
    case Generate(sig, src, p, group, slot, onCpu) => SendSeen(g, sig, src, p, group, slot, onCpu);
    case GenerateQueued(q, p, group, onCpu) => SendSigqueueSeen(g, q, p, group, onCpu);
    case Force(sig, src, p, slot, onCpu) => ForceSeen(g, sig, src, p, slot, onCpu);
    case SetAction(sig, d) => SigactionSeen(g, sig, d);
    case SetMask(i, newset) => SetBlockedSeen(g, i, newset);
    case WaitBegin(i, mask) => WaitBeginSeen(g, i, mask);
    case WaitEnd(i) => WaitEndSeen(g, i);
    case TakeSync(i, mask) => TakeSeen(g, i, mask, User);
    case Enter(i) => OneSeen(g, Move(g, i, Relock), i);
    case Lock(i) => EnterLoopSeen(g, i);
    case StopInLoop(i) => StopSeen(g, i, 0);
    case TakeInLoop(i) => LoopTakeSeen(g, i);
    case Act(i) => DeliverSeen(g, i);
    case LeaveWindow(i, orphaned) => LeaveSeen(g, i, orphaned);
    case ExitUnlocked(i) => OneSeen(g, SetExiting(g, i), i);
    case ExitWithLock(i) => ExitSeen(g, i);
    case Sleep(i, st) => SetStateSeen(g, i, st);
    case Rouse(i) => SetStateSeen(g, i, Running);
  }

  lemma {:induction false} RunKeepsSeen(gs: seq<Group>, ss: seq<Step>, k: nat)
    requires Run(gs, ss) && k <= |ss|
    ensures AllSeen(gs[k])
  {
    if k == 0 {
      assert forall j :: 0 <= j < |gs[0].tasks| ==> gs[0].tasks[j] in gs[0].tasks;
    } else {
      RunKeepsSeen(gs, ss, k - 1);
      RunKeepsWakeInv(gs, ss, k - 1);
      StepKeepsSeen(gs[k - 1], ss[k - 1]);
    }
  }

  /** No lost private signal: in every state of every run, exiting group or not, a
      thread that is not exiting and leaves a signal of its own queue unblocked has
      TIF_SIGPENDING set and is not in an interruptible sleep, or is stopped, or is
      on its way back through get_signal_to_deliver. */
  lemma NoLostPrivateSignal(gs: seq<Group>, ss: seq<Step>, k: nat, i: nat, s: Signo)
    requires Run(gs, ss) && k <= |ss| && i < |gs[k].tasks|
    requires s in gs[k].tasks[i].pending.signal && s !in gs[k].tasks[i].blocked && !gs[k].tasks[i].exiting
    ensures var t := gs[k].tasks[i];
            (t.tif && t.state != Interruptible) || t.state == Stopped
            || t.at == Relock || t.at == Loop || t.at.Orphan?
  {
    RunKeepsSeen(gs, ss, k);
    RunKeepsWakeInv(gs, ss, k);
    var t := gs[k].tasks[i];
    assert Seen(t) && AwakeTask(t);
    assert !(t.pending.signal <= t.blocked);
  }
}
