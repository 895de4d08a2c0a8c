/** Group-stop accounting and the permanence of group exit, over every run. */
module GroupStop {
  import opened Signals
  import opened SigQueue
  import opened GroupState
  import opened GroupRun

  function Consumers(ts: seq<Task>): set<nat> {
    set j: nat | j < |ts| && ts[j].job.consume
  }

  /** Marked to consume, stopped, or exiting. */
  predicate Halting(t: Task) {
    t.job.consume || t.state == Stopped || t.exiting
  }

  predicate TaskInv(t: Task, solo: bool) {
    && t.job.consume == t.job.stopPending
    && (t.job.stopPending ==> t.tif && !t.exiting && t.state != Stopped && !solo)
    && SIGKILL !in t.blocked && SIGKILL !in t.realBlocked
    && (t.state == Stopped ==> t.at == Relock && !t.exiting)
  }

  ghost predicate TasksInv(ts: seq<Task>) {
    forall j :: 0 <= j < |ts| ==> TaskInv(ts[j], |ts| == 1)
  }

  /** While the group lives: a stop in progress or completed halts everyone, and
      SIGKILL pending on a thread only ever means it is already exiting. */
  ghost predicate LivingInv(g: Group) {
    && (forall j :: 0 <= j < |g.tasks| ==> SIGKILL in g.tasks[j].pending.signal ==> g.tasks[j].exiting)
    && (forall j :: 0 <= j < |g.tasks| ==> g.tasks[j].state == Stopped ==> StopActive(g))
    && (StopActive(g) ==> forall j :: 0 <= j < |g.tasks| ==> Halting(g.tasks[j]))
    && (g.flags.stopped ==> g.stopCount == 0)
  }

  /** Once the group is exiting: nobody stops any more and no flag but
      SIGNAL_GROUP_EXIT is left. */
  ghost predicate DyingInv(g: Group) {
    && g.flags == EXIT_FLAGS
    && forall j :: 0 <= j < |g.tasks| ==> !g.tasks[j].job.stopPending && g.tasks[j].state != Stopped
  }

  ghost predicate StopInv(g: Group) {
    && Ok(g)
    && Action(g, SIGKILL) == Default
    && TasksInv(g.tasks)
    && g.stopCount == |Consumers(g.tasks)|
    && if g.flags.groupExit then DyingInv(g) else LivingInv(g)
  }

  // ------------------------------------------------- steps that do not matter

  /** A change of one thread that leaves the stop protocol alone. */
  predicate Mild(t: Task, u: Task) {
    && u.job.consume == t.job.consume && u.job.stopPending == t.job.stopPending
    && u.exiting == t.exiting
    && (u.state == Stopped <==> t.state == Stopped) && (u.state == Stopped ==> u.at == t.at)
    && (t.job.stopPending && t.tif ==> u.tif)
    && (SIGKILL in u.pending.signal ==> SIGKILL in t.pending.signal)
    && (SIGKILL in u.blocked ==> SIGKILL in t.blocked || SIGKILL in t.realBlocked)
    && (SIGKILL in u.realBlocked ==> SIGKILL in t.blocked || SIGKILL in t.realBlocked)
  }

  ghost predicate AllMild(ts: seq<Task>, us: seq<Task>) {
    |us| == |ts| && forall j :: 0 <= j < |ts| ==> Mild(ts[j], us[j])
  }

  lemma MildStep(g: Group, h: Group)
    requires StopInv(g) && Ok(h) && AllMild(g.tasks, h.tasks)
    requires h.flags == g.flags || (!g.flags.groupExit && !h.flags.groupExit && h.flags.stopped == g.flags.stopped)
    requires h.stopCount == g.stopCount && Action(h, SIGKILL) == Default
    ensures StopInv(h)
  {
    assert Consumers(h.tasks) == Consumers(g.tasks);
    assert TasksInv(h.tasks) by {
      forall j | 0 <= j < |h.tasks|
        ensures TaskInv(h.tasks[j], |h.tasks| == 1)
      {
        assert Mild(g.tasks[j], h.tasks[j]);
      }
    }
    assert StopActive(h) == StopActive(g);
    forall j | 0 <= j < |h.tasks|
      ensures Mild(g.tasks[j], h.tasks[j])
      ensures Halting(g.tasks[j]) ==> Halting(h.tasks[j])
    {
    }
  }

  lemma MildOne(ts: seq<Task>, i: nat, u: Task)
    requires i < |ts| && Mild(ts[i], u)
    ensures AllMild(ts, ts[i := u])
  {
  }

  // ------------------------------------------------------- generating signals

  lemma NobodyConsumes(ts: seq<Task>)
    requires forall j :: 0 <= j < |ts| ==> !ts[j].job.consume
    ensures Consumers(ts) == {}
  {
  }

  lemma PrepareKeeps(g: Group, sig: Signo)
    requires StopInv(g)
    ensures StopInv(Prepare(g, sig)) && Action(Prepare(g, sig), SIGKILL) == Default
  {
    var h := Prepare(g, sig);
    if !g.flags.groupExit && sig in STOP_SIGNALS {
      MildStep(g, h);
    } else if !g.flags.groupExit && sig == SIGCONT {
      NobodyConsumes(h.tasks);
      NobodyConsumes(ContinueAll(g.tasks));
      forall j | 0 <= j < |h.tasks|
        ensures TaskInv(h.tasks[j], |h.tasks| == 1) && h.tasks[j].state != Stopped
      {
        assert TaskInv(g.tasks[j], |g.tasks| == 1);
      }
      assert !h.flags.groupExit && !StopActive(h);
      assert LivingInv(h);
    }
  }

  lemma KillKeeps(g: Group, h: Group)
    requires Ok(h) && TasksInv(g.tasks) && Action(h, SIGKILL) == Default
    requires h.tasks == KillAll(g.tasks) && h.flags == EXIT_FLAGS && h.stopCount == 0
    ensures StopInv(h)
  {
    NobodyConsumes(h.tasks);
    forall j | 0 <= j < |h.tasks|
      ensures TaskInv(h.tasks[j], |h.tasks| == 1)
    {
      assert TaskInv(g.tasks[j], |g.tasks| == 1);
    }
  }

  lemma CompleteKeeps(g: Group, sig: Signo, p: nat, group: bool, onCpu: set<nat>)
    requires StopInv(g) && ValidTask(g, p)
    ensures StopInv(Complete(g, sig, p, group, onCpu))
  {
    var t := Pick(g, sig, p, group, onCpu);
    var h := Complete(g, sig, p, group, onCpu);
    if t != -1 {
      assert TaskInv(g.tasks[t], |g.tasks| == 1);
      if TakesGroupDown(g, sig, g.tasks[t]) {
        KillKeeps(g, h);
      } else {
        assert sig == SIGKILL ==> g.flags.groupExit;
        MildOne(g.tasks, t, WakeUp(g.tasks[t], sig == SIGKILL));
        MildStep(g, h);
      }
    }
  }

  lemma TasksInvUpdate(ts: seq<Task>, i: nat, u: Task)
    requires TasksInv(ts) && i < |ts| && TaskInv(u, |ts| == 1)
    ensures TasksInv(ts[i := u])
  {
  }

  /** Queueing a signal and completing it: a private SIGKILL either starts the
      group exit or met a thread that is exiting anyway. */
  lemma QueueKeeps(g: Group, sig: Signo, p: nat, group: bool, q: Pending, onCpu: set<nat>)
    requires StopInv(g) && ValidTask(g, p)
    requires q.signal == Queue(g, p, group).signal + {sig}
    ensures StopInv(Complete(SetQueue(g, p, group, q), sig, p, group, onCpu))
  {
    var g1 := SetQueue(g, p, group, q);
    var t := g.tasks[p];
    assert TaskInv(t, |g.tasks| == 1);
    if !group && sig == SIGKILL && !g.flags.groupExit && !t.exiting {
      var h := Complete(g1, sig, p, group, onCpu);
      assert Pick(g1, sig, p, group, onCpu) == p;
      TasksInvUpdate(g.tasks, p, t.(pending := q));
      KillKeeps(g1, h);
    } else {
      if !group && sig != SIGKILL {
        MildOne(g.tasks, p, t.(pending := q));
        MildStep(g, g1);
      } else if !group {
        TasksInvUpdate(g.tasks, p, t.(pending := q));
        assert Consumers(g1.tasks) == Consumers(g.tasks);
        assert StopInv(g1);
      }
      CompleteKeeps(g1, sig, p, group, onCpu);
    }
  }

  lemma SendKeeps(g: Group, sig: Signo, src: Source, p: nat, group: bool, slot: Slot, onCpu: set<nat>)
    requires StopInv(g) && ValidTask(g, p)
    ensures StopInv(Send(g, sig, src, p, group, slot, onCpu))
  {
    PrepareKeeps(g, sig);
    var g1 := Prepare(g, sig);
    var r := SendTo(Queue(g1, p, group), sig, src, slot);
    if r.Accepted? {
      QueueKeeps(g1, sig, p, group, r.queue, onCpu);
    }
  }

  lemma SendSigqueueKeeps(g: Group, q: Rec, p: nat, group: bool, onCpu: set<nat>)
    requires StopInv(g) && ValidTask(g, p)
    ensures StopInv(SendSigqueue(g, q, p, group, onCpu))
  {
    PrepareKeeps(g, q.info.signo);
    var g1 := Prepare(g, q.info.signo);
    QueueKeeps(g1, q.info.signo, p, group, Append(Queue(g1, p, group), q), onCpu);
  }

  lemma ForceKeeps(g: Group, sig: Signo, src: Source, p: nat, slot: Slot, onCpu: set<nat>)
    requires StopInv(g) && ValidTask(g, p)
    ensures StopInv(ForceSig(g, sig, src, p, slot, onCpu))
  {
    var h := ForceBase(g, sig, p);
    MildOne(g.tasks, p, h.tasks[p]);
    MildStep(g, h);
    SendKeeps(h, sig, src, p, false, slot, onCpu);
  }

  lemma SigactionKeeps(g: Group, sig: Signo, d: Disposition)
    requires StopInv(g)
    ensures StopInv(Sigaction(g, sig, d))
  {
    MildStep(g, Sigaction(g, sig, d));
  }

  // ------------------------------------------------------------- own steps

  /** A change of thread i alone that leaves the stop protocol alone. */
  lemma OwnStepKeeps(g: Group, h: Group, i: nat, u: Task)
    requires StopInv(g) && ValidTask(g, i) && Mild(g.tasks[i], u)
    requires h.tasks == g.tasks[i := u] && h.target == g.target && h.stopCount == g.stopCount
    requires h.flags == g.flags && Action(h, SIGKILL) == Default
    ensures StopInv(h)
  {
    MildOne(g.tasks, i, u);
    MildStep(g, h);
  }

  lemma {:induction false} RetargetMild(ts: seq<Task>, i: nat, k: nat, which: set<Signo>)
    requires i < |ts| && 1 <= k <= |ts|
    ensures AllMild(ts, RetargetFrom(ts, i, k, which))
    ensures RetargetFrom(ts, i, k, which)[i] == ts[i]
    decreases |ts| - k
  {
    if k < |ts| && which != {} {
      var j := Ring(i, k, |ts|);
      var t := ts[j];
      if t.exiting || !HasPending(which, t.blocked) {
        RetargetMild(ts, i, k + 1, which);
      } else {
        var ts1 := if t.tif then ts else ts[j := WakeUp(t, false)];
        RetargetMild(ts1, i, k + 1, which * t.blocked);
        var r := RetargetFrom(ts1, i, k + 1, which * t.blocked);
        forall m | 0 <= m < |ts|
          ensures Mild(ts[m], r[m])
        {
          assert Mild(ts1[m], r[m]);
        }
      }
    }
  }

  lemma RetargetKeeps(g: Group, i: nat, which: set<Signo>)
    requires StopInv(g) && ValidTask(g, i)
    ensures StopInv(Retarget(g, i, which)) && Retarget(g, i, which).tasks[i] == g.tasks[i]
    ensures |Retarget(g, i, which).tasks| == |g.tasks|
  {
    RetargetMild(g.tasks, i, 1, g.shared.signal * which);
    MildStep(g, Retarget(g, i, which));
  }

  lemma SetBlockedKeeps(g: Group, i: nat, newset: set<Signo>)
    requires StopInv(g) && Runs(g, i) && SIGKILL !in newset
    ensures StopInv(SetBlocked(g, i, newset))
  {
    var t := g.tasks[i];
    var g1 := if t.tif && |g.tasks| > 1 then Retarget(g, i, newset - t.blocked) else g;
    RetargetKeeps(g, i, newset - t.blocked);
    OwnStepKeeps(g1, SetBlocked(g, i, newset), i, Recalc(g.shared, t.(blocked := newset)));
  }

  lemma TakeKeeps(g: Group, i: nat, mask: set<Signo>, at: Point)
    requires StopInv(g) && Runs(g, i)
    ensures StopInv(Take(g, i, mask).group) && StopInv(Move(Take(g, i, mask).group, i, at))
  {
    var h := Take(g, i, mask).group;
    OwnStepKeeps(g, h, i, h.tasks[i]);
    OwnStepKeeps(g, Move(h, i, at), i, h.tasks[i].(at := at));
  }

  lemma MoveKeeps(g: Group, i: nat, at: Point)
    requires StopInv(g) && Runs(g, i)
    ensures StopInv(Move(g, i, at))
  {
    OwnStepKeeps(g, Move(g, i, at), i, g.tasks[i].(at := at));
  }

  // ----------------------------------------------------------------- stopping

  /** A thread that is neither halting nor exiting proves that no stop is active. */
  lemma NoStopActive(g: Group, i: nat)
    requires StopInv(g) && Runs(g, i) && !g.tasks[i].job.stopPending
    ensures !StopActive(g) && Consumers(g.tasks) == {}
  {
    assert TaskInv(g.tasks[i], |g.tasks| == 1);
    if g.flags.groupExit {
      NobodyConsumes(g.tasks);
    }
    assert !StopActive(g);
    assert |Consumers(g.tasks)| == 0;
  }

  /** A stop under way in which thread i is about to take part. */
  ghost predicate Engaged(g: Group, i: nat) {
    && ValidTask(g, i) && !g.flags.groupExit && !g.flags.stopped
    && Action(g, SIGKILL) == Default
    && g.stopCount == |Consumers(g.tasks)|
    && g.tasks[i].job.consume
    && (forall j :: 0 <= j < |g.tasks| && j != i ==> TaskInv(g.tasks[j], |g.tasks| == 1))
    && (forall j :: 0 <= j < |g.tasks| && j != i ==> Halting(g.tasks[j]))
    && (forall j :: 0 <= j < |g.tasks| && j != i ==>
          SIGKILL in g.tasks[j].pending.signal ==> g.tasks[j].exiting)
  }

  lemma PendingIsEngaged(g: Group, i: nat)
    requires StopInv(g) && Runs(g, i) && g.tasks[i].job.stopPending
    ensures Engaged(g, i) && g.stopCount > 0
  {
    assert TaskInv(g.tasks[i], |g.tasks| == 1);
    assert i in Consumers(g.tasks);
    assert |Consumers(g.tasks)| > 0;
    assert !g.flags.groupExit;
  }

  lemma InitIsEngaged(g: Group, i: nat, sig: int)
    requires StopInv(g) && Runs(g, i) && !g.tasks[i].job.stopPending && !g.flags.groupExit
    ensures Engaged(InitStop(g, i, sig), i) && InitStop(g, i, sig).stopCount > 0
  {
    NoStopActive(g, i);
    var h := InitStop(g, i, sig);
    forall j | 0 <= j < |g.tasks|
      ensures CanMark(g.tasks[j], j == i) <==> !g.tasks[j].exiting
      ensures j != i ==> TaskInv(h.tasks[j], |g.tasks| == 1) && Halting(h.tasks[j])
      ensures h.tasks[j].job.consume <==> !g.tasks[j].exiting
    {
      assert TaskInv(g.tasks[j], |g.tasks| == 1);
      assert j !in Consumers(g.tasks);
    }
    assert Consumers(h.tasks) == MarkSet(g.tasks, i);
    assert i in Consumers(h.tasks);
    assert |Consumers(h.tasks)| > 0;
  }

  /** Taking part: thread i ends up as `u`, stopped or exiting, and the count
      stays the number of threads still to consume; the last one completes. */
  lemma ParticipateKeeps(g: Group, i: nat, u: Task, h: Group)
    requires Engaged(g, i) && TaskInv(u, |g.tasks| == 1)
    requires !u.job.consume && (u.state == Stopped || u.exiting)
    requires SIGKILL in u.pending.signal ==> u.exiting
    requires var p := Participate(g, i); h == p.(tasks := p.tasks[i := u])
    ensures StopInv(h)
    ensures Completes(g, i) <==> h.flags.stopped
    ensures Completes(g, i) <==> h.stopCount == 0
  {
    assert i in Consumers(g.tasks);
    assert Consumers(h.tasks) == Consumers(g.tasks) - {i};
    assert h.stopCount == |Consumers(h.tasks)|;
    forall j | 0 <= j < |h.tasks|
      ensures TaskInv(h.tasks[j], |h.tasks| == 1) && Halting(h.tasks[j])
    {
    }
    assert StopActive(h);
  }

  /** The base of a stop that is not cancelled is engaged: task_participate_group_stop
      never meets a thread without STOP_PENDING or a zero count. */
  lemma StopIsEngaged(g: Group, i: nat, sig: int)
    requires StopInv(g) && Runs(g, i) && !StopCancelled(g, i)
    ensures Engaged(StopBase(g, i, sig), i) && StopBase(g, i, sig).stopCount > 0
    ensures StopBase(g, i, sig).tasks[i].job.stopPending
    ensures StopBase(g, i, sig).flags == g.flags
    ensures var b := StopBase(g, i, sig); b.tasks[i] == g.tasks[i].(job := b.tasks[i].job)
  {
    if g.tasks[i].job.stopPending {
      PendingIsEngaged(g, i);
    } else {
      InitIsEngaged(g, i, sig);
    }
  }

  lemma SignalStopKeeps(g: Group, i: nat, sig: int)
    requires StopInv(g) && Runs(g, i)
    ensures StopInv(SignalStop(g, i, sig))
  {
    if StopCancelled(g, i) {
      MoveKeeps(g, i, Loop);
    } else {
      StopIsEngaged(g, i, sig);
      var b := StopBase(g, i, sig);
      var h := DoStop(g, i, sig);
      assert TaskInv(g.tasks[i], |g.tasks| == 1);
      if g.tasks[i].job.stopPending {
        PendingIsEngaged(g, i);
      }
      assert LivingInv(g);
      ParticipateKeeps(b, i, h.tasks[i], h);
    }
  }

  /** Resetting a one-shot handler. */
  lemma ResetKeeps(g: Group, sig: Signo)
    requires StopInv(g)
    ensures StopInv(g.(action := g.action[sig := Default]))
  {
  }

  lemma DeliverKeeps(g: Group, i: nat, sig: Signo)
    requires StopInv(g) && Runs(g, i)
    ensures StopInv(Deliver(g, i, sig))
  {
    match Action(g, sig)
    case Ignore => MoveKeeps(g, i, Loop);
    case Handler(oneshot) =>
      ResetKeeps(g, sig);
      MoveKeeps(if oneshot then g.(action := g.action[sig := Default]) else g, i, User);
    case Default =>
      if sig == SIGSTOP {
        SignalStopKeeps(g, i, sig);
      } else {
        MoveKeeps(g, i, Deliver(g, i, sig).tasks[i].at);
      }
  }

  // ------------------------------------------------------------------ exiting

  lemma SetExitingKeeps(g: Group, i: nat)
    requires StopInv(g) && Runs(g, i) && !g.tasks[i].job.stopPending
    ensures StopInv(SetExiting(g, i))
  {
    var h := SetExiting(g, i);
    TasksInvUpdate(g.tasks, i, h.tasks[i]);
    assert Consumers(h.tasks) == Consumers(g.tasks);
  }

  lemma ExitLockedKeeps(g: Group, i: nat)
    requires StopInv(g) && Runs(g, i)
    ensures StopInv(ExitLocked(g, i))
  {
    var g1 := SetExiting(g, i);
    var g2 := Retarget(g1, i, ALL - g.tasks[i].blocked);
    var h := ExitLocked(g, i);
    assert TaskInv(g.tasks[i], |g.tasks| == 1);
    if !g.tasks[i].tif {
      SetExitingKeeps(g, i);
    } else {
      RetargetMild(g1.tasks, i, 1, g1.shared.signal * (ALL - g.tasks[i].blocked));
      var back := g2.(tasks := g2.tasks[i := g.tasks[i]]);
      assert AllMild(g.tasks, back.tasks) by {
        forall j | 0 <= j < |g.tasks|
          ensures Mild(g.tasks[j], back.tasks[j])
        {
          assert Mild(g1.tasks[j], g2.tasks[j]);
        }
      }
      MildStep(g, back);
      assert g2.tasks == back.tasks[i := g2.tasks[i]];
      assert g2 == SetExiting(back, i);
      if g.tasks[i].job.stopPending {
        PendingIsEngaged(back, i);
        assert Consumers(g2.tasks) == Consumers(back.tasks);
        ParticipateKeeps(g2, i, h.tasks[i], h);
      } else {
        SetExitingKeeps(back, i);
      }
    }
  }

  // -------------------------------------------------------------- whole runs

  lemma WaitBeginKeeps(g: Group, i: nat, mask: set<Signo>)
    requires StopInv(g) && Runs(g, i)
    ensures StopInv(BeginTimedWait(g, i, mask))
  {
    OwnStepKeeps(g, BeginTimedWait(g, i, mask), i, BeginTimedWait(g, i, mask).tasks[i]);
  }

  lemma WaitEndKeeps(g: Group, i: nat)
    requires StopInv(g) && Runs(g, i)
    ensures StopInv(EndTimedWait(g, i))
  {
    var g1 := SetBlocked(g, i, g.tasks[i].realBlocked);
    assert TaskInv(g.tasks[i], |g.tasks| == 1);
    SetBlockedKeeps(g, i, g.tasks[i].realBlocked);
    OwnStepKeeps(g1, EndTimedWait(g, i), i, EndTimedWait(g, i).tasks[i]);
  }

  lemma EnterLoopKeeps(g: Group, i: nat)
    requires StopInv(g) && Runs(g, i)
    ensures StopInv(EnterLoop(g, i))
  {
    if g.flags.cldStopped || g.flags.cldContinued {
      MildStep(g, EnterLoop(g, i));
    } else {
      MoveKeeps(g, i, Loop);
    }
  }

  lemma LoopTakeKeeps(g: Group, i: nat)
    requires StopInv(g) && Runs(g, i)
    ensures StopInv(LoopTake(g, i))
  {
    var r := Take(g, i, g.tasks[i].blocked);
    TakeKeeps(g, i, g.tasks[i].blocked, if r.sig == 0 then User else Dispatch(r.sig));
  }

  lemma LeaveWindowKeeps(g: Group, i: nat, sig: Signo, orphaned: bool)
    requires StopInv(g) && Runs(g, i)
    ensures StopInv(if orphaned then Move(g, i, Relock) else SignalStop(g, i, sig))
  {
    if orphaned {
      MoveKeeps(g, i, Relock);
    } else {
      SignalStopKeeps(g, i, sig);
    }
  }

  lemma ExitUnlockedKeeps(g: Group, i: nat)
    requires StopInv(g) && Runs(g, i) && (|g.tasks| == 1 || g.flags.groupExit)
    ensures StopInv(SetExiting(g, i))
  {
    assert TaskInv(g.tasks[i], |g.tasks| == 1);
    SetExitingKeeps(g, i);
  }

  lemma SetStateKeeps(g: Group, i: nat, s: RunState)
    requires StopInv(g) && ValidTask(g, i) && g.tasks[i].state != Stopped && s != Stopped
    ensures StopInv(SetState(g, i, s))
  {
    OwnStepKeeps(g, SetState(g, i, s), i, SetState(g, i, s).tasks[i]);
  }

  lemma StepKeepsStopInv(g: Group, s: Step)
    requires StopInv(g) && Enabled(g, s)
    ensures StopInv(Next(g, s))
  {
    match s
    case Generate(sig, src, p, group, slot, onCpu) => SendKeeps(g, sig, src, p, group, slot, onCpu);
    case GenerateQueued(q, p, group, onCpu) => SendSigqueueKeeps(g, q, p, group, onCpu);
    case Force(sig, src, p, slot, onCpu) => ForceKeeps(g, sig, src, p, slot, onCpu);
    case SetAction(sig, d) => SigactionKeeps(g, sig, d);
    case SetMask(i, newset) => SetBlockedKeeps(g, i, newset);
    case WaitBegin(i, mask) => WaitBeginKeeps(g, i, mask);
    case WaitEnd(i) => WaitEndKeeps(g, i);
    case TakeSync(i, mask) => TakeKeeps(g, i, mask, User);
    case Enter(i) => MoveKeeps(g, i, Relock);
    case Lock(i) => EnterLoopKeeps(g, i);
    case StopInLoop(i) => SignalStopKeeps(g, i, 0);
    case TakeInLoop(i) => LoopTakeKeeps(g, i);
    case Act(i) => DeliverKeeps(g, i, g.tasks[i].at.sig);
    case LeaveWindow(i, orphaned) => LeaveWindowKeeps(g, i, g.tasks[i].at.sig, orphaned);
    case ExitUnlocked(i) => ExitUnlockedKeeps(g, i);
    case ExitWithLock(i) => ExitLockedKeeps(g, i);
    case Sleep(i, st) => SetStateKeeps(g, i, st);
    case Rouse(i) => SetStateKeeps(g, i, Running);
  }

  lemma InitialStopInv(g: Group)
    requires Initial(g)
    ensures StopInv(g)
  {
    NobodyConsumes(g.tasks);
    forall j | 0 <= j < |g.tasks|
      ensures TaskInv(g.tasks[j], |g.tasks| == 1)
    {
      assert g.tasks[j] in g.tasks;
    }
  }

  lemma {:induction false} PathKeepsStopInv(gs: seq<Group>, ss: seq<Step>, k: nat)
    requires Path(gs, ss) && k <= |ss| && StopInv(gs[0])
    ensures StopInv(gs[k])
  {
    if k > 0 {
      PathKeepsStopInv(gs, ss, k - 1);
      StepKeepsStopInv(gs[k - 1], ss[k - 1]);
    }
  }

  /** Group-stop accounting: in every state of every run the count is the number
      of threads still to consume; a stop that is active has marked, stopped or
      lost every thread; once it has completed all non-exiting threads are
      stopped; and no thread is stopped without an active stop. */
  lemma GroupStopAccounting(gs: seq<Group>, ss: seq<Step>, k: nat)
    requires Run(gs, ss) && k <= |ss|
    ensures var g := gs[k];
      && g.stopCount == |Consumers(g.tasks)|
      && (forall t :: t in g.tasks ==> t.job.consume ==> t.job.stopPending)
      && (StopActive(g) ==> forall t :: t in g.tasks ==> Halting(t))
      && (g.flags.stopped ==> forall t :: t in g.tasks ==> t.state == Stopped || t.exiting)
      && (forall t :: t in g.tasks && t.state == Stopped ==> StopActive(g))
  {
    InitialStopInv(gs[0]);
    PathKeepsStopInv(gs, ss, k);
    var g := gs[k];
    assert StopInv(g);
    forall t | t in g.tasks
      ensures t.job.consume ==> t.job.stopPending
      ensures StopActive(g) ==> Halting(t)
      ensures g.flags.stopped ==> t.state == Stopped || t.exiting
      ensures t.state == Stopped ==> StopActive(g)
    {
      var j :| 0 <= j < |g.tasks| && g.tasks[j] == t;
      assert TaskInv(t, |g.tasks| == 1);
      if g.flags.stopped {
        assert Consumers(g.tasks) == {};
        assert j !in Consumers(g.tasks);
      }
    }
  }

  datatype Participation = Nobody | Joins(i: nat, base: Group)

  /** Who enters task_participate_group_stop in a step, and the group found there. */
  function Participant(g: Group, s: Step): Participation
    requires Enabled(g, s)
  {
    match s
    case StopInLoop(i) => Joins(i, StopBase(g, i, 0))
    case Act(i) =>
      var sig := g.tasks[i].at.sig;
      if sig == SIGSTOP && Action(g, sig) == Default && !StopCancelled(g, i) then Joins(i, StopBase(g, i, sig))
      else Nobody
    case LeaveWindow(i, orphaned) =>
      if !orphaned && !StopCancelled(g, i) then Joins(i, StopBase(g, i, g.tasks[i].at.sig)) else Nobody
    case ExitWithLock(i) =>
      if g.tasks[i].tif && g.tasks[i].job.stopPending
      then Joins(i, ExitBase(g, i)) else Nobody
    case _ => Nobody
  }

  /** Both warnings of task_participate_group_stop are unreachable: a
      participating thread always has STOP_PENDING and the count is never zero. */
  lemma WarningsUnreachable(gs: seq<Group>, ss: seq<Step>, k: nat)
    requires Run(gs, ss) && k < |ss|
    ensures match Participant(gs[k], ss[k])
            case Joins(i, b) =>
              ValidTask(b, i) && b.tasks[i].job.stopPending && b.tasks[i].job.consume && b.stopCount > 0
            case Nobody => true
  {
    InitialStopInv(gs[0]);
    PathKeepsStopInv(gs, ss, k);
    var g := gs[k];
    match ss[k]
    case StopInLoop(i) => StopIsEngaged(g, i, 0);
    case Act(i) =>
      if !StopCancelled(g, i) {
        StopIsEngaged(g, i, g.tasks[i].at.sig);
      }
    case LeaveWindow(i, orphaned) =>
      if !StopCancelled(g, i) {
        StopIsEngaged(g, i, g.tasks[i].at.sig);
      }
    case ExitWithLock(i) =>
      if g.tasks[i].job.stopPending {
        PendingIsEngaged(g, i);
        var g1 := SetExiting(g, i);
        RetargetMild(g1.tasks, i, 1, g1.shared.signal * (ALL - g.tasks[i].blocked));
      }
    case _ =>
  }

  // --------------------------------------------------------------- group exit

  lemma GroupExitStays(g: Group, s: Step)
    requires StopInv(g) && Enabled(g, s) && g.flags.groupExit
    ensures Next(g, s).flags.groupExit
  {
    match s
    case StopInLoop(i) => assert false;
    case Act(i) =>
      assert !g.tasks[i].job.stopPending;
    case LeaveWindow(i, orphaned) =>
      assert !g.tasks[i].job.stopPending;
    case ExitWithLock(i) =>
      var g1 := SetExiting(g, i);
      RetargetMild(g1.tasks, i, 1, g1.shared.signal * (ALL - g.tasks[i].blocked));
    case _ =>
  }

  lemma DyingMeaning(g: Group)
    requires StopInv(g) && g.flags.groupExit
    ensures g.flags == EXIT_FLAGS && g.stopCount == 0
    ensures forall t :: t in g.tasks ==> !t.job.consume && !t.job.stopPending && t.state != Stopped
  {
    forall j | 0 <= j < |g.tasks|
      ensures !g.tasks[j].job.consume
    {
      assert TaskInv(g.tasks[j], |g.tasks| == 1);
    }
    NobodyConsumes(g.tasks);
  }

  lemma {:induction false} ExitFlagStays(gs: seq<Group>, ss: seq<Step>, k: nat, m: nat)
    requires Path(gs, ss) && StopInv(gs[0]) && k <= m <= |ss| && gs[k].flags.groupExit
    ensures gs[m].flags.groupExit
  {
    if k < m {
      ExitFlagStays(gs, ss, k, m - 1);
      PathKeepsStopInv(gs, ss, m - 1);
      GroupExitStays(gs[m - 1], ss[m - 1]);
    }
  }

  /** Group exit is permanent: from the state in which SIGNAL_GROUP_EXIT is set,
      through any further run, the flag stays, the stop count is 0, nobody holds
      STOP_CONSUME or is stopped, and no other signal flag ever comes back. */
  lemma GroupExitIsPermanent(gs: seq<Group>, ss: seq<Step>, k: nat, m: nat)
    requires Run(gs, ss) && k <= m <= |ss| && gs[k].flags.groupExit
    ensures gs[m].flags == EXIT_FLAGS && gs[m].stopCount == 0
    ensures forall t :: t in gs[m].tasks ==> !t.job.consume && !t.job.stopPending && t.state != Stopped
  {
    InitialStopInv(gs[0]);
    ExitFlagStays(gs, ss, k, m);
    PathKeepsStopInv(gs, ss, m);
    DyingMeaning(gs[m]);
  }
}
