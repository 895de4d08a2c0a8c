/** Stop signals against SIGCONT: the race between a dequeued stop signal and an
    intervening SIGCONT, and the mutual exclusion of the two in the queues. */
module GroupRace {
  import opened Signals
  import opened SigQueue
  import opened GroupState
  import opened GroupRun
  import opened GroupStop

  /** A change of one thread that adds no pending signal and no stop state. */
  predicate CalmTask(t: Task, u: Task) {
    && u.pending.signal <= t.pending.signal
    && (u.job.dequeued ==> t.job.dequeued)
    && (u.job.stopPending ==> t.job.stopPending)
    && (u.state == Stopped ==> t.state == Stopped)
  }

  ghost predicate Calm(g: Group, h: Group) {
    && h.shared.signal <= g.shared.signal
    && |h.tasks| == |g.tasks|
    && forall j :: 0 <= j < |g.tasks| ==> CalmTask(g.tasks[j], h.tasks[j])
  }

  ghost predicate PendingIn(g: Group, s: Signo) {
    s in g.shared.signal || exists j :: 0 <= j < |g.tasks| && s in g.tasks[j].pending.signal
  }

  /** No stop signal is pending anywhere, and no thread is stopped, has to stop
      or remembers a dequeued stop signal. */
  ghost predicate Quiet(g: Group) {
    && g.shared.signal !! STOP_SIGNALS
    && forall j :: 0 <= j < |g.tasks| ==> QuietTask(g.tasks[j])
  }

  predicate QuietTask(t: Task) {
    t.pending.signal !! STOP_SIGNALS && !t.job.dequeued && !t.job.stopPending && t.state != Stopped
  }

  lemma CalmKeepsQuiet(g: Group, h: Group)
    requires Quiet(g) && Calm(g, h)
    ensures Quiet(h)
  {
    assert h.shared.signal !! STOP_SIGNALS;
    forall j | 0 <= j < |h.tasks|
      ensures QuietTask(h.tasks[j])
    {
      assert CalmTask(g.tasks[j], h.tasks[j]) && QuietTask(g.tasks[j]);
    }
  }

  lemma CalmOne(g: Group, h: Group, i: nat)
    requires i < |g.tasks| == |h.tasks| && h.tasks == g.tasks[i := h.tasks[i]]
    requires h.shared.signal <= g.shared.signal && CalmTask(g.tasks[i], h.tasks[i])
    ensures Calm(g, h)
  {
  }

  // ------------------------------------------------------------- calm steps

  lemma {:induction false} RetargetCalm(ts: seq<Task>, i: nat, k: nat, which: set<Signo>)
    requires i < |ts| && 1 <= k <= |ts|
    ensures forall j :: 0 <= j < |ts| ==> CalmTask(ts[j], RetargetFrom(ts, i, k, which)[j])
    decreases |ts| - k
  {
    if k < |ts| && which != {} {
      var j := Ring(i, k, |ts|);
      var t := ts[j];
      if t.exiting || !HasPending(which, t.blocked) {
        RetargetCalm(ts, i, k + 1, which);
      } else {
        var ts1 := if t.tif then ts else ts[j := WakeUp(t, false)];
        RetargetCalm(ts1, i, k + 1, which * t.blocked);
        var r := RetargetFrom(ts1, i, k + 1, which * t.blocked);
        forall m | 0 <= m < |ts|
          ensures CalmTask(ts[m], r[m])
        {
          assert CalmTask(ts1[m], r[m]);
        }
      }
    }
  }

  lemma SetBlockedCalm(g: Group, i: nat, newset: set<Signo>)
    requires ValidTask(g, i)
    ensures Calm(g, SetBlocked(g, i, newset))
  {
    RetargetCalm(g.tasks, i, 1, g.shared.signal * (newset - g.tasks[i].blocked));
  }

  lemma PrepareCalm(g: Group, sig: Signo)
    ensures Calm(g, Prepare(g, sig)) && Prepare(g, sig).target == g.target
    ensures Prepare(g, sig).flags.groupExit == g.flags.groupExit
    ensures !g.flags.groupExit && sig in STOP_SIGNALS ==> !PendingIn(Prepare(g, sig), SIGCONT)
    ensures !g.flags.groupExit && sig == SIGCONT ==> Quiet(Prepare(g, sig))
  {
    var h := Prepare(g, sig);
    if !g.flags.groupExit && sig == SIGCONT {
      assert h.shared.signal == g.shared.signal - STOP_SIGNALS;
      forall j | 0 <= j < |h.tasks|
        ensures QuietTask(h.tasks[j])
      {
        assert h.tasks[j] == Continue(g.tasks[j]);
        assert h.tasks[j].pending.signal == g.tasks[j].pending.signal - STOP_SIGNALS;
      }
    }
  }

  /** Completing a signal adds nothing but SIGKILL to any queue. */
  lemma CompleteCalm(g: Group, sig: Signo, p: nat, group: bool, onCpu: set<nat>)
    requires ValidTask(g, p)
    ensures var h := Complete(g, sig, p, group, onCpu);
            && h.shared == g.shared && |h.tasks| == |g.tasks|
            && (forall j :: 0 <= j < |g.tasks| ==>
                 && h.tasks[j].pending.signal <= g.tasks[j].pending.signal + {SIGKILL}
                 && CalmTask(g.tasks[j].(pending := EMPTY), h.tasks[j].(pending := EMPTY)))
            && (h.flags.groupExit || forall j :: 0 <= j < |g.tasks| ==> h.tasks[j].pending == g.tasks[j].pending)
  {
    var h := Complete(g, sig, p, group, onCpu);
    var t := Pick(g, sig, p, group, onCpu);
    if t != -1 && TakesGroupDown(g, sig, g.tasks[t]) {
      forall j | 0 <= j < |g.tasks|
        ensures Calmed(g.tasks[j], h.tasks[j])
      {
        KillCalm(g.tasks[j]);
      }
    }
  }

  /** Calm but for a pending SIGKILL. */
  predicate Calmed(t: Task, u: Task) {
    u.pending.signal <= t.pending.signal + {SIGKILL} && CalmTask(t.(pending := EMPTY), u.(pending := EMPTY))
  }

  lemma KillCalm(t: Task)
    ensures Calmed(t, Kill(t))
  {
  }

  lemma QueueGrowth(g: Group, sig: Signo, p: nat, group: bool, q: Pending, onCpu: set<nat>)
    requires ValidTask(g, p) && q.signal == Queue(g, p, group).signal + {sig}
    ensures var h := Complete(SetQueue(g, p, group, q), sig, p, group, onCpu);
            && (forall s: Signo :: PendingIn(h, s) ==> PendingIn(g, s) || s == sig || s == SIGKILL)
            && (Quiet(g) && sig !in STOP_SIGNALS ==> Quiet(h))
  {
    var g1 := SetQueue(g, p, group, q);
    var h := Complete(g1, sig, p, group, onCpu);
    CompleteCalm(g1, sig, p, group, onCpu);
    forall s: Signo | PendingIn(h, s)
      ensures PendingIn(g, s) || s == sig || s == SIGKILL
    {
      if s !in h.shared.signal {
        var j :| 0 <= j < |h.tasks| && s in h.tasks[j].pending.signal;
        assert s in g1.tasks[j].pending.signal + {SIGKILL};
      }
    }
    if Quiet(g) && sig !in STOP_SIGNALS {
      forall j | 0 <= j < |h.tasks|
        ensures QuietTask(h.tasks[j])
      {
        assert QuietTask(g.tasks[j]);
        assert h.tasks[j].pending.signal <= g1.tasks[j].pending.signal + {SIGKILL};
        assert CalmTask(g1.tasks[j].(pending := EMPTY), h.tasks[j].(pending := EMPTY));
      }
    }
  }

  /** What generating `sig` can make pending, seen from after prepare_signal. */
  lemma SendGrowth(g: Group, sig: Signo, src: Source, p: nat, group: bool, slot: Slot, onCpu: set<nat>)
    requires ValidTask(g, p)
    ensures var g1 := Prepare(g, sig); var h := Send(g, sig, src, p, group, slot, onCpu);
            && (forall s: Signo :: PendingIn(h, s) ==> PendingIn(g1, s) || s == sig || s == SIGKILL)
            && (Quiet(g1) && sig !in STOP_SIGNALS ==> Quiet(h))
  {
    var g1 := Prepare(g, sig);
    PrepareCalm(g, sig);
    var r := SendTo(Queue(g1, p, group), sig, src, slot);
    if r.Accepted? {
      QueueGrowth(g1, sig, p, group, r.queue, onCpu);
    }
  }

  lemma SendSigqueueGrowth(g: Group, q: Rec, p: nat, group: bool, onCpu: set<nat>)
    requires ValidTask(g, p)
    ensures var sig := q.info.signo; var g1 := Prepare(g, sig); var h := SendSigqueue(g, q, p, group, onCpu);
            && (forall s: Signo :: PendingIn(h, s) ==> PendingIn(g1, s) || s == sig || s == SIGKILL)
            && (Quiet(g1) && sig !in STOP_SIGNALS ==> Quiet(h))
  {
    var g1 := Prepare(g, q.info.signo);
    PrepareCalm(g, q.info.signo);
    QueueGrowth(g1, q.info.signo, p, group, Append(Queue(g1, p, group), q), onCpu);
  }

  lemma TakeCalm(g: Group, i: nat, mask: set<Signo>)
    requires ValidTask(g, i)
    ensures var r := Take(g, i, mask);
            && r.group.shared.signal <= g.shared.signal
            && (r.sig in STOP_SIGNALS || Calm(g, r.group))
            && |r.group.tasks| == |g.tasks|
            && (forall j :: 0 <= j < |g.tasks| ==> r.group.tasks[j].pending.signal <= g.tasks[j].pending.signal)
            && (Quiet(g) ==> r.sig !in STOP_SIGNALS)
            && r.group.flags == g.flags
  {
    var r := Take(g, i, mask);
    if r.sig !in STOP_SIGNALS {
      CalmOne(g, r.group, i);
    }
    if Quiet(g) {
      assert QuietTask(g.tasks[i]);
    }
  }

  // ----------------------------------------------------- one step of any kind

  ghost predicate Shrinks(g: Group, h: Group) {
    && h.shared.signal <= g.shared.signal
    && |h.tasks| == |g.tasks|
    && forall j :: 0 <= j < |g.tasks| ==> h.tasks[j].pending.signal <= g.tasks[j].pending.signal
  }

  /** No signal appears, and a quiet group is left calm. */
  ghost predicate Tame(g: Group, h: Group) {
    Shrinks(g, h) && (Quiet(g) ==> Calm(g, h))
  }

  lemma CalmIsTame(g: Group, h: Group)
    requires Calm(g, h)
    ensures Tame(g, h)
  {
    forall j | 0 <= j < |g.tasks|
      ensures h.tasks[j].pending.signal <= g.tasks[j].pending.signal
    {
      assert CalmTask(g.tasks[j], h.tasks[j]);
    }
  }

  lemma TakeTame(g: Group, i: nat, mask: set<Signo>, at: Point)
    requires ValidTask(g, i)
    ensures Tame(g, Take(g, i, mask).group) && Tame(g, Move(Take(g, i, mask).group, i, at))
  {
    TakeCalm(g, i, mask);
  }

  lemma StopTame(g: Group, i: nat, sig: int)
    requires Runs(g, i)
    ensures Tame(g, SignalStop(g, i, sig))
  {
    if Quiet(g) {
      assert QuietTask(g.tasks[i]);
    }
  }

  lemma DeliverTame(g: Group, i: nat, sig: Signo)
    requires Runs(g, i)
    ensures Tame(g, Deliver(g, i, sig))
  {
    if Action(g, sig) == Default && sig == SIGSTOP {
      StopTame(g, i, sig);
    } else {
      OneTame(g, Deliver(g, i, sig), i);
    }
  }

  lemma ExitTame(g: Group, i: nat)
    requires Runs(g, i)
    ensures Tame(g, ExitLocked(g, i))
  {
    var g1 := SetExiting(g, i);
    RetargetCalm(g1.tasks, i, 1, g.shared.signal * (ALL - g.tasks[i].blocked));
    var h := ExitLocked(g, i);
    forall j | 0 <= j < |g.tasks|
      ensures CalmTask(g.tasks[j], h.tasks[j])
    {
      assert CalmTask(g1.tasks[j], RetargetFrom(g1.tasks, i, 1, g.shared.signal * (ALL - g.tasks[i].blocked))[j]);
    }
    CalmIsTame(g, h);
  }

  lemma WaitEndTame(g: Group, i: nat)
    requires ValidTask(g, i)
    ensures Tame(g, EndTimedWait(g, i))
  {
    SetBlockedCalm(g, i, g.tasks[i].realBlocked);
    var g1 := SetBlocked(g, i, g.tasks[i].realBlocked);
    var h := EndTimedWait(g, i);
    forall j | 0 <= j < |g.tasks|
      ensures CalmTask(g.tasks[j], h.tasks[j])
    {
      assert CalmTask(g.tasks[j], g1.tasks[j]);
    }
    CalmIsTame(g, h);
  }

  lemma OneTame(g: Group, h: Group, i: nat)
    requires ValidTask(g, i) && |h.tasks| == |g.tasks| && h.tasks == g.tasks[i := h.tasks[i]]
    requires h.shared == g.shared && CalmTask(g.tasks[i], h.tasks[i])
    ensures Tame(g, h)
  {
    CalmOne(g, h, i);
    CalmIsTame(g, h);
  }

  lemma StepTame(g: Group, s: Step)
    requires Enabled(g, s) && Generated(s) == 0
    ensures Tame(g, Next(g, s))
  {
    match s
    case Generate(_, _, _, _, _, _) => assert false;
    case GenerateQueued(_, _, _, _) => assert false;
    case Force(_, _, _, _, _) => assert false;
    case SetAction(_, _) => CalmIsTame(g, Next(g, s));
    case SetMask(i, newset) =>
      SetBlockedCalm(g, i, newset);
      CalmIsTame(g, Next(g, s));
    case WaitEnd(i) => WaitEndTame(g, i);
    case TakeSync(i, mask) => TakeTame(g, i, mask, User);
    case TakeInLoop(i) =>
      var r := Take(g, i, g.tasks[i].blocked);
      TakeTame(g, i, g.tasks[i].blocked, if r.sig == 0 then User else Dispatch(r.sig));
    case StopInLoop(i) => StopTame(g, i, 0);
    case Act(i) => DeliverTame(g, i, g.tasks[i].at.sig);
    case LeaveWindow(i, orphaned) =>
      StopTame(g, i, g.tasks[i].at.sig);
      OneTame(g, Move(g, i, Relock), i);
    case ExitWithLock(i) => ExitTame(g, i);
    case Lock(i) => CalmIsTame(g, Next(g, s));
    case WaitBegin(i, mask) => OneTame(g, BeginTimedWait(g, i, mask), i);
    case Enter(i) => OneTame(g, Move(g, i, Relock), i);
    case ExitUnlocked(i) => OneTame(g, SetExiting(g, i), i);
    case Sleep(i, st) => OneTame(g, SetState(g, i, st), i);
    case Rouse(i) => OneTame(g, SetState(g, i, Running), i);
  }

  lemma TameGrowth(g: Group, h: Group)
    requires Tame(g, h)
    ensures forall x: Signo :: PendingIn(h, x) ==> PendingIn(g, x)
    ensures Quiet(g) ==> Quiet(h)
  {
    forall x: Signo | PendingIn(h, x)
      ensures PendingIn(g, x)
    {
      if x !in h.shared.signal {
        var j :| 0 <= j < |h.tasks| && x in h.tasks[j].pending.signal;
        assert h.tasks[j].pending.signal <= g.tasks[j].pending.signal;
      }
    }
    if Quiet(g) {
      CalmKeepsQuiet(g, h);
    }
  }

  /** A signal becomes pending only by being generated (SIGKILL also by the
      group exit): every other step only removes signals. */
  lemma StepGrowth(g: Group, s: Step)
    requires Enabled(g, s) && Generated(s) == 0
    ensures forall x: Signo :: PendingIn(Next(g, s), x) ==> PendingIn(g, x)
    ensures Quiet(g) ==> Quiet(Next(g, s))
  {
    StepTame(g, s);
    TameGrowth(g, Next(g, s));
  }

  /** The group from which a generating step calls prepare_signal. */
  function SendBase(g: Group, s: Step): Group
    requires Enabled(g, s)
  {
    match s
    case Force(sig, _, p, _, _) => ForceBase(g, sig, p)
    case _ => g
  }

  lemma GeneratedGrowth(g: Group, s: Step, sig: Signo)
    requires Enabled(g, s) && Generated(s) == sig
    ensures var h := Next(g, s); var b := Prepare(SendBase(g, s), sig);
            && (forall x: Signo :: PendingIn(h, x) ==> PendingIn(b, x) || x == sig || x == SIGKILL)
            && (Quiet(b) && sig !in STOP_SIGNALS ==> Quiet(h))
  {
    match s
    case Generate(x, src, p, group, slot, onCpu) => SendGrowth(g, x, src, p, group, slot, onCpu);
    case GenerateQueued(q, p, group, onCpu) => SendSigqueueGrowth(g, q, p, group, onCpu);
    case Force(x, src, p, slot, onCpu) => SendGrowth(ForceBase(g, x, p), x, src, p, false, slot, onCpu);
    case _ =>
  }

  /** Every way of generating a signal: SIGCONT leaves the group quiet, a stop
      signal leaves no SIGCONT, and nothing else disturbs a quiet group. */
  lemma GeneratingStep(g: Group, s: Step, sig: Signo)
    requires Enabled(g, s) && Generated(s) == sig
    ensures forall x: Signo :: PendingIn(Next(g, s), x) ==> PendingIn(g, x) || x == sig || x == SIGKILL
    ensures Quiet(g) && sig !in STOP_SIGNALS ==> Quiet(Next(g, s))
    ensures !g.flags.groupExit && sig == SIGCONT ==> Quiet(Next(g, s))
    ensures !g.flags.groupExit && sig in STOP_SIGNALS ==> !PendingIn(Next(g, s), SIGCONT)
  {
    var b := SendBase(g, s);
    assert Calm(g, b);
    PrepareCalm(b, sig);
    GeneratedGrowth(g, s, sig);
    CalmIsTame(g, b);
    TameGrowth(g, b);
    CalmIsTame(b, Prepare(b, sig));
    TameGrowth(b, Prepare(b, sig));
  }

  // ------------------------------------------------------------- whole runs

  lemma StepKeepsQuiet(g: Group, s: Step)
    requires Enabled(g, s) && Quiet(g) && Generated(s) !in STOP_SIGNALS
    ensures Quiet(Next(g, s))
  {
    if Generated(s) == 0 {
      StepGrowth(g, s);
    } else {
      GeneratingStep(g, s, Generated(s));
    }
  }

  /** After SIGCONT is generated for a living group, and until another stop
      signal is generated, no thread is in or enters TASK_STOPPED, whatever the
      threads had dequeued before: the marker they hold has been cleared. */
  lemma {:induction false} ContinueBeatsStop(gs: seq<Group>, ss: seq<Step>, k: nat, m: nat)
    requires Path(gs, ss) && k < m <= |ss|
    requires Generated(ss[k]) == SIGCONT && !gs[k].flags.groupExit
    requires forall l :: k < l < m ==> Generated(ss[l]) !in STOP_SIGNALS
    ensures Quiet(gs[m])
  {
    if m == k + 1 {
      GeneratingStep(gs[k], ss[k], SIGCONT);
    } else {
      ContinueBeatsStop(gs, ss, k, m - 1);
      StepKeepsQuiet(gs[m - 1], ss[m - 1]);
    }
  }

  /** SIGCONT and a stop signal are never pending together in a living group. */
  ghost predicate Exclusive(g: Group) {
    g.flags.groupExit || !PendingIn(g, SIGCONT) || forall x :: x in STOP_SIGNALS ==> !PendingIn(g, x)
  }

  lemma QuietHasNoStop(g: Group)
    requires Quiet(g)
    ensures forall x :: x in STOP_SIGNALS ==> !PendingIn(g, x)
  {
    forall x | x in STOP_SIGNALS
      ensures !PendingIn(g, x)
    {
      assert x !in g.shared.signal;
      assert forall j :: 0 <= j < |g.tasks| ==> QuietTask(g.tasks[j]);
    }
  }

  /** Growth by a signal of neither kind. */
  lemma ExclusiveGrowth(g: Group, h: Group, sig: int)
    requires Exclusive(g) && !g.flags.groupExit && sig != SIGCONT && sig !in STOP_SIGNALS
    requires forall x: Signo :: PendingIn(h, x) ==> PendingIn(g, x) || x == sig || x == SIGKILL
    ensures Exclusive(h)
  {
  }

  lemma StepKeepsExclusive(g: Group, s: Step)
    requires StopInv(g) && Enabled(g, s) && Exclusive(g)
    ensures Exclusive(Next(g, s))
  {
    var h, sig := Next(g, s), Generated(s);
    if g.flags.groupExit {
      GroupExitStays(g, s);
    } else if sig == 0 {
      StepGrowth(g, s);
      ExclusiveGrowth(g, h, 0);
    } else {
      GeneratingStep(g, s, sig);
      if sig == SIGCONT {
        QuietHasNoStop(h);
      } else if sig !in STOP_SIGNALS {
        ExclusiveGrowth(g, h, sig);
      }
    }
  }

  /** Unless the group is exiting, no reachable state has SIGCONT pending in one
      queue of the group and a stop signal pending in any. */
  lemma {:induction false} StopAndContinueExclusive(gs: seq<Group>, ss: seq<Step>, k: nat)
    requires Run(gs, ss) && k <= |ss|
    ensures Exclusive(gs[k])
  {
    if k == 0 {
      assert forall j :: 0 <= j < |gs[0].tasks| ==> gs[0].tasks[j] in gs[0].tasks;
      assert !PendingIn(gs[0], SIGCONT);
    } else {
      StopAndContinueExclusive(gs, ss, k - 1);
      InitialStopInv(gs[0]);
      PathKeepsStopInv(gs, ss, k - 1);
      StepKeepsExclusive(gs[k - 1], ss[k - 1]);
    }
  }
}
