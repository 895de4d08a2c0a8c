/** No shared signal is lost: whoever could take it, somebody who can take it is
    on the way to look. */
module GroupWakeups {
  import opened Signals
  import opened SigQueue
  import opened GroupState
  import opened GroupRun
  import opened GroupStop

  /** The thread may take signal s off the shared queue. */
  predicate Takes(t: Task, s: Signo) {
    !t.exiting && s !in t.blocked
  }

  /** TIF_SIGPENDING is set, or the thread is stopped, or it is on its way back
      through get_signal_to_deliver. */
  predicate Attends(t: Task) {
    t.tif || t.state == Stopped || t.at == Relock || t.at == Loop || t.at.Orphan?
  }

  /** A stopped thread resumes at `relock`; no thread with TIF_SIGPENDING sleeps
      in TASK_INTERRUPTIBLE. */
  predicate AwakeTask(t: Task) {
    (t.state == Stopped ==> t.at == Relock) && (t.tif ==> t.state != Interruptible)
  }

  ghost predicate Takable(g: Group, s: Signo) {
    exists j :: 0 <= j < |g.tasks| && Takes(g.tasks[j], s)
  }

  ghost predicate Attended(g: Group, s: Signo) {
    exists j :: 0 <= j < |g.tasks| && Takes(g.tasks[j], s) && Attends(g.tasks[j])
  }

  ghost predicate NoneLost(g: Group) {
    forall s :: s in g.shared.signal && Takable(g, s) ==> Attended(g, s)
  }

  ghost predicate Awake(g: Group) {
    forall j :: 0 <= j < |g.tasks| ==> AwakeTask(g.tasks[j])
  }

  ghost predicate WakeInv(g: Group) {
    Ok(g) && Awake(g) && (g.flags.groupExit || NoneLost(g))
  }

  // ------------------------------------------------------------ frame lemmas

  /** A change of one thread after which it takes and attends as before. */
  predicate Steady(t: Task, u: Task) {
    && u.exiting == t.exiting && u.blocked == t.blocked
    && (Attends(t) ==> Attends(u))
    && (AwakeTask(t) ==> AwakeTask(u))
  }

  ghost predicate AllSteady(ts: seq<Task>, us: seq<Task>) {
    |us| == |ts| && forall j :: 0 <= j < |ts| ==> Steady(ts[j], us[j])
  }

  lemma SteadyAttended(g: Group, h: Group, s: Signo)
    requires AllSteady(g.tasks, h.tasks)
    ensures Takable(h, s) <==> Takable(g, s)
    ensures Attended(g, s) ==> Attended(h, s)
  {
    if Takable(h, s) {
      var j :| 0 <= j < |h.tasks| && Takes(h.tasks[j], s);
      assert Steady(g.tasks[j], h.tasks[j]);
      assert Takes(g.tasks[j], s);
    }
    if Takable(g, s) {
      var j :| 0 <= j < |g.tasks| && Takes(g.tasks[j], s);
      assert Steady(g.tasks[j], h.tasks[j]);
      assert Takes(h.tasks[j], s);
    }
    if Attended(g, s) {
      var j :| 0 <= j < |g.tasks| && Takes(g.tasks[j], s) && Attends(g.tasks[j]);
      assert Steady(g.tasks[j], h.tasks[j]);
      assert Takes(h.tasks[j], s) && Attends(h.tasks[j]);
    }
  }

  lemma SteadyStep(g: Group, h: Group)
    requires WakeInv(g) && Ok(h) && AllSteady(g.tasks, h.tasks)
    requires h.shared.signal <= g.shared.signal && (g.flags.groupExit ==> h.flags.groupExit)
    ensures WakeInv(h)
  {
    forall j | 0 <= j < |h.tasks|
      ensures AwakeTask(h.tasks[j])
    {
      assert Steady(g.tasks[j], h.tasks[j]);
    }
    if !g.flags.groupExit {
      forall s | s in h.shared.signal && Takable(h, s)
        ensures Attended(h, s)
      {
        SteadyAttended(g, h, s);
      }
    }
  }

  lemma SteadyOwn(g: Group, h: Group, i: nat)
    requires WakeInv(g) && ValidTask(g, i) && |h.tasks| == |g.tasks| && h.tasks == g.tasks[i := h.tasks[i]]
    requires Steady(g.tasks[i], h.tasks[i]) && h.target == g.target
    requires h.shared.signal <= g.shared.signal && (g.flags.groupExit ==> h.flags.groupExit)
    ensures WakeInv(h)
  {
    assert AllSteady(g.tasks, h.tasks);
    SteadyStep(g, h);
  }

  /** A step after which thread i attends to everything it could take, and which
      did not make i give up a signal that only i attended to. */
  lemma OwnRecalc(g: Group, h: Group, i: nat)
    requires WakeInv(g) && ValidTask(g, i) && Ok(h) && |h.tasks| == |g.tasks|
    requires forall j :: 0 <= j < |g.tasks| && j != i ==> Steady(g.tasks[j], h.tasks[j])
    requires AwakeTask(h.tasks[i])
    requires forall s :: s in h.shared.signal && Takes(h.tasks[i], s) ==> Attends(h.tasks[i])
    requires h.shared.signal <= g.shared.signal && (g.flags.groupExit ==> h.flags.groupExit)
    requires forall s :: (s in h.shared.signal && Takes(g.tasks[i], s) && Attends(g.tasks[i])
                          && !Takes(h.tasks[i], s) && Takable(h, s)) ==> Attended(h, s)
    ensures WakeInv(h)
  {
    forall j | 0 <= j < |h.tasks|
      ensures AwakeTask(h.tasks[j])
    {
      assert j != i ==> Steady(g.tasks[j], h.tasks[j]);
    }
    if !g.flags.groupExit {
      forall s | s in h.shared.signal && Takable(h, s)
        ensures Attended(h, s)
      {
        if Takes(h.tasks[i], s) {
          assert Attends(h.tasks[i]);
        } else {
          var j :| 0 <= j < |h.tasks| && Takes(h.tasks[j], s);
          assert Takes(g.tasks[j], s);
          assert Attended(g, s);
          var w :| 0 <= w < |g.tasks| && Takes(g.tasks[w], s) && Attends(g.tasks[w]);
          if w != i {
            assert Takes(h.tasks[w], s) && Attends(h.tasks[w]);
          }
        }
      }
    }
  }

  // ------------------------------------------------------- generating signals

  lemma PrepareSteady(g: Group, sig: Signo)
    requires WakeInv(g)
    ensures WakeInv(Prepare(g, sig))
  {
    var h := Prepare(g, sig);
    assert AllSteady(g.tasks, h.tasks) by {
      forall j | 0 <= j < |g.tasks|
        ensures Steady(g.tasks[j], h.tasks[j])
      {
        assert AwakeTask(g.tasks[j]);
      }
    }
    SteadyStep(g, h);
  }

  lemma KillAwake(g: Group, h: Group)
    requires WakeInv(g) && Ok(h) && h.tasks == KillAll(g.tasks) && h.flags == EXIT_FLAGS
    ensures WakeInv(h)
  {
    forall j | 0 <= j < |h.tasks|
      ensures AwakeTask(h.tasks[j])
    {
      assert AwakeTask(g.tasks[j]);
    }
  }

  lemma WakeSteady(g: Group, t: nat, resume: bool)
    requires t < |g.tasks| && Awake(g)
    ensures AllSteady(g.tasks, g.tasks[t := WakeUp(g.tasks[t], resume)])
  {
    assert AwakeTask(g.tasks[t]);
  }

  /** A queue gains `sig` and complete_signal runs: if the queue is the shared one
      and somebody can take `sig`, somebody who can take it now attends. */
  lemma QueueAwake(g: Group, sig: Signo, p: nat, group: bool, q: Pending, onCpu: set<nat>)
    requires WakeInv(g) && ValidTask(g, p) && q.signal == Queue(g, p, group).signal + {sig}
    ensures WakeInv(Complete(SetQueue(g, p, group, q), sig, p, group, onCpu))
  {
    var g1 := SetQueue(g, p, group, q);
    var h := Complete(g1, sig, p, group, onCpu);
    var t := Pick(g1, sig, p, group, onCpu);
    assert AllSteady(g.tasks, g1.tasks);
    if t != -1 && TakesGroupDown(g1, sig, g1.tasks[t]) {
      forall j | 0 <= j < |g1.tasks|
        ensures AwakeTask(g1.tasks[j])
      {
        assert AwakeTask(g.tasks[j]);
      }
      KillAwake(g1.(flags := EXIT_FLAGS), h);
    } else {
      forall j | 0 <= j < |g1.tasks|
        ensures AwakeTask(g1.tasks[j])
      {
        assert AwakeTask(g.tasks[j]);
      }
      if t != -1 {
        WakeSteady(g1, t, sig == SIGKILL);
      }
      assert AllSteady(g1.tasks, h.tasks);
      assert AllSteady(g.tasks, h.tasks) by {
        forall j | 0 <= j < |g.tasks|
          ensures Steady(g.tasks[j], h.tasks[j])
        {
          assert Steady(g.tasks[j], g1.tasks[j]) && Steady(g1.tasks[j], h.tasks[j]);
        }
      }
      SteadyStep(g, h.(shared := g.shared));
      if group && !g.flags.groupExit {
        forall s | s in h.shared.signal && Takable(h, s)
          ensures Attended(h, s)
        {
          if s == sig {
            SigAttended(g1, h, sig, p, onCpu);
          } else {
            SteadyAttended(g, h, s);
          }
        }
      }
    }
  }

  lemma SigAttended(g: Group, h: Group, sig: Signo, p: nat, onCpu: set<nat>)
    requires ValidTask(g, p) && h == Complete(g, sig, p, true, onCpu) && AllSteady(g.tasks, h.tasks)
    requires Takable(h, sig) && !h.flags.groupExit
    ensures Attended(h, sig)
  {
    var t := Pick(g, sig, p, true, onCpu);
    if t == -1 {
      PickFindsWillingThread(g, sig, p, onCpu);
      var j :| 0 <= j < |h.tasks| && Takes(h.tasks[j], sig);
      assert !Wants(g.tasks[j], sig, j in onCpu);
      assert Takes(h.tasks[j], sig) && Attends(h.tasks[j]);
    } else {
      assert Takes(h.tasks[t], sig) && Attends(h.tasks[t]);
    }
  }

  lemma SendAwake(g: Group, sig: Signo, src: Source, p: nat, group: bool, slot: Slot, onCpu: set<nat>)
    requires WakeInv(g) && ValidTask(g, p)
    ensures WakeInv(Send(g, sig, src, p, group, slot, onCpu))
  {
    PrepareSteady(g, sig);
    var g1 := Prepare(g, sig);
    var r := SendTo(Queue(g1, p, group), sig, src, slot);
    if r.Accepted? {
      QueueAwake(g1, sig, p, group, r.queue, onCpu);
    }
  }

  lemma SendSigqueueAwake(g: Group, q: Rec, p: nat, group: bool, onCpu: set<nat>)
    requires WakeInv(g) && ValidTask(g, p)
    ensures WakeInv(SendSigqueue(g, q, p, group, onCpu))
  {
    PrepareSteady(g, q.info.signo);
    var g1 := Prepare(g, q.info.signo);
    QueueAwake(g1, q.info.signo, p, group, Append(Queue(g1, p, group), q), onCpu);
  }

  /** force_sig_info unblocks the signal in another thread, which then attends. */
  lemma ForceAwake(g: Group, sig: Signo, src: Source, p: nat, slot: Slot, onCpu: set<nat>)
    requires WakeInv(g) && ValidTask(g, p)
    ensures WakeInv(ForceSig(g, sig, src, p, slot, onCpu))
  {
    var t := g.tasks[p];
    assert AwakeTask(t);
    var h := ForceBase(g, sig, p);
    var t2 := h.tasks[p];
    if sig in t.blocked {
      if !g.flags.groupExit {
        forall s | s in h.shared.signal && Takable(h, s)
          ensures Attended(h, s)
        {
          if Takes(t2, s) {
            assert s in g.shared.signal - (t.blocked - {sig});
            assert Takes(h.tasks[p], s) && Attends(h.tasks[p]);
          } else {
            var j :| 0 <= j < |h.tasks| && Takes(h.tasks[j], s);
            assert Takes(g.tasks[j], s);
            var w :| 0 <= w < |g.tasks| && Takes(g.tasks[w], s) && Attends(g.tasks[w]);
            assert Takes(h.tasks[w], s) && Attends(h.tasks[w]);
          }
        }
      }
    } else {
      assert t.blocked - {sig} == t.blocked;
      SteadyOwn(g, h, p);
    }
    SendAwake(h, sig, src, p, false, slot, onCpu);
  }

  // ----------------------------------------------------------- mask changes

  lemma {:induction false} RetargetSteady(ts: seq<Task>, i: nat, k: nat, which: set<Signo>)
    requires i < |ts| && 1 <= k <= |ts|
    ensures AllSteady(ts, RetargetFrom(ts, i, k, which))
    ensures RetargetFrom(ts, i, k, which)[i] == ts[i]
    ensures forall j :: 0 <= j < |ts| && ts[j].tif ==> RetargetFrom(ts, i, k, which)[j].tif
    decreases |ts| - k
  {
    if k < |ts| && which != {} {
      var j := Ring(i, k, |ts|);
      var t := ts[j];
      if t.exiting || !HasPending(which, t.blocked) {
        RetargetSteady(ts, i, k + 1, which);
      } else {
        var ts1 := if t.tif then ts else ts[j := WakeUp(t, false)];
        RetargetSteady(ts1, i, k + 1, which * t.blocked);
        var r := RetargetFrom(ts1, i, k + 1, which * t.blocked);
        forall m | 0 <= m < |ts|
          ensures Steady(ts[m], r[m]) && (ts[m].tif ==> r[m].tif)
        {
          assert Steady(ts1[m], r[m]) && (ts1[m].tif ==> r[m].tif);
        }
      }
    }
  }

  /** Some thread other than i can take s and has TIF_SIGPENDING set. */
  ghost predicate OtherAlert(ts: seq<Task>, i: nat, s: Signo) {
    exists j :: 0 <= j < |ts| && j != i && Takes(ts[j], s) && ts[j].tif
  }

  /** Retargeting a signal that some other thread can take leaves some other
      thread that can take it with TIF_SIGPENDING set. */
  lemma {:induction false} RetargetFinds(ts: seq<Task>, i: nat, k: nat, which: set<Signo>, s: Signo, q: nat)
    requires i < |ts| && 1 <= k <= q < |ts|
    requires s in which && Takes(ts[Ring(i, q, |ts|)], s)
    ensures OtherAlert(RetargetFrom(ts, i, k, which), i, s)
    decreases |ts| - k
  {
    var n := |ts|;
    var j := Ring(i, k, n);
    var t := ts[j];
    if t.exiting || !HasPending(which, t.blocked) {
      assert s in which - t.blocked || s in t.blocked;
      assert q != k;
      RetargetFinds(ts, i, k + 1, which, s, q);
    } else {
      var ts1 := if t.tif then ts else ts[j := WakeUp(t, false)];
      if s in t.blocked {
        assert q != k && Ring(i, q, n) != j;
        RetargetFinds(ts1, i, k + 1, which * t.blocked, s, q);
      } else {
        var r := RetargetFrom(ts1, i, k + 1, which * t.blocked);
        RetargetSteady(ts1, i, k + 1, which * t.blocked);
        assert Steady(ts1[j], r[j]);
        assert Takes(r[j], s) && r[j].tif;
      }
    }
  }

  /** The same for the whole ring: j is any other thread. */
  lemma RetargetCovers(ts: seq<Task>, i: nat, which: set<Signo>, s: Signo, j: nat)
    requires i < |ts| && j < |ts| && j != i && s in which && Takes(ts[j], s)
    ensures OtherAlert(RetargetFrom(ts, i, 1, which), i, s)
  {
    var q := if i <= j then j - i else j + |ts| - i;
    RetargetFinds(ts, i, 1, which, s, q);
  }

  lemma RecalcAttends(shared: Pending, t: Task, s: Signo)
    requires s in shared.signal && s !in t.blocked
    ensures MustAttend(shared, t)
  {
    assert s in shared.signal - t.blocked;
  }

  lemma SetBlockedAwake(g: Group, i: nat, newset: set<Signo>)
    requires WakeInv(g) && At(g, i, User)
    ensures WakeInv(SetBlocked(g, i, newset))
  {
    var t := g.tasks[i];
    var g1 := if t.tif && |g.tasks| > 1 then Retarget(g, i, newset - t.blocked) else g;
    var h := SetBlocked(g, i, newset);
    var which := g.shared.signal * (newset - t.blocked);
    RetargetSteady(g.tasks, i, 1, which);
    assert h.tasks[i] == Recalc(g.shared, t.(blocked := newset));
    forall s | s in h.shared.signal && Takes(h.tasks[i], s)
      ensures Attends(h.tasks[i])
    {
      RecalcAttends(g.shared, t.(blocked := newset), s);
    }
    forall s | s in h.shared.signal && Takes(t, s) && Attends(t) && !Takes(h.tasks[i], s) && Takable(h, s)
      ensures Attended(h, s)
    {
      var j :| 0 <= j < |h.tasks| && Takes(h.tasks[j], s);
      assert j != i && Steady(g.tasks[j], g1.tasks[j]);
      RetargetCovers(g.tasks, i, which, s, j);
      assert OtherAlert(g1.tasks, i, s);
      var w :| 0 <= w < |g1.tasks| && w != i && Takes(g1.tasks[w], s) && g1.tasks[w].tif;
      assert Takes(h.tasks[w], s) && Attends(h.tasks[w]);
    }
    OwnRecalc(g, h, i);
  }

  lemma TakeAwake(g: Group, i: nat, mask: set<Signo>)
    requires WakeInv(g) && Runs(g, i)
    requires Attends(g.tasks[i]) ==> g.tasks[i].tif || mask == g.tasks[i].blocked
    ensures WakeInv(Take(g, i, mask).group)
    ensures forall s :: s in Take(g, i, mask).group.shared.signal && Takes(g.tasks[i], s) ==>
              Take(g, i, mask).group.tasks[i].tif
    ensures Take(g, i, mask).group.tasks[i].blocked == g.tasks[i].blocked
    ensures Take(g, i, mask).group.tasks[i].exiting == g.tasks[i].exiting
  {
    var h := Take(g, i, mask).group;
    forall s | s in h.shared.signal && Takes(g.tasks[i], s)
      ensures h.tasks[i].tif
    {
      assert s in h.shared.signal - g.tasks[i].blocked;
      assert HasPending(h.shared.signal, g.tasks[i].blocked);
    }
    OwnRecalc(g, h, i);
  }

  lemma LoopTakeAwake(g: Group, i: nat)
    requires WakeInv(g) && At(g, i, Loop)
    ensures WakeInv(LoopTake(g, i))
  {
    TakeAwake(g, i, g.tasks[i].blocked);
    OwnRecalc(g, LoopTake(g, i), i);
  }

  lemma WaitBeginAwake(g: Group, i: nat, mask: set<Signo>)
    requires WakeInv(g) && At(g, i, User)
    ensures WakeInv(BeginTimedWait(g, i, mask))
  {
    var t, h := g.tasks[i], BeginTimedWait(g, i, mask);
    forall s | s in h.shared.signal && Takes(h.tasks[i], s)
      ensures Attends(h.tasks[i])
    {
      RecalcAttends(g.shared, t.(realBlocked := t.blocked, blocked := t.blocked * mask), s);
    }
    OwnRecalc(g, h, i);
  }

  // ------------------------------------------------------------------ stopping

  lemma SignalStopAwake(g: Group, i: nat, sig: int)
    requires WakeInv(g) && StopInv(g) && Runs(g, i)
    ensures WakeInv(SignalStop(g, i, sig))
  {
    var h := SignalStop(g, i, sig);
    if StopCancelled(g, i) {
      SteadyOwn(g, h, i);
    } else {
      StopIsEngaged(g, i, sig);
      forall j | 0 <= j < |g.tasks|
        ensures Steady(g.tasks[j], h.tasks[j])
      {
        assert AwakeTask(g.tasks[j]);
      }
      SteadyStep(g, h);
    }
  }

  /** A thread that held a dequeued signal goes on elsewhere. */
  lemma DispatchedAwake(g: Group, h: Group, i: nat, at: Point)
    requires WakeInv(g) && Runs(g, i) && g.tasks[i].at.Dispatch?
    requires h.tasks == g.tasks[i := g.tasks[i].(at := at)] && h.target == g.target
    requires h.shared == g.shared && h.flags == g.flags
    ensures WakeInv(h)
  {
    SteadyOwn(g, h, i);
  }

  lemma DeliverAwake(g: Group, i: nat)
    requires WakeInv(g) && StopInv(g) && Runs(g, i) && g.tasks[i].at.Dispatch?
    ensures WakeInv(Deliver(g, i, g.tasks[i].at.sig))
  {
    var sig := g.tasks[i].at.sig;
    if Action(g, sig) == Default && sig == SIGSTOP {
      SignalStopAwake(g, i, sig);
    } else {
      DispatchedAwake(g, Deliver(g, i, sig), i, Deliver(g, i, sig).tasks[i].at);
    }
  }

  // ------------------------------------------------------------------- exiting

  lemma ExitSteady(g: Group, i: nat)
    requires ValidTask(g, i)
    ensures var h := ExitLocked(g, i);
            && h.shared == g.shared && |h.tasks| == |g.tasks| && h.target == g.target && h.tasks[i].exiting
            && h.tasks[i].state == g.tasks[i].state && h.tasks[i].tif == g.tasks[i].tif
            && h.tasks[i].at == g.tasks[i].at
            && forall j :: 0 <= j < |g.tasks| && j != i ==> Steady(g.tasks[j], h.tasks[j])
  {
    var g1 := SetExiting(g, i);
    RetargetSteady(g1.tasks, i, 1, g.shared.signal * (ALL - g.tasks[i].blocked));
    forall j | 0 <= j < |g.tasks| && j != i
      ensures Steady(g.tasks[j], ExitLocked(g, i).tasks[j])
    {
      assert Steady(g1.tasks[j], ExitLocked(g, i).tasks[j]);
    }
  }

  /** What the exiting thread was to take is handed over. */
  lemma ExitHandsOver(g: Group, i: nat, s: Signo)
    requires At(g, i, User) || At(g, i, Fatal)
    requires s in g.shared.signal && Takes(g.tasks[i], s) && Attends(g.tasks[i]) && Takable(ExitLocked(g, i), s)
    ensures Attended(ExitLocked(g, i), s)
  {
    var g1, h := SetExiting(g, i), ExitLocked(g, i);
    var which := g.shared.signal * (ALL - g.tasks[i].blocked);
    ExitSteady(g, i);
    var j :| 0 <= j < |h.tasks| && Takes(h.tasks[j], s);
    assert j != i && Steady(g.tasks[j], h.tasks[j]) && Takes(g1.tasks[j], s);
    RetargetCovers(g1.tasks, i, which, s, j);
    var r := RetargetFrom(g1.tasks, i, 1, which);
    var w :| 0 <= w < |r| && w != i && Takes(r[w], s) && r[w].tif;
    assert Takes(h.tasks[w], s) && Attends(h.tasks[w]);
  }

  lemma ExitKeepsFlag(g: Group, i: nat)
    requires StopInv(g) && Runs(g, i) && g.flags.groupExit
    ensures ExitLocked(g, i).flags.groupExit
  {
    assert !g.tasks[i].job.stopPending;
  }

  lemma ExitLockedAwake(g: Group, i: nat)
    requires WakeInv(g) && StopInv(g) && (At(g, i, User) || At(g, i, Fatal))
    ensures WakeInv(ExitLocked(g, i))
  {
    var h := ExitLocked(g, i);
    ExitSteady(g, i);
    forall s | s in h.shared.signal && Takes(g.tasks[i], s) && Attends(g.tasks[i]) && !Takes(h.tasks[i], s)
               && Takable(h, s)
      ensures Attended(h, s)
    {
      ExitHandsOver(g, i, s);
    }
    if g.flags.groupExit {
      ExitKeepsFlag(g, i);
    }
    OwnRecalc(g, h, i);
  }

  lemma ExitUnlockedAwake(g: Group, i: nat)
    requires WakeInv(g) && Runs(g, i) && (|g.tasks| == 1 || g.flags.groupExit)
    ensures WakeInv(SetExiting(g, i))
  {
    var h := SetExiting(g, i);
    assert AwakeTask(g.tasks[i]);
    assert |g.tasks| == 1 ==> forall s :: !Takable(h, s);
  }

  // --------------------------------------------------------------- whole runs

  lemma WaitEndAwake(g: Group, i: nat)
    requires WakeInv(g) && At(g, i, User)
    ensures WakeInv(EndTimedWait(g, i))
  {
    SetBlockedAwake(g, i, g.tasks[i].realBlocked);
    var which := g.shared.signal * (g.tasks[i].realBlocked - g.tasks[i].blocked);
    RetargetSteady(g.tasks, i, 1, which);
    SteadyOwn(SetBlocked(g, i, g.tasks[i].realBlocked), EndTimedWait(g, i), i);
  }

  lemma SigactionAwake(g: Group, sig: Signo, d: Disposition)
    requires WakeInv(g)
    ensures WakeInv(Sigaction(g, sig, d))
  {
    SteadyStep(g, Sigaction(g, sig, d));
  }

  lemma EnterAwake(g: Group, i: nat)
    requires WakeInv(g) && At(g, i, User)
    ensures WakeInv(Move(g, i, Relock))
  {
    SteadyOwn(g, Move(g, i, Relock), i);
  }

  lemma EnterLoopAwake(g: Group, i: nat)
    requires WakeInv(g) && At(g, i, Relock)
    ensures WakeInv(EnterLoop(g, i))
  {
    SteadyOwn(g, EnterLoop(g, i), i);
  }

  lemma LeaveAwake(g: Group, i: nat, orphaned: bool)
    requires WakeInv(g) && StopInv(g) && Enabled(g, LeaveWindow(i, orphaned))
    ensures WakeInv(Next(g, LeaveWindow(i, orphaned)))
  {
    if orphaned {
      SteadyOwn(g, Move(g, i, Relock), i);
    } else {
      SignalStopAwake(g, i, g.tasks[i].at.sig);
    }
  }

  lemma SetStateAwake(g: Group, i: nat, s: RunState)
    requires WakeInv(g) && ValidTask(g, i) && g.tasks[i].state != Stopped && s != Stopped
    requires s == Interruptible ==> !g.tasks[i].tif
    ensures WakeInv(SetState(g, i, s))
  {
    SteadyOwn(g, SetState(g, i, s), i);
  }

  lemma StepKeepsWakeInv(g: Group, s: Step)
    requires WakeInv(g) && StopInv(g) && Enabled(g, s)
    ensures WakeInv(Next(g, s))
  {
    match s
    case Generate(sig, src, p, group, slot, onCpu) => SendAwake(g, sig, src, p, group, slot, onCpu);
    case GenerateQueued(q, p, group, onCpu) => SendSigqueueAwake(g, q, p, group, onCpu);
    case Force(sig, src, p, slot, onCpu) => ForceAwake(g, sig, src, p, slot, onCpu);
    case SetAction(sig, d) => SigactionAwake(g, sig, d);
    case SetMask(i, newset) => SetBlockedAwake(g, i, newset);
    case WaitBegin(i, mask) => WaitBeginAwake(g, i, mask);
    case WaitEnd(i) => WaitEndAwake(g, i);
    case TakeSync(i, mask) => TakeAwake(g, i, mask);
    case Enter(i) => EnterAwake(g, i);
    case Lock(i) => EnterLoopAwake(g, i);
    case StopInLoop(i) => SignalStopAwake(g, i, 0);
    case TakeInLoop(i) => LoopTakeAwake(g, i);
    case Act(i) => DeliverAwake(g, i);
    case LeaveWindow(i, orphaned) => LeaveAwake(g, i, orphaned);
    case ExitUnlocked(i) => ExitUnlockedAwake(g, i);
    case ExitWithLock(i) => ExitLockedAwake(g, i);
    case Sleep(i, st) => SetStateAwake(g, i, st);
    case Rouse(i) => SetStateAwake(g, i, Running);
  }

  lemma {:induction false} RunKeepsWakeInv(gs: seq<Group>, ss: seq<Step>, k: nat)
    requires Run(gs, ss) && k <= |ss|
    ensures WakeInv(gs[k])
  {
    if k == 0 {
      assert forall j :: 0 <= j < |gs[0].tasks| ==> gs[0].tasks[j] in gs[0].tasks;
    } else {
      RunKeepsWakeInv(gs, ss, k - 1);
      InitialStopInv(gs[0]);
      PathKeepsStopInv(gs, ss, k - 1);
      StepKeepsWakeInv(gs[k - 1], ss[k - 1]);
    }
  }

  /** No lost shared signal: in every state of every run of a group that is not
      exiting, a shared pending signal that some non-exiting thread leaves
      unblocked is attended to: such a thread has TIF_SIGPENDING set and is not
      in an interruptible sleep, or is stopped, or is on its way back through
      get_signal_to_deliver. */
  lemma NoLostSharedSignal(gs: seq<Group>, ss: seq<Step>, k: nat, s: Signo)
    requires Run(gs, ss) && k <= |ss|
    requires !gs[k].flags.groupExit && s in gs[k].shared.signal
    requires exists t :: t in gs[k].tasks && !t.exiting && s !in t.blocked
    ensures exists t :: t in gs[k].tasks && !t.exiting && s !in t.blocked
              && ((t.tif && t.state != Interruptible) || t.state == Stopped
                  || t.at == Relock || t.at == Loop || t.at.Orphan?)
  {
    RunKeepsWakeInv(gs, ss, k);
    var g := gs[k];
    var t :| t in g.tasks && !t.exiting && s !in t.blocked;
    var j :| 0 <= j < |g.tasks| && g.tasks[j] == t;
    assert Takes(g.tasks[j], s);
    assert Takable(g, s);
    var w :| 0 <= w < |g.tasks| && Takes(g.tasks[w], s) && Attends(g.tasks[w]);
    assert AwakeTask(g.tasks[w]);
    assert g.tasks[w] in g.tasks;
  }
}
