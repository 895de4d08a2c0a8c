/** Bitmap/list coherence of every queue of the group over whole runs, and what
    do_sigaction then does to them. */
module GroupQueues {
  import opened Signals
  import opened SigQueue
  import opened GroupState
  import opened GroupRun

  ghost predicate TasksCoherent(ts: seq<Task>) {
    forall j :: 0 <= j < |ts| ==> Coherent(ts[j].pending)
  }

  ghost predicate AllCoherent(g: Group) {
    Coherent(g.shared) && TasksCoherent(g.tasks)
  }

  // ------------------------------------------------------------ the group

  /** Every queue is as before, up to bits added without a record. */
  ghost predicate KeepsQueues(g: Group, h: Group) {
    && h.shared == g.shared && |h.tasks| == |g.tasks|
    && forall j :: 0 <= j < |g.tasks| ==>
         h.tasks[j].pending.list == g.tasks[j].pending.list
         && g.tasks[j].pending.signal <= h.tasks[j].pending.signal
  }

  lemma KeptCoherent(g: Group, h: Group)
    requires AllCoherent(g) && KeepsQueues(g, h)
    ensures AllCoherent(h)
  {
    forall j | 0 <= j < |h.tasks|
      ensures Coherent(h.tasks[j].pending)
    {
      assert Coherent(g.tasks[j].pending);
    }
  }

  lemma PrepareCoherent(g: Group, sig: Signo)
    requires AllCoherent(g)
    ensures AllCoherent(Prepare(g, sig))
  {
    var h := Prepare(g, sig);
    RemovalCoherent(g.shared, {SIGCONT});
    RemovalCoherent(g.shared, STOP_SIGNALS);
    forall j | 0 <= j < |h.tasks|
      ensures Coherent(h.tasks[j].pending)
    {
      assert Coherent(g.tasks[j].pending);
      RemovalCoherent(g.tasks[j].pending, {SIGCONT});
      RemovalCoherent(g.tasks[j].pending, STOP_SIGNALS);
    }
  }

  lemma CompleteCoherent(g: Group, sig: Signo, p: nat, group: bool, q: Pending, onCpu: set<nat>)
    requires AllCoherent(g) && ValidTask(g, p) && Coherent(q)
    ensures AllCoherent(Complete(SetQueue(g, p, group, q), sig, p, group, onCpu))
  {
    var g1 := SetQueue(g, p, group, q);
    assert AllCoherent(g1);
    assert KeepsQueues(g1, Complete(g1, sig, p, group, onCpu));
    KeptCoherent(g1, Complete(g1, sig, p, group, onCpu));
  }

  lemma GenerateCoherent(g: Group, sig: Signo, src: Source, p: nat, group: bool, slot: Slot, onCpu: set<nat>)
    requires AllCoherent(g) && ValidTask(g, p)
    ensures AllCoherent(Send(g, sig, src, p, group, slot, onCpu))
  {
    PrepareCoherent(g, sig);
    var g1 := Prepare(g, sig);
    assert Coherent(Queue(g1, p, group));
    SendCoherent(Queue(g1, p, group), sig, src, slot);
    var r := SendTo(Queue(g1, p, group), sig, src, slot);
    if r.Accepted? {
      CompleteCoherent(g1, sig, p, group, r.queue, onCpu);
    }
  }

  lemma TakeCoherent(g: Group, i: nat, mask: set<Signo>)
    requires AllCoherent(g) && ValidTask(g, i)
    ensures AllCoherent(Take(g, i, mask).group)
  {
    DequeueCoherent(g.tasks[i].pending, mask);
    DequeueCoherent(g.shared, mask);
  }

  lemma SigactionCoherent(g: Group, sig: Signo, d: Disposition)
    requires AllCoherent(g)
    ensures AllCoherent(Sigaction(g, sig, d))
  {
    FullRemovalIsDiscard(g.shared, {sig});
    forall j | 0 <= j < |g.tasks|
      ensures Coherent(Sigaction(g, sig, d).tasks[j].pending)
    {
      assert Coherent(g.tasks[j].pending);
      FullRemovalIsDiscard(g.tasks[j].pending, {sig});
    }
  }

  lemma GenerateQueuedCoherent(g: Group, q: Rec, p: nat, group: bool, onCpu: set<nat>)
    requires AllCoherent(g) && ValidTask(g, p)
    ensures AllCoherent(SendSigqueue(g, q, p, group, onCpu))
  {
    PrepareCoherent(g, q.info.signo);
    var g1 := Prepare(g, q.info.signo);
    assert Coherent(Queue(g1, p, group));
    AppendCoherent(Queue(g1, p, group), q);
    CompleteCoherent(g1, q.info.signo, p, group, Append(Queue(g1, p, group), q), onCpu);
  }

  // ------------------------------------------- steps that touch no queue at all

  ghost predicate SameQueues(g: Group, h: Group) {
    && h.shared == g.shared && |h.tasks| == |g.tasks|
    && forall j :: 0 <= j < |g.tasks| ==> h.tasks[j].pending == g.tasks[j].pending
  }

  lemma SameCoherent(g: Group, h: Group)
    requires AllCoherent(g) && SameQueues(g, h)
    ensures AllCoherent(h)
  {
    KeptCoherent(g, h);
  }

  lemma {:induction false} RetargetQueues(ts: seq<Task>, i: nat, k: nat, which: set<Signo>)
    requires i < |ts| && 1 <= k <= |ts|
    ensures forall j :: 0 <= j < |ts| ==> RetargetFrom(ts, i, k, which)[j].pending == ts[j].pending
    decreases |ts| - k
  {
    if k < |ts| && which != {} {
      var j := Ring(i, k, |ts|);
      var t := ts[j];
      if t.exiting || !HasPending(which, t.blocked) {
        RetargetQueues(ts, i, k + 1, which);
      } else {
        RetargetQueues(if t.tif then ts else ts[j := WakeUp(t, false)], i, k + 1, which * t.blocked);
      }
    }
  }

  lemma OwnSame(g: Group, h: Group, i: nat)
    requires ValidTask(g, i) && h.shared == g.shared && |h.tasks| == |g.tasks|
    requires h.tasks == g.tasks[i := h.tasks[i]] && h.tasks[i].pending == g.tasks[i].pending
    ensures SameQueues(g, h)
  {
  }

  lemma MaskSame(g: Group, i: nat, newset: set<Signo>)
    requires ValidTask(g, i)
    ensures SameQueues(g, SetBlocked(g, i, newset))
  {
    RetargetQueues(g.tasks, i, 1, g.shared.signal * (newset - g.tasks[i].blocked));
  }

  lemma WaitEndSame(g: Group, i: nat)
    requires ValidTask(g, i)
    ensures SameQueues(g, EndTimedWait(g, i))
  {
    MaskSame(g, i, g.tasks[i].realBlocked);
    var g1 := SetBlocked(g, i, g.tasks[i].realBlocked);
    OwnSame(g1, EndTimedWait(g, i), i);
  }

  lemma StopBaseSame(g: Group, i: nat, sig: int)
    requires ValidTask(g, i)
    ensures SameQueues(g, StopBase(g, i, sig)) && StopBase(g, i, sig).target == g.target
  {
  }

  lemma StopSame(g: Group, i: nat, sig: int)
    requires ValidTask(g, i)
    ensures SameQueues(g, SignalStop(g, i, sig))
  {
    if StopCancelled(g, i) {
      OwnSame(g, Move(g, i, Loop), i);
    } else {
      StopBaseSame(g, i, sig);
      OwnSame(StopBase(g, i, sig), DoStop(g, i, sig), i);
    }
  }

  lemma DeliverSame(g: Group, i: nat, sig: Signo)
    requires ValidTask(g, i)
    ensures SameQueues(g, Deliver(g, i, sig))
  {
    if Action(g, sig) == Default && sig == SIGSTOP {
      StopSame(g, i, sig);
    } else {
      OwnSame(g, Deliver(g, i, sig), i);
    }
  }

  lemma ExitSame(g: Group, i: nat)
    requires ValidTask(g, i)
    ensures SameQueues(g, ExitLocked(g, i))
  {
    RetargetQueues(SetExiting(g, i).tasks, i, 1, g.shared.signal * (ALL - g.tasks[i].blocked));
  }

  /** Neither generating, nor taking, nor discarding. */
  predicate Passive(s: Step) {
    Generated(s) == 0 && !s.SetAction? && !s.TakeSync? && !s.TakeInLoop?
  }

  lemma PassiveSame(g: Group, s: Step)
    requires Enabled(g, s) && Passive(s)
    ensures SameQueues(g, Next(g, s))
  {
    match s
    case SetMask(i, newset) => MaskSame(g, i, newset);
    case WaitBegin(i, mask) => OwnSame(g, BeginTimedWait(g, i, mask), i);
    case WaitEnd(i) => WaitEndSame(g, i);
    case Enter(i) => OwnSame(g, Move(g, i, Relock), i);
    case Lock(i) => OwnSame(g, EnterLoop(g, i), i);
    case StopInLoop(i) => StopSame(g, i, 0);
    case Act(i) => DeliverSame(g, i, g.tasks[i].at.sig);
    case LeaveWindow(i, _) =>
      StopSame(g, i, g.tasks[i].at.sig);
      OwnSame(g, Move(g, i, Relock), i);
    case ExitUnlocked(i) => OwnSame(g, SetExiting(g, i), i);
    case ExitWithLock(i) => ExitSame(g, i);
    case Sleep(i, st) => OwnSame(g, SetState(g, i, st), i);
    case Rouse(i) => OwnSame(g, SetState(g, i, Running), i);
    case _ =>
  }

  lemma ForceBaseSame(g: Group, sig: Signo, p: nat)
    requires ValidTask(g, p)
    ensures SameQueues(g, ForceBase(g, sig, p))
  {
  }

  lemma ForceCoherent(g: Group, sig: Signo, src: Source, p: nat, slot: Slot, onCpu: set<nat>)
    requires AllCoherent(g) && ValidTask(g, p)
    ensures AllCoherent(ForceSig(g, sig, src, p, slot, onCpu))
  {
    ForceBaseSame(g, sig, p);
    SameCoherent(g, ForceBase(g, sig, p));
    GenerateCoherent(ForceBase(g, sig, p), sig, src, p, false, slot, onCpu);
  }

  lemma LoopTakeCoherent(g: Group, i: nat)
    requires AllCoherent(g) && ValidTask(g, i)
    ensures AllCoherent(LoopTake(g, i))
  {
    TakeCoherent(g, i, g.tasks[i].blocked);
    OwnSame(Take(g, i, g.tasks[i].blocked).group, LoopTake(g, i), i);
    SameCoherent(Take(g, i, g.tasks[i].blocked).group, LoopTake(g, i));
  }

  lemma StepKeepsCoherent(g: Group, s: Step)
    requires AllCoherent(g) && Enabled(g, s)
    ensures AllCoherent(Next(g, s))
  {
    match s
    case Generate(sig, src, p, group, slot, onCpu) => GenerateCoherent(g, sig, src, p, group, slot, onCpu);
    case GenerateQueued(q, p, group, onCpu) => GenerateQueuedCoherent(g, q, p, group, onCpu);
    case Force(sig, src, p, slot, onCpu) => ForceCoherent(g, sig, src, p, slot, onCpu);
    case SetAction(sig, d) => SigactionCoherent(g, sig, d);
    case TakeSync(i, mask) => TakeCoherent(g, i, mask);
    case TakeInLoop(i) => LoopTakeCoherent(g, i);
    case _ =>
      PassiveSame(g, s);
      SameCoherent(g, Next(g, s));
  }

  /** In every run every queued record's signal stays in its queue's bitmap, for
      the private queue of every thread and for the shared one. */
  lemma {:induction false} QueuesStayCoherent(gs: seq<Group>, ss: seq<Step>, k: nat)
    requires Run(gs, ss) && k <= |ss|
    ensures AllCoherent(gs[k])
  {
    if k == 0 {
      assert forall j :: 0 <= j < |gs[0].tasks| ==> gs[0].tasks[j] in gs[0].tasks;
    } else {
      QueuesStayCoherent(gs, ss, k - 1);
      StepKeepsCoherent(gs[k - 1], ss[k - 1]);
    }
  }

  /** Exactly `sig` is gone: its bit and its records; every other signal's bit
      and records are untouched. */
  ghost predicate OnlyGone(p: Pending, q: Pending, sig: Signo) {
    && q.signal == p.signal - {sig}
    && forall s: Signo :: Of(q.list, s) == if s == sig then [] else Of(p.list, s)
  }

  lemma RemovalIsExact(p: Pending, sig: Signo)
    requires Coherent(p)
    ensures OnlyGone(p, RmFromQueueFull(p, {sig}), sig)
  {
    FullRemovalIsDiscard(p, {sig});
    forall s: Signo
      ensures Of(Discard(p, {sig}).list, s) == if s == sig then [] else Of(p.list, s)
    {
      OfOutside(p.list, {sig}, s);
    }
  }

  /** Setting an action that ignores a signal discards that signal, blocked or
      not, from every queue of the group, and changes nothing else. */
  lemma IgnoringDiscardsEverywhere(gs: seq<Group>, ss: seq<Step>, k: nat, sig: Signo, d: Disposition)
    requires Run(gs, ss) && k <= |ss|
    requires sig != SIGKILL && sig != SIGSTOP && HandlerIgnored(d, sig)
    ensures var g, h := gs[k], Sigaction(gs[k], sig, d);
      && OnlyGone(g.shared, h.shared, sig)
      && |h.tasks| == |g.tasks|
      && (forall j :: 0 <= j < |g.tasks| ==>
            OnlyGone(g.tasks[j].pending, h.tasks[j].pending, sig)
            && h.tasks[j] == g.tasks[j].(pending := h.tasks[j].pending))
      && h == g.(shared := h.shared, tasks := h.tasks, action := g.action[sig := d])
  {
    QueuesStayCoherent(gs, ss, k);
    RemovalIsExact(gs[k].shared, sig);
    forall j | 0 <= j < |gs[k].tasks|
      ensures OnlyGone(gs[k].tasks[j].pending, RmFromQueueFull(gs[k].tasks[j].pending, {sig}), sig)
    {
      assert Coherent(gs[k].tasks[j].pending);
      RemovalIsExact(gs[k].tasks[j].pending, sig);
    }
  }
}
