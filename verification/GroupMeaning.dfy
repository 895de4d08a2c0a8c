/** What the siglock sections do, said on the fields of the group: which signals are
    dropped, refused, queued or fatal, what the handler table, the masks and the exit
    code become, and what stays as it was. */
module GroupMeaning {
  import opened Signals
  import opened SigQueue
  import opened GroupState

  /** The entry of sig in the handler table. */
  predicate AtDefault(action: map<Signo, Disposition>, sig: Signo) {
    sig !in action || action[sig] == Default
  }

  predicate AtIgnore(action: map<Signo, Disposition>, sig: Signo) {
    sig in action && action[sig] == Ignore
  }

  // ------------------------------------------------------------ ignored signals

  /** A signal that is blocked, or was before a timed wait, is never ignored; any
      other is ignored exactly by its entry. */
  lemma IgnoredMeaning(g: Group, t: Task, sig: Signo)
    ensures sig in t.blocked || sig in t.realBlocked ==> !SigIgnored(g, t, sig)
    ensures sig !in t.blocked && sig !in t.realBlocked ==>
              (SigIgnored(g, t, sig) <==> AtIgnore(g.action, sig) || (AtDefault(g.action, sig) && sig in IGNORED_SIGNALS))
  {
  }

  // ------------------------------------------------------------- prepare_signal

  /** Queue y is queue x without the signals of mask; untouched if none was there. */
  ghost predicate Without(x: Pending, y: Pending, mask: set<Signo>) {
    && y.signal == x.signal - mask
    && (if forall s :: s in mask ==> s !in x.signal then y == x
        else forall s: Signo :: Of(y.list, s) == if s in mask then [] else Of(x.list, s))
  }

  lemma RemovalMeaning(x: Pending, mask: set<Signo>)
    requires mask <= LEGACY
    ensures Without(x, RmFromQueue(x, mask), mask)
  {
    DisjointMinus(mask, x.signal);
    DisjointMinus(x.signal, mask);
    assert mask * LEGACY == mask;
    if x.signal * mask != {} {
      var s :| s in x.signal * mask;
      forall s: Signo
        ensures Of(RmFromQueue(x, mask).list, s) == if s in mask then [] else Of(x.list, s)
      {
        OfOutside(x.list, mask, s);
      }
    }
  }

  /** What SIGCONT does to thread t. */
  ghost predicate Continued(t: Task, u: Task) {
    && u == t.(pending := u.pending, state := u.state, job := u.job)
    && Without(t.pending, u.pending, STOP_SIGNALS)
    && u.state == (if t.state == Stopped then Running else t.state)
    && u.job == JobCtl(t.job.signo, false, false, false)
  }

  ghost predicate Uncontinued(t: Task, u: Task) {
    u == t.(pending := u.pending) && Without(t.pending, u.pending, {SIGCONT})
  }

  lemma PrepareNothing(g: Group, sig: Signo)
    requires g.flags.groupExit || (sig !in STOP_SIGNALS && sig != SIGCONT)
    ensures Prepare(g, sig) == g
  {
  }

  /** A stop signal removes SIGCONT from every queue and does nothing else. */
  lemma PrepareStop(g: Group, sig: Signo)
    requires !g.flags.groupExit && sig in STOP_SIGNALS
    ensures var h := Prepare(g, sig);
      && h == g.(shared := h.shared, tasks := h.tasks) && |h.tasks| == |g.tasks|
      && Without(g.shared, h.shared, {SIGCONT})
      && forall j :: 0 <= j < |g.tasks| ==> Uncontinued(g.tasks[j], h.tasks[j])
  {
    RemovalMeaning(g.shared, {SIGCONT});
    forall j | 0 <= j < |g.tasks|
      ensures Uncontinued(g.tasks[j], Prepare(g, sig).tasks[j])
    {
      RemovalMeaning(g.tasks[j].pending, {SIGCONT});
    }
  }

  /** SIGCONT removes the stop signals from every queue, resumes every stopped
      thread and cancels every stop; a stop that had completed is to be reported as
      continued, one that was under way as stopped, and the exit code is gone. */
  lemma PrepareContinue(g: Group)
    requires !g.flags.groupExit
    ensures var h := Prepare(g, SIGCONT);
      && |h.tasks| == |g.tasks| && h.action == g.action && h.target == g.target
      && Without(g.shared, h.shared, STOP_SIGNALS)
      && (forall j :: 0 <= j < |g.tasks| ==> Continued(g.tasks[j], h.tasks[j]))
      && h.stopCount == 0
      && (g.flags.stopped ==> h.flags == Flags(false, true, false, false, true) && h.exitCode == 0)
      && (!g.flags.stopped && g.stopCount > 0 ==> h.flags == Flags(false, true, false, true, false) && h.exitCode == 0)
      && (!g.flags.stopped && g.stopCount == 0 ==> h.flags == g.flags && h.exitCode == g.exitCode)
  {
    RemovalMeaning(g.shared, STOP_SIGNALS);
    forall j | 0 <= j < |g.tasks|
      ensures Continued(g.tasks[j], Prepare(g, SIGCONT).tasks[j])
    {
      RemovalMeaning(g.tasks[j].pending, STOP_SIGNALS);
    }
  }

  // ------------------------------------------------------------ complete_signal

  /** Why a thread is passed over. */
  lemma UnwillingMeaning(t: Task, sig: Signo, cur: bool)
    ensures !Wants(t, sig, cur) <==>
              || sig in t.blocked || t.exiting
              || (sig != SIGKILL && (t.state == Stopped || (t.tif && !cur)))
  {
  }

  /** The scan takes the first willing thread of the ring. */
  lemma {:induction false} ScanIsFirst(g: Group, sig: Signo, k: nat, onCpu: set<nat>) returns (m: nat)
    requires Ok(g) && k <= |g.tasks| && Scan(g, sig, k, onCpu) != -1
    ensures k <= m < |g.tasks| && Scan(g, sig, k, onCpu) == Ring(g.target, m, |g.tasks|)
    ensures forall l :: k <= l < m ==>
              var j := Ring(g.target, l, |g.tasks|); !Wants(g.tasks[j], sig, j in onCpu)
    decreases |g.tasks| - k
  {
    var j := Ring(g.target, k, |g.tasks|);
    if Wants(g.tasks[j], sig, j in onCpu) {
      m := k;
    } else {
      m := ScanIsFirst(g, sig, k + 1, onCpu);
    }
  }

  /** The thread addressed has the first choice; a private signal and a lone thread
      leave no other. */
  lemma PickMeaning(g: Group, sig: Signo, p: nat, group: bool, onCpu: set<nat>)
    requires ValidTask(g, p)
    ensures var t := Pick(g, sig, p, group, onCpu);
      && (Wants(g.tasks[p], sig, p in onCpu) ==> t == p)
      && (!Wants(g.tasks[p], sig, p in onCpu) && (!group || |g.tasks| == 1) ==> t == -1)
      && (t != -1 ==> Wants(g.tasks[t], sig, t in onCpu))
      && (group ==> (t == -1 <==> forall j :: 0 <= j < |g.tasks| ==> !Wants(g.tasks[j], sig, j in onCpu)))
  {
    if group {
      PickFindsWillingThread(g, sig, p, onCpu);
    }
  }

  /** A thread of a group that goes down. */
  ghost predicate TakenDown(t: Task, u: Task) {
    && u == t.(pending := u.pending, tif := true, job := u.job, state := u.state)
    && u.pending == Pending(t.pending.signal + {SIGKILL}, t.pending.list)
    && u.job == JobCtl(t.job.signo, false, false, false)
    && u.state == (if t.state == Uninterruptible then Uninterruptible else Running)
  }

  /** A thread that is told to look at its signals. */
  predicate Woken(t: Task, u: Task, kill: bool) {
    && u == t.(tif := true, state := u.state)
    && u.state == (if t.state == Interruptible || (kill && (t.state == Stopped || t.state == Killable))
                   then Running else t.state)
  }

  /** sig, with thread t chosen for it, is fatal to a living group at once: nobody
      handles or ignores it, and its default action is to terminate without a core
      dump. */
  predicate FatalAtOnce(g: Group, sig: Signo, t: Task) {
    && !g.flags.groupExit && AtDefault(g.action, sig)
    && sig !in IGNORED_SIGNALS && sig !in STOP_SIGNALS && sig !in COREDUMP_SIGNALS
    && sig !in t.realBlocked
  }

  /** Group h is group g after sig was completed with thread t chosen for it: taken
      down if that is fatal at once, and otherwise t is woken and nothing else. */
  ghost predicate Completed(g: Group, h: Group, sig: Signo, t: int)
    requires -1 <= t < |g.tasks|
  {
    && h.shared == g.shared && h.action == g.action && |h.tasks| == |g.tasks|
    && if t != -1 && FatalAtOnce(g, sig, g.tasks[t]) then
         && h.flags == Flags(false, false, true, false, false) && h.exitCode == sig && h.stopCount == 0
         && forall j :: 0 <= j < |g.tasks| ==> TakenDown(g.tasks[j], h.tasks[j])
       else
         && h.flags == g.flags && h.exitCode == g.exitCode && h.stopCount == g.stopCount
         && forall j :: 0 <= j < |g.tasks| ==>
              if j == t then Woken(g.tasks[j], h.tasks[j], sig == SIGKILL) else h.tasks[j] == g.tasks[j]
  }

  /** Which signals start the group exit, what that leaves, and that any other
      signal does no more than wake the chosen thread. */
  lemma CompleteMeaning(g: Group, sig: Signo, p: nat, group: bool, onCpu: set<nat>)
    requires ValidTask(g, p)
    ensures var h, t := Complete(g, sig, p, group, onCpu), Pick(g, sig, p, group, onCpu);
      && Completed(g, h, sig, t)
      && h.target == if t == -1 || Wants(g.tasks[p], sig, p in onCpu) then g.target else t
  {
  }

  /** In a living group: the exit starts if and only if a thread is chosen and the
      signal is fatal at once with that thread. */
  lemma GroupExitIff(g: Group, sig: Signo, p: nat, group: bool, onCpu: set<nat>)
    requires ValidTask(g, p) && !g.flags.groupExit
    ensures var h, t := Complete(g, sig, p, group, onCpu), Pick(g, sig, p, group, onCpu);
      h.flags.groupExit <==>
        && t != -1 && (sig !in g.action || g.action[sig] == Default)
        && sig !in IGNORED_SIGNALS && sig !in STOP_SIGNALS && sig !in COREDUMP_SIGNALS
        && sig !in g.tasks[t].realBlocked
  {
    CompleteMeaning(g, sig, p, group, onCpu);
  }

  // -------------------------------------------------------------- __send_signal

  /** What is handed to the receiver. */
  function InfoOf(sig: Signo, src: Source): SigInfo {
    match src
    case NoInfo => SigInfo(sig, SI_USER, 0)
    case Priv => SigInfo(sig, SI_KERNEL, 0)
    case Forced => SigInfo(sig, SI_USER, 0)
    case Given(code, value) => SigInfo(sig, code, value)
  }

  /** A real-time signal sent by other means than kill, with no record for it. */
  predicate Overflows(sig: Signo, src: Source, slot: Slot) {
    sig >= SIGRTMIN && src.Given? && src.code != SI_USER && slot == NoSlot
  }

  /** Queueing: merged, refused, or the bit set and the record, if any, at the tail. */
  lemma SendToMeaning(x: Pending, sig: Signo, src: Source, slot: Slot)
    ensures var r := SendTo(x, sig, src, slot);
      if sig < SIGRTMIN && sig in x.signal then r == Coalesced
      else if Overflows(sig, src, slot) then r == Refused
      else r == Accepted(Pending(x.signal + {sig},
                                 x.list + if src.Forced? || slot == NoSlot then [] else [Rec(slot.id, InfoOf(sig, src))]))
  {
    assert x.list + [] == x.list;
  }

  /** The queue that the signal is sent to, once prepare_signal has run. */
  function Before(g: Group, sig: Signo, p: nat, group: bool): Pending
    requires ValidTask(g, p)
  {
    var g1 := Prepare(g, sig);
    if group then g1.shared else g1.tasks[p].pending
  }

  /** Queue y is queue x with sig, and a record for it if there is one. */
  predicate Gains(x: Pending, y: Pending, sig: Signo, src: Source, slot: Slot) {
    && x.signal + {sig} <= y.signal <= x.signal + {sig, SIGKILL}
    && y.list == x.list + if src.Forced? || slot == NoSlot then [] else [Rec(slot.id, InfoOf(sig, src))]
  }

  lemma CompleteKeepsQueue(g: Group, sig: Signo, p: nat, group: bool, onCpu: set<nat>)
    requires ValidTask(g, p)
    ensures var x, y := Queue(g, p, group), Queue(Complete(g, sig, p, group, onCpu), p, group);
            y.list == x.list && x.signal <= y.signal <= x.signal + {SIGKILL}
  {
  }

  lemma SetQueueReads(g: Group, p: nat, group: bool, q: Pending)
    requires ValidTask(g, p)
    ensures ValidTask(SetQueue(g, p, group, q), p) && Queue(SetQueue(g, p, group, q), p, group) == q
  {
  }

  /** What becomes of a signal that is sent: ignored, merged and refused ones leave
      no more than what prepare_signal did, and any other is in its queue. */
  lemma SendMeaning(g: Group, sig: Signo, src: Source, p: nat, group: bool, slot: Slot, onCpu: set<nat>)
    requires ValidTask(g, p)
    ensures var h, x := Send(g, sig, src, p, group, slot, onCpu), Before(g, sig, p, group);
      && ValidTask(h, p)
      && (if SigIgnored(g, g.tasks[p], sig) || (sig < SIGRTMIN && sig in x.signal) || Overflows(sig, src, slot)
          then h == Prepare(g, sig)
          else Gains(x, Queue(h, p, group), sig, src, slot))
  {
    var g1 := Prepare(g, sig);
    var x := Queue(g1, p, group);
    SendToMeaning(x, sig, src, slot);
    var r := SendTo(x, sig, src, slot);
    if !SigIgnored(g, g.tasks[p], sig) && r.Accepted? {
      SetQueueReads(g1, p, group, r.queue);
      CompleteKeepsQueue(SetQueue(g1, p, group, r.queue), sig, p, group, onCpu);
    }
  }

  /** The same as the sender learns it: a refused signal changes nothing, and one that
      is neither ignored nor refused is in its queue. */
  lemma SendOutcome(g: Group, sig: Signo, src: Source, p: nat, group: bool, slot: Slot, onCpu: set<nat>)
    requires ValidTask(g, p)
    ensures var h := Send(g, sig, src, p, group, slot, onCpu);
      && ValidTask(h, p)
      && (Overflows(sig, src, slot) ==> h == g)
      && (!SigIgnored(g, g.tasks[p], sig) && !Overflows(sig, src, slot) ==> sig in Queue(h, p, group).signal)
      && (SendTo(Before(g, sig, p, group), sig, src, slot) == Refused <==> Overflows(sig, src, slot))
  {
    SendMeaning(g, sig, src, p, group, slot, onCpu);
    SendToMeaning(Before(g, sig, p, group), sig, src, slot);
    if Overflows(sig, src, slot) {
      PrepareNothing(g, sig);
    }
  }

  /** Only an unhandled signal that terminates without a core dump takes a living
      group down, and only if it is not ignored, merged or refused. */
  lemma SendExits(g: Group, sig: Signo, src: Source, p: nat, group: bool, slot: Slot, onCpu: set<nat>)
    requires ValidTask(g, p) && !g.flags.groupExit && Send(g, sig, src, p, group, slot, onCpu).flags.groupExit
    ensures sig !in g.action || g.action[sig] == Default
    ensures sig !in IGNORED_SIGNALS && sig !in STOP_SIGNALS && sig !in COREDUMP_SIGNALS
    ensures Send(g, sig, src, p, group, slot, onCpu).exitCode == sig
    ensures !(sig < SIGRTMIN && sig in Queue(g, p, group).signal) && !Overflows(sig, src, slot)
  {
    var g1 := Prepare(g, sig);
    PrepareKeepsTable(g, sig);
    SendMeaning(g, sig, src, p, group, slot, onCpu);
    var r := SendTo(Queue(g1, p, group), sig, src, slot);
    CompleteMeaning(SetQueue(g1, p, group, r.queue), sig, p, group, onCpu);
    PrepareNothing(g, sig);
  }

  /** A blocked signal is never lost: it is in the queue afterwards, unless it was
      refused, and then nothing at all has changed. */
  lemma BlockedIsQueued(g: Group, sig: Signo, src: Source, p: nat, group: bool, slot: Slot, onCpu: set<nat>)
    requires ValidTask(g, p) && (sig in g.tasks[p].blocked || sig in g.tasks[p].realBlocked)
    ensures var h := Send(g, sig, src, p, group, slot, onCpu);
      && ValidTask(h, p)
      && (if Overflows(sig, src, slot) then h == g else sig in Queue(h, p, group).signal)
  {
    IgnoredMeaning(g, g.tasks[p], sig);
    SendOutcome(g, sig, src, p, group, slot, onCpu);
  }

  /** send_sigqueue: the object goes to the tail unless it is ignored or queued. */
  lemma SendSigqueueMeaning(g: Group, q: Rec, p: nat, group: bool, onCpu: set<nat>)
    requires ValidTask(g, p)
    ensures var sig := q.info.signo;
      var h, x := SendSigqueue(g, q, p, group, onCpu), Before(g, sig, p, group);
      && ValidTask(h, p)
      && (if SigIgnored(g, g.tasks[p], sig) || QueuedIn(Prepare(g, sig), q.id) then h == Prepare(g, sig)
          else var y := Queue(h, p, group);
               y.list == x.list + [q] && x.signal + {sig} <= y.signal <= x.signal + {sig, SIGKILL})
  {
    var sig := q.info.signo;
    var g1 := Prepare(g, sig);
    if !SigIgnored(g, g.tasks[p], sig) && !QueuedIn(g1, q.id) {
      var y := Append(Queue(g1, p, group), q);
      SetQueueReads(g1, p, group, y);
      CompleteKeepsQueue(SetQueue(g1, p, group, y), sig, p, group, onCpu);
    }
  }

  // ------------------------------------------------------------- force_sig_info

  /** The signal is unblocked, and put back to its default if it was blocked or
      ignored; no other entry and no other thread changes. */
  lemma ForceBaseMeaning(g: Group, sig: Signo, p: nat)
    requires ValidTask(g, p)
    ensures var h, t := ForceBase(g, sig, p), g.tasks[p]; var u := h.tasks[p];
      && h == g.(action := h.action, tasks := g.tasks[p := u])
      && u.blocked == t.blocked - {sig} && u == t.(blocked := u.blocked, tif := u.tif, state := u.state)
      && (sig in t.blocked || AtIgnore(g.action, sig) ==> h.action == g.action[sig := Default])
      && (sig !in t.blocked && !AtIgnore(g.action, sig) ==> h.action == g.action && u == t)
      && !AtIgnore(h.action, sig)
  {
    var t := g.tasks[p];
    assert sig !in t.blocked ==> t.blocked - {sig} == t.blocked;
  }

  /** A forced signal that is not ignored by default and not refused is pending in
      the thread afterwards, with its record at the tail unless it was pending. */
  lemma ForceMeaning(g: Group, sig: Signo, src: Source, p: nat, slot: Slot, onCpu: set<nat>)
    requires ValidTask(g, p) && sig !in IGNORED_SIGNALS && !Overflows(sig, src, slot)
    ensures var h := ForceSig(g, sig, src, p, slot, onCpu);
      && ValidTask(h, p) && sig in h.tasks[p].pending.signal
      && (sig !in STOP_SIGNALS && !(sig < SIGRTMIN && sig in g.tasks[p].pending.signal) ==>
            Gains(g.tasks[p].pending, h.tasks[p].pending, sig, src, slot))
  {
    var b := ForceBase(g, sig, p);
    ForceBaseMeaning(g, sig, p);
    IgnoredMeaning(b, b.tasks[p], sig);
    SendMeaning(b, sig, src, p, false, slot, onCpu);
    if sig !in STOP_SIGNALS {
      PrepareNothing(b, sig);
    }
  }

  /** The mask and the table after the whole of force_sig_info. */
  lemma ForceLeaves(g: Group, sig: Signo, src: Source, p: nat, slot: Slot, onCpu: set<nat>)
    requires ValidTask(g, p)
    ensures var h := ForceSig(g, sig, src, p, slot, onCpu);
      && ValidTask(h, p)
      && h.tasks[p].blocked == g.tasks[p].blocked - {sig}
      && h.action == if sig in g.tasks[p].blocked || AtIgnore(g.action, sig) then g.action[sig := Default] else g.action
  {
    ForceBaseMeaning(g, sig, p);
    SendKeepsTable(ForceBase(g, sig, p), sig, src, p, false, slot, onCpu);
  }

  /** The three together, for a caller that sees the base and the result. */
  lemma ForceOutcome(g: Group, sig: Signo, src: Source, p: nat, slot: Slot, onCpu: set<nat>)
    requires ValidTask(g, p)
    ensures var b, h := ForceBase(g, sig, p), ForceSig(g, sig, src, p, slot, onCpu);
      && ValidTask(b, p) && ValidTask(h, p)
      && h.tasks[p].blocked == g.tasks[p].blocked - {sig}
      && h.action == (if sig in g.tasks[p].blocked || AtIgnore(g.action, sig) then g.action[sig := Default] else g.action)
      && (sig !in IGNORED_SIGNALS ==> !SigIgnored(b, b.tasks[p], sig))
      && (sig !in IGNORED_SIGNALS && !Overflows(sig, src, slot) ==> sig in h.tasks[p].pending.signal)
  {
    ForceLeaves(g, sig, src, p, slot, onCpu);
    ForceBaseMeaning(g, sig, p);
    var b := ForceBase(g, sig, p);
    IgnoredMeaning(b, b.tasks[p], sig);
    if sig !in IGNORED_SIGNALS && !Overflows(sig, src, slot) {
      ForceMeaning(g, sig, src, p, slot, onCpu);
    }
  }

  /** Sending changes no handler and no mask. */
  lemma SendKeepsTable(g: Group, sig: Signo, src: Source, p: nat, group: bool, slot: Slot, onCpu: set<nat>)
    requires ValidTask(g, p)
    ensures var h := Send(g, sig, src, p, group, slot, onCpu);
      && h.action == g.action && |h.tasks| == |g.tasks|
      && forall j :: 0 <= j < |g.tasks| ==>
           h.tasks[j].blocked == g.tasks[j].blocked && h.tasks[j].realBlocked == g.tasks[j].realBlocked
  {
    var g1 := Prepare(g, sig);
    PrepareKeepsTable(g, sig);
    var r := SendTo(Queue(g1, p, group), sig, src, slot);
    if r.Accepted? {
      CompleteKeepsTable(SetQueue(g1, p, group, r.queue), sig, p, group, onCpu);
    }
  }

  lemma PrepareKeepsTable(g: Group, sig: Signo)
    ensures var h := Prepare(g, sig);
      && h.action == g.action && |h.tasks| == |g.tasks| && h.target == g.target
      && forall j :: 0 <= j < |g.tasks| ==>
           h.tasks[j].blocked == g.tasks[j].blocked && h.tasks[j].realBlocked == g.tasks[j].realBlocked
  {
  }

  lemma CompleteKeepsTable(g: Group, sig: Signo, p: nat, group: bool, onCpu: set<nat>)
    requires ValidTask(g, p)
    ensures var h := Complete(g, sig, p, group, onCpu);
      && h.action == g.action && |h.tasks| == |g.tasks|
      && forall j :: 0 <= j < |g.tasks| ==>
           h.tasks[j].blocked == g.tasks[j].blocked && h.tasks[j].realBlocked == g.tasks[j].realBlocked
  {
  }

  // --------------------------------------------------------------- do_sigaction

  /** The new action is in force, every other stays; and an action that does not
      ignore the signal changes nothing besides the table. */
  lemma SigactionMeaning(g: Group, sig: Signo, d: Disposition)
    ensures var h := Sigaction(g, sig, d);
      if sig == SIGKILL || sig == SIGSTOP then h == g
      else
        && h.action == g.action[sig := d]
        && (d.Handler? || (d == Default && sig !in IGNORED_SIGNALS) ==> h == g.(action := h.action))
  {
  }

  // -------------------------------------------------------------------- masks

  /** Thread u is thread t, or t woken for a signal of `which` that it leaves
      unblocked. */
  predicate Nudged(t: Task, u: Task, which: set<Signo>) {
    u == t || (!t.exiting && !t.tif && !(which <= t.blocked) && Woken(t, u, false))
  }

  /** Retargeting does nothing but wake threads that can take what is retargeted. */
  lemma {:induction false} RetargetMeaning(ts: seq<Task>, i: nat, k: nat, which: set<Signo>)
    requires i < |ts| && 1 <= k <= |ts|
    ensures forall j :: 0 <= j < |ts| ==> Nudged(ts[j], RetargetFrom(ts, i, k, which)[j], which)
    decreases |ts| - k
  {
    if k < |ts| && which != {} {
      var j := Ring(i, k, |ts|);
      var t := ts[j];
      if t.exiting || !HasPending(which, t.blocked) {
        RetargetMeaning(ts, i, k + 1, which);
      } else {
        var ts1 := if t.tif then ts else ts[j := WakeUp(t, false)];
        var s :| s in which - t.blocked;
        var r := RetargetFrom(ts1, i, k + 1, which * t.blocked);
        RetargetMeaning(ts1, i, k + 1, which * t.blocked);
        forall m | 0 <= m < |ts|
          ensures Nudged(ts[m], r[m], which)
        {
          assert Nudged(ts1[m], r[m], which * t.blocked);
        }
      }
    }
  }

  /** __set_task_blocked: the mask becomes the one asked for, TIF_SIGPENDING says
      whether anything is left to do, and every other thread is at most woken for a
      shared signal that this one has just blocked. */
  lemma SetBlockedMeaning(g: Group, i: nat, newset: set<Signo>)
    requires ValidTask(g, i)
    ensures var h, t := SetBlocked(g, i, newset), g.tasks[i]; 
      && |h.tasks| == |g.tasks| && h == g.(tasks := h.tasks)
      && var u := h.tasks[i];
      && u == t.(blocked := newset, tif := u.tif)
      && (u.tif <==> t.job.stopPending || exists s :: s in t.pending.signal + g.shared.signal && s !in newset)
      && forall j :: 0 <= j < |g.tasks| && j != i ==>
           Nudged(g.tasks[j], h.tasks[j], g.shared.signal * (newset - t.blocked))
  {
    var t := g.tasks[i];
    RetargetMeaning(g.tasks, i, 1, g.shared.signal * (newset - t.blocked));
    AttendMeaning(g.shared, t.(blocked := newset));
  }

  /** do_sigtimedwait after it woke: the mask saved before is back, none is saved. */
  lemma EndTimedWaitMeaning(g: Group, i: nat)
    requires ValidTask(g, i)
    ensures var h, t := EndTimedWait(g, i), g.tasks[i];
      && |h.tasks| == |g.tasks| && h == g.(tasks := h.tasks)
      && var u := h.tasks[i];
      && u == t.(blocked := t.realBlocked, realBlocked := {}, tif := u.tif)
      && (u.tif <==> t.job.stopPending || exists s :: s in t.pending.signal + g.shared.signal && s !in t.realBlocked)
  {
    SetBlockedMeaning(g, i, g.tasks[i].realBlocked);
  }

  // ------------------------------------------------------------- delivering

  /** Where a dequeued signal takes the thread, by the entry of the handler table,
      and what becomes of the table: a handler runs and, if it is one-shot, is
      replaced by the default; ignored signals are dropped; stop signals stop, all
      but SIGSTOP after the window; anything else is fatal. */
  lemma DeliverMeaning(g: Group, i: nat, sig: Signo)
    requires ValidTask(g, i)
    ensures var h, u := Deliver(g, i, sig), Deliver(g, i, sig).tasks[i];
      && (sig in g.action && g.action[sig].Handler? ==>
            && h == g.(action := h.action, tasks := g.tasks[i := g.tasks[i].(at := User)])
            && h.action == if g.action[sig].oneshot then g.action[sig := Default] else g.action)
      && (AtIgnore(g.action, sig) || (AtDefault(g.action, sig) && sig in IGNORED_SIGNALS) ==>
            h == g.(tasks := g.tasks[i := g.tasks[i].(at := Loop)]))
      && (AtDefault(g.action, sig) && sig in STOP_SIGNALS && sig != SIGSTOP ==>
            h == g.(tasks := g.tasks[i := g.tasks[i].(at := Orphan(sig))]))
      && (AtDefault(g.action, sig) && sig == SIGSTOP ==> h == SignalStop(g, i, SIGSTOP))
      && (AtDefault(g.action, sig) && sig !in IGNORED_SIGNALS && sig !in STOP_SIGNALS ==>
            h == g.(tasks := g.tasks[i := g.tasks[i].(at := Fatal)]))
  {
  }

  /** A turn of the loop ends in user space if nothing is ready, and otherwise goes
      on with the signal that comes next. */
  lemma LoopTakeMeaning(g: Group, i: nat)
    requires ValidTask(g, i)
    ensures var r := Take(g, i, g.tasks[i].blocked); var h := LoopTake(g, i);
      && h == r.group.(tasks := r.group.tasks[i := h.tasks[i]])
      && h.tasks[i] == r.group.tasks[i].(at := h.tasks[i].at)
      && h.tasks[i].at == if r.sig == 0 then User else Dispatch(r.sig)
  {
  }

  /** The information is that of the oldest record in the queue taken from. */
  lemma TakeInfo(g: Group, i: nat, mask: set<Signo>)
    requires ValidTask(g, i) && Take(g, i, mask).sig != 0
    ensures var r := Take(g, i, mask);
      var fromOwn := g.tasks[i].pending.signal - mask != {};
      var x := if fromOwn then g.tasks[i].pending else g.shared;
      var y := if fromOwn then r.group.tasks[i].pending else r.group.shared;
      var records := Of(x.list, r.sig);
      && r.info == (if records == [] then SigInfo(r.sig, SI_USER, 0) else records[0].info)
      && Of(y.list, r.sig) == (if records == [] then [] else records[1..])
      && (forall s: Signo :: s != r.sig ==> Of(y.list, s) == Of(x.list, s) && (s in y.signal <==> s in x.signal))
      && (r.sig in y.signal <==> Of(y.list, r.sig) != [])
  {
    var r := Take(g, i, mask);
    CollectMeaning(if g.tasks[i].pending.signal - mask != {} then g.tasks[i].pending else g.shared, r.sig);
  }

  /** Entering the loop either takes the report that is due or goes on. */
  lemma EnterLoopMeaning(g: Group, i: nat)
    requires ValidTask(g, i)
    ensures var h := EnterLoop(g, i);
      if g.flags.cldStopped || g.flags.cldContinued
      then h == g.(flags := Flags(g.flags.stopped, g.flags.continued, g.flags.groupExit, false, false))
      else h == g.(tasks := g.tasks[i := g.tasks[i].(at := Loop)])
  {
  }

  // ---------------------------------------------------------------- stopping

  /** Thread u is t after a group stop for sig has been announced. */
  predicate Announced(t: Task, u: Task, current: bool, sig: int) {
    if t.exiting || (t.tif && SIGKILL in t.pending.signal) || (!current && t.state == Stopped) then u == t
    else
      && u.job == JobCtl(sig, t.job.dequeued, true, true)
      && (if current then u == t.(job := u.job) else Woken(t.(job := u.job), u, false))
  }

  /** Starting a group stop: everyone who can stop is told to, the count is their
      number, and the exit code is the signal unless the group was stopped already. */
  lemma InitStopMeaning(g: Group, i: nat, sig: int)
    requires ValidTask(g, i)
    ensures var h := InitStop(g, i, sig);
      && |h.tasks| == |g.tasks| && h == g.(tasks := h.tasks, stopCount := h.stopCount, exitCode := h.exitCode)
      && (forall j :: 0 <= j < |g.tasks| ==> Announced(g.tasks[j], h.tasks[j], j == i, sig))
      && h.stopCount == |set j: nat | j < |g.tasks| && !g.tasks[j].exiting
                                      && !(g.tasks[j].tif && SIGKILL in g.tasks[j].pending.signal)
                                      && (j == i || g.tasks[j].state != Stopped)|
      && h.exitCode == if g.flags.stopped then g.exitCode else sig
  {
    assert MarkSet(g.tasks, i) == set j: nat | j < |g.tasks| && !g.tasks[j].exiting
                                               && !(g.tasks[j].tif && SIGKILL in g.tasks[j].pending.signal)
                                               && (j == i || g.tasks[j].state != Stopped);
  }

  /** Taking part uses up one mark; the last one completes the stop. */
  lemma ParticipateMeaning(g: Group, i: nat)
    requires ValidTask(g, i)
    ensures var h, t := Participate(g, i), g.tasks[i];
      && h == g.(tasks := g.tasks[i := t.(job := JobCtl(t.job.signo, false, false, false))],
                 stopCount := h.stopCount, flags := h.flags)
      && (!t.job.consume ==> h.stopCount == g.stopCount && h.flags == g.flags)
      && (t.job.consume ==> h.stopCount == (if g.stopCount == 0 then 0 else g.stopCount - 1))
      && (t.job.consume && (h.stopCount > 0 || g.flags.stopped) ==> h.flags == g.flags)
      && (t.job.consume && h.stopCount == 0 && !g.flags.stopped ==> h.flags == Flags(true, false, false, false, false))
  {
  }

  /** do_signal_stop: no stop without a pending one or the marker of a dequeued stop
      signal, and none is started in a dying group; the thread that stops resumes at
      `relock`. */
  lemma SignalStopMeaning(g: Group, i: nat, sig: int)
    requires ValidTask(g, i)
    ensures var h, t := SignalStop(g, i, sig), g.tasks[i];
      if t.job.stopPending || (t.job.dequeued && !g.flags.groupExit) then
        && ValidTask(h, i) && h.tasks[i].state == Stopped && h.tasks[i].at == Relock
        && h.exitCode == (if t.job.stopPending || g.flags.stopped then g.exitCode else sig)
      else h == g.(tasks := g.tasks[i := t.(at := Loop)])
  {
  }

  // ------------------------------------------------------------------ exiting

  /** The locked part of thread exit: the thread is exiting, the others are at most
      woken for what it could have taken, and a stop it had to join it joins. */
  lemma ExitMeaning(g: Group, i: nat)
    requires ValidTask(g, i)
    ensures var h, t := ExitLocked(g, i), g.tasks[i];
      && |h.tasks| == |g.tasks| && h.shared == g.shared && h.action == g.action && h.exitCode == g.exitCode
      && (forall j :: 0 <= j < |g.tasks| && j != i ==>
            if t.tif then Nudged(g.tasks[j], h.tasks[j], g.shared.signal - t.blocked) else h.tasks[j] == g.tasks[j])
      && (if t.tif && t.job.stopPending then
            && h.tasks[i] == t.(exiting := true, job := JobCtl(t.job.signo, false, false, false))
            && h.stopCount == (if t.job.consume && g.stopCount > 0 then g.stopCount - 1 else g.stopCount)
          else h.tasks[i] == t.(exiting := true) && h.stopCount == g.stopCount && h.flags == g.flags)
  {
    var which := g.shared.signal * (ALL - g.tasks[i].blocked);
    assert which == g.shared.signal - g.tasks[i].blocked;
    RetargetMeaning(SetExiting(g, i).tasks, i, 1, which);
  }
}
