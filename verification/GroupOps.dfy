/** The siglock sections in place: signal_struct and its thread ring as the
    kernel updates them, each proved to do what the state machine says. */
module GroupOps {
  import opened Signals
  import opened SigQueue
  import opened GroupMeaning
  import opened GroupState

  const EAGAIN := 11
  const EINVAL := 22

  const SIGALRM: Signo := 14

  /** The interval timer of the group: whether it is armed, and its period. */
  datatype RealTimer = RealTimer(queued: bool, period: nat)

  function NextThread(t: nat, n: nat): nat {
    if t + 1 == n then 0 else t + 1
  }

  class ThreadGroup {
    var tasks: array<Task>
    var shared: Pending
    var action: map<Signo, Disposition>
    var flags: Flags
    var stopCount: nat
    var exitCode: int
    var target: nat
    var timer: RealTimer

    ghost function State(): Group
      reads this, tasks
    {
      Group(tasks[..], shared, action, flags, stopCount, exitCode, target)
    }

    ghost predicate Valid(p: nat)
      reads this
    {
      target < tasks.Length && p < tasks.Length
    }

    // ---------------------------------------------------- loops over the ring

    /** do { rm_from_queue(mask, &t->pending) } while_each_thread(p, t). */
    method RemoveFromAll(p: nat, mask: set<Signo>)
      requires Valid(p)
      modifies tasks
      ensures tasks[..] == RemoveAll(old(tasks[..]), mask)
    {
      var t, n := p, tasks.Length;
      ghost var orig, k := tasks[..], 0;
      while true
        invariant 0 <= k < n && t == Ring(p, k, n)
        invariant forall j :: 0 <= j < n ==>
                    tasks[j] == if Visited(p, k, n, j) then RemoveFrom(orig[j], mask) else orig[j]
        decreases n - k
      {
        tasks[t] := tasks[t].(pending := RmFromQueue(tasks[t].pending, mask));
        k := k + 1;
        t := NextThread(t, n);
        if t == p {
          break;
        }
      }
    }

    /** The SIGCONT loop: cancel stops, drop stop signals, wake stopped threads. */
    method ContinueThreads(p: nat)
      requires Valid(p)
      modifies tasks
      ensures tasks[..] == ContinueAll(old(tasks[..]))
    {
      var t, n := p, tasks.Length;
      ghost var orig, k := tasks[..], 0;
      while true
        invariant 0 <= k < n && t == Ring(p, k, n)
        invariant forall j :: 0 <= j < n ==>
                    tasks[j] == if Visited(p, k, n, j) then Continue(orig[j]) else orig[j]
        decreases n - k
      {
        var task := ClearStop(tasks[t]);
        task := task.(pending := RmFromQueue(task.pending, STOP_SIGNALS));
        if task.state == Stopped {
          task := task.(state := Running);
        }
        tasks[t] := task;
        k := k + 1;
        t := NextThread(t, n);
        if t == p {
          break;
        }
      }
    }

    /** The group-exit loop of complete_signal. */
    method KillThreads(p: nat)
      requires Valid(p)
      modifies tasks
      ensures tasks[..] == KillAll(old(tasks[..]))
    {
      var t, n := p, tasks.Length;
      ghost var orig, k := tasks[..], 0;
      while true
        invariant 0 <= k < n && t == Ring(p, k, n)
        invariant forall j :: 0 <= j < n ==>
                    tasks[j] == if Visited(p, k, n, j) then Kill(orig[j]) else orig[j]
        decreases n - k
      {
        var task := ClearStop(tasks[t]);
        task := task.(pending := task.pending.(signal := task.pending.signal + {SIGKILL}));
        tasks[t] := WakeUp(task, true);
        k := k + 1;
        t := NextThread(t, n);
        if t == p {
          break;
        }
      }
    }

    /** The discarding loop of do_sigaction. */
    method DiscardFromAll(p: nat, sig: Signo)
      requires Valid(p)
      modifies tasks
      ensures tasks[..] == DiscardAll(old(tasks[..]), sig)
    {
      var t, n := p, tasks.Length;
      ghost var orig, k := tasks[..], 0;
      while true
        invariant 0 <= k < n && t == Ring(p, k, n)
        invariant forall j :: 0 <= j < n ==>
                    tasks[j] == if Visited(p, k, n, j)
                                then orig[j].(pending := RmFromQueueFull(orig[j].pending, {sig})) else orig[j]
        decreases n - k
      {
        tasks[t] := tasks[t].(pending := RmFromQueueFull(tasks[t].pending, {sig}));
        k := k + 1;
        t := NextThread(t, n);
        if t == p {
          break;
        }
      }
    }

    // -------------------------------------------------------- prepare_signal

    method PrepareSignal(sig: Signo, p: nat) returns (deliver: bool)
      requires Valid(p)
      modifies this, tasks
      ensures tasks == old(tasks) && timer == old(timer)
      ensures State() == Prepare(old(State()), sig)
      ensures deliver <==> !SigIgnored(old(State()), old(tasks[p]), sig)
      ensures sig in old(tasks[p]).blocked || sig in old(tasks[p]).realBlocked ==> deliver
      ensures sig !in old(tasks[p]).blocked && sig !in old(tasks[p]).realBlocked ==>
                (deliver <==>
                  !AtIgnore(old(action), sig) && !(AtDefault(old(action), sig) && sig in IGNORED_SIGNALS))
    {
      deliver := sig in tasks[p].blocked || sig in tasks[p].realBlocked
                 || !HandlerIgnored(Handled(action, sig), sig);
      if flags.groupExit {
      } else if sig in STOP_SIGNALS {
        shared := RmFromQueue(shared, {SIGCONT});
        RemoveFromAll(p, {SIGCONT});
      } else if sig == SIGCONT {
        shared := RmFromQueue(shared, STOP_SIGNALS);
        ContinueThreads(p);
        var why := NO_FLAGS;
        if flags.stopped {
          why := why.(cldContinued := true);
        } else if stopCount > 0 {
          why := why.(cldStopped := true);
        }
        if why != NO_FLAGS {
          flags := why.(continued := true);
          stopCount := 0;
          exitCode := 0;
        }
      }
    }

    // ------------------------------------------------------- complete_signal

    /** The cyclic scan: terminates, and finds a willing thread iff there is one. */
    method FindTarget(sig: Signo, p: nat, group: bool, onCpu: set<nat>) returns (t: int)
      requires Valid(p)
      modifies this`target
      ensures t == Pick(old(State()), sig, p, group, onCpu)
      ensures target == if t >= 0 && !Wants(tasks[p], sig, p in onCpu) then t else old(target)
    {
      if Wants(tasks[p], sig, p in onCpu) {
        return p;
      }
      if !group || tasks.Length == 1 {
        return -1;
      }
      ghost var g, k := State(), 0;
      t := target;
      while !Wants(tasks[t], sig, t in onCpu)
        invariant 0 <= k < tasks.Length && t == Ring(target, k, tasks.Length)
        invariant target == old(target)
        invariant Scan(g, sig, 0, onCpu) == Scan(g, sig, k, onCpu)
        decreases tasks.Length - k
      {
        t := NextThread(t, tasks.Length);
        k := k + 1;
        if t == target {
          return -1;
        }
      }
      target := t;
    }

    method CompleteSignal(sig: Signo, p: nat, group: bool, onCpu: set<nat>)
      requires Valid(p)
      modifies this, tasks
      ensures tasks == old(tasks) && timer == old(timer)
      ensures State() == Complete(old(State()), sig, p, group, onCpu)
      ensures Completed(old(State()), State(), sig, Pick(old(State()), sig, p, group, onCpu))
    {
      CompleteMeaning(State(), sig, p, group, onCpu);
      var t := FindTarget(sig, p, group, onCpu);
      if t == -1 {
        return;
      }
      if sig !in IGNORED_SIGNALS && sig !in STOP_SIGNALS && Handled(action, sig) == Default
         && !flags.groupExit && sig !in tasks[t].realBlocked && sig !in COREDUMP_SIGNALS {
        flags := EXIT_FLAGS;
        exitCode := sig;
        stopCount := 0;
        KillThreads(p);
        return;
      }
      tasks[t] := WakeUp(tasks[t], sig == SIGKILL);
    }

    // ---------------------------------------------------------- __send_signal

    method SetPending(p: nat, group: bool, q: Pending)
      requires Valid(p)
      modifies this`shared, tasks
      ensures State() == SetQueue(old(State()), p, group, q)
    {
      if group {
        shared := q;
      } else {
        tasks[p] := tasks[p].(pending := q);
      }
    }

    /** Returns 0, or -EAGAIN when a real-time record could not be allocated. */
    method SendSignal(sig: Signo, src: Source, p: nat, group: bool, slot: Slot, onCpu: set<nat>) returns (r: int)
      requires Valid(p)
      modifies this, tasks
      ensures tasks == old(tasks) && timer == old(timer)
      ensures State() == Send(old(State()), sig, src, p, group, slot, onCpu)
      ensures r == -EAGAIN <==>
                && !SigIgnored(old(State()), old(tasks[p]), sig)
                && SendTo(Queue(Prepare(old(State()), sig), p, group), sig, src, slot) == Refused
      ensures r == 0 || r == -EAGAIN
      ensures var dropped := sig !in old(tasks[p]).blocked && sig !in old(tasks[p]).realBlocked
                && (AtIgnore(old(action), sig) || (AtDefault(old(action), sig) && sig in IGNORED_SIGNALS));
              && (r == -EAGAIN <==>
                    !dropped && sig >= SIGRTMIN && src.Given? && src.code != SI_USER && slot == NoSlot)
              && (r == -EAGAIN ==> State() == old(State()))
              && (!dropped && r == 0 ==> sig in (if group then shared else tasks[p].pending).signal)
    {
      IgnoredMeaning(State(), tasks[p], sig);
      SendOutcome(State(), sig, src, p, group, slot, onCpu);
      var deliver := PrepareSignal(sig, p);
      if !deliver {
        return 0;
      }
      var pending := if group then shared else tasks[p].pending;
      if LegacyQueued(pending, sig) {
        return 0;
      }
      if !src.Forced? {
        if slot.Slot? {
          pending := Pending(pending.signal, pending.list + [Rec(slot.id, InfoFor(sig, src))]);
        } else if src.Given? && sig >= SIGRTMIN && src.code != SI_USER {
          return -EAGAIN;
        }
      }
      pending := Pending(pending.signal + {sig}, pending.list);
      SetPending(p, group, pending);
      CompleteSignal(sig, p, group, onCpu);
      return 0;
    }

    /** send_sigqueue: 1 if the signal is ignored, 0 otherwise. */
    method SendPreallocated(q: Rec, p: nat, group: bool, onCpu: set<nat>) returns (r: int)
      requires Valid(p)
      modifies this, tasks
      ensures tasks == old(tasks) && timer == old(timer)
      ensures State() == SendSigqueue(old(State()), q, p, group, onCpu)
      ensures r == if SigIgnored(old(State()), old(tasks[p]), q.info.signo) then 1 else 0
      ensures var sig := q.info.signo;
              r == 1 <==>
                && sig !in old(tasks[p]).blocked && sig !in old(tasks[p]).realBlocked
                && (AtIgnore(old(action), sig) || (AtDefault(old(action), sig) && sig in IGNORED_SIGNALS))
    {
      var deliver := PrepareSignal(q.info.signo, p);
      if !deliver {
        return 1;
      }
      var linked := Linked(q.id);
      if linked {
        return 0;
      }
      var pending := if group then shared else tasks[p].pending;
      SetPending(p, group, Append(pending, q));
      CompleteSignal(q.info.signo, p, group, onCpu);
      return 0;
    }

    /** !list_empty(&q->list): the object is on some list of the group. */
    method Linked(id: nat) returns (b: bool)
      ensures b <==> QueuedIn(State(), id)
    {
      b := (exists r :: r in shared.list && r.id == id)
           || exists j :: 0 <= j < tasks.Length && exists r :: r in tasks[j].pending.list && r.id == id;
    }

    /** force_sig_info before it sends. */
    method ExposeSignal(sig: Signo, p: nat)
      requires Valid(p)
      modifies this`action, tasks
      ensures State() == ForceBase(old(State()), sig, p)
    {
      var ignored, blocked := Handled(action, sig) == Ignore, sig in tasks[p].blocked;
      assert !blocked ==> tasks[p].blocked - {sig} == tasks[p].blocked;
      if blocked || ignored {
        action := action[sig := Default];
        if blocked {
          tasks[p] := tasks[p].(blocked := tasks[p].blocked - {sig});
          if MustAttend(shared, tasks[p]) {
            tasks[p] := WakeUp(tasks[p], false);
          }
        }
      }
    }

    /** force_sig_info, returning what sending the signal returns. */
    method ForceSigInfo(sig: Signo, src: Source, p: nat, slot: Slot, onCpu: set<nat>) returns (r: int)
      requires Valid(p)
      modifies this, tasks
      ensures tasks == old(tasks) && timer == old(timer)
      ensures State() == ForceSig(old(State()), sig, src, p, slot, onCpu)
      ensures var b := ForceBase(old(State()), sig, p);
              r == -EAGAIN <==>
                !SigIgnored(b, b.tasks[p], sig) && SendTo(Queue(Prepare(b, sig), p, false), sig, src, slot) == Refused
      ensures r == 0 || r == -EAGAIN
      ensures tasks[p].blocked == old(tasks[p]).blocked - {sig}
      ensures action == if sig in old(tasks[p]).blocked || AtIgnore(old(action), sig)
                        then old(action)[sig := Default] else old(action)
      ensures sig !in IGNORED_SIGNALS && r == 0 ==> sig in tasks[p].pending.signal
    {
      ghost var before := State();
      ExposeSignal(sig, p);
      ForceOutcome(before, sig, src, p, slot, onCpu);
      SendOutcome(State(), sig, src, p, false, slot, onCpu);
      r := SendSignal(sig, src, p, false, slot, onCpu);
    }

    // ---------------------------------------------------------- group stop

    /** task_donejobctl_pending with a stop signal and the group-stop bits. */
    method SetJobctlPending(t: nat, sig: int) returns (done: bool)
      requires t < tasks.Length
      modifies tasks
      ensures done <==> !FatalPending(old(tasks[t])) && !old(tasks[t]).exiting
      ensures tasks[..] == old(tasks[..])[t := if done then Mark(old(tasks[t]), sig) else old(tasks[t])]
    {
      if FatalPending(tasks[t]) || tasks[t].exiting {
        return false;
      }
      tasks[t] := Mark(tasks[t], sig);
      return true;
    }

    /** One turn of the marking loop for a thread other than current. */
    method MarkOther(t: nat, sig: int) returns (ok: bool)
      requires t < tasks.Length
      modifies tasks
      ensures ok <==> CanMark(old(tasks[t]), false)
      ensures tasks[..] == old(tasks[..])[t := Marked(old(tasks[t]), false, sig)]
    {
      ok := false;
      if tasks[t].state != Stopped {
        ok := SetJobctlPending(t, sig);
        if ok {
          tasks[t] := WakeUp(tasks[t], false);
        }
      }
    }

    /** The first half of do_signal_stop: mark current, then the rest of the ring. */
    method InitiateStop(i: nat, sig: int)
      requires Valid(i)
      modifies this`stopCount, this`exitCode, tasks
      ensures State() == InitStop(old(State()), i, sig)
      ensures exitCode == if flags.stopped then old(exitCode) else sig
    {
      if !flags.stopped {
        exitCode := sig;
      }
      stopCount := 0;
      var ok := SetJobctlPending(i, sig);
      if ok {
        stopCount := stopCount + 1;
      }
      MarkRest(old(tasks[..]), i, sig);
    }

    method MarkRest(ghost orig: seq<Task>, i: nat, sig: int)
      requires Valid(i) && |orig| == tasks.Length
      requires tasks[..] == orig[i := Marked(orig[i], true, sig)]
      requires stopCount == if CanMark(orig[i], true) then 1 else 0
      modifies this`stopCount, tasks
      ensures tasks[..] == MarkAll(orig, i, sig)
      ensures stopCount == |MarkSet(orig, i)|
    {
      var t, n := NextThread(i, tasks.Length), tasks.Length;
      ghost var k := 1;
      MarkingStarts(orig, i, sig);
      while t != i
        invariant 1 <= k <= n && t == Ring(i, k, n)
        invariant Marking(orig, tasks[..], i, k, sig, stopCount)
        decreases n - k
      {
        MarkingGoesOn(orig, tasks[..], i, k, sig, stopCount);
        var ok := MarkOther(t, sig);
        if ok {
          stopCount := stopCount + 1;
        }
        k := k + 1;
        t := NextThread(t, n);
      }
      MarkingEnds(orig, tasks[..], i, sig, stopCount);
    }

    /** task_participate_group_stop. */
    method ParticipateGroupStop(i: nat) returns (report: bool)
      requires Valid(i)
      modifies this`stopCount, this`flags, tasks
      ensures State() == Participate(old(State()), i)
      ensures report <==> Completes(old(State()), i)
    {
      var consume := tasks[i].job.consume;
      tasks[i] := ClearStop(tasks[i]);
      if !consume {
        return false;
      }
      if stopCount != 0 {
        stopCount := stopCount - 1;
      }
      if stopCount == 0 && !flags.stopped {
        flags := STOPPED_FLAGS;
        return true;
      }
      return false;
    }

    /** do_signal_stop: true if thread i has entered TASK_STOPPED. */
    method DoSignalStop(i: nat, sig: int) returns (stopped: bool, report: bool)
      requires Valid(i)
      modifies this, tasks
      ensures tasks == old(tasks) && timer == old(timer)
      ensures stopped <==> !StopCancelled(old(State()), i)
      ensures State() == if stopped then DoStop(old(State()), i, sig) else old(State())
      ensures report <==> stopped && Completes(StopBase(old(State()), i, sig), i)
      ensures stopped <==> old(tasks[i]).job.stopPending || (old(tasks[i]).job.dequeued && !old(flags.groupExit))
      ensures exitCode == if !stopped || old(tasks[i]).job.stopPending || old(flags.stopped) then old(exitCode) else sig
    {
      if !tasks[i].job.stopPending {
        if !tasks[i].job.dequeued || flags.groupExit {
          return false, false;
        }
        InitiateStop(i, sig);
      }
      assert State() == StopBase(old(State()), i, sig);
      report := ParticipateGroupStop(i);
      tasks[i] := tasks[i].(state := Stopped, at := Relock);
      stopped := true;
    }

    // ------------------------------------------------- masks and thread exit

    method RetargetSharedPending(i: nat, which: set<Signo>)
      requires Valid(i)
      modifies tasks
      ensures State() == Retarget(old(State()), i, which)
    {
      var n := tasks.Length;
      var retarget := shared.signal * which;
      if retarget == {} {
        return;
      }
      ghost var result := RetargetFrom(tasks[..], i, 1, retarget);
      ghost var k := 1;
      var t := NextThread(i, n);
      while t != i
        invariant 1 <= k <= n && t == Ring(i, k, n)
        invariant RetargetFrom(tasks[..], i, k, retarget) == result
        decreases n - k
      {
        var task := tasks[t];
        if !task.exiting && HasPending(retarget, task.blocked) {
          retarget := retarget * task.blocked;
          if !task.tif {
            tasks[t] := WakeUp(task, false);
          }
          if retarget == {} {
            break;
          }
        }
        k := k + 1;
        t := NextThread(t, n);
      }
    }

    /** __donetask_blocked on current. */
    method SetTaskBlocked(i: nat, newset: set<Signo>)
      requires Valid(i)
      modifies tasks
      ensures State() == SetBlocked(old(State()), i, newset)
      ensures tasks[i].blocked == newset
      ensures tasks[i].tif <==>
                tasks[i].job.stopPending || exists s :: s in tasks[i].pending.signal + shared.signal && s !in newset
      ensures tasks[i] == old(tasks[i]).(blocked := newset, tif := tasks[i].tif)
      ensures forall j :: 0 <= j < tasks.Length && j != i ==>
                Nudged(old(tasks[j]), tasks[j], shared.signal * (newset - old(tasks[i]).blocked))
    {
      SetBlockedMeaning(State(), i, newset);
      if tasks[i].tif && tasks.Length > 1 {
        RetargetSharedPending(i, newset - tasks[i].blocked);
      }
      tasks[i] := tasks[i].(blocked := newset);
      tasks[i] := Recalc(shared, tasks[i]);
    }

    /** do_sigtimedwait before it sleeps. */
    method StartTimedWait(i: nat, mask: set<Signo>)
      requires Valid(i)
      modifies tasks
      ensures State() == BeginTimedWait(old(State()), i, mask)
      ensures forall s: Signo :: s !in tasks[i].blocked <==> s !in mask || s !in old(tasks[i]).blocked
      ensures tasks[i].realBlocked == old(tasks[i]).blocked
      ensures tasks[i].tif <==>
                tasks[i].job.stopPending
                || exists s :: s in tasks[i].pending.signal + shared.signal && s !in tasks[i].blocked
    {
      tasks[i] := tasks[i].(realBlocked := tasks[i].blocked);
      tasks[i] := tasks[i].(blocked := tasks[i].blocked * mask);
      AttendMeaning(shared, tasks[i]);
      tasks[i] := Recalc(shared, tasks[i]);
    }

    /** do_sigtimedwait after it woke. */
    method FinishTimedWait(i: nat)
      requires Valid(i)
      modifies tasks
      ensures State() == EndTimedWait(old(State()), i)
      ensures tasks[i].blocked == old(tasks[i]).realBlocked && tasks[i].realBlocked == {}
      ensures tasks[i].tif <==>
                tasks[i].job.stopPending
                || exists s :: s in tasks[i].pending.signal + shared.signal && s !in tasks[i].blocked
    {
      EndTimedWaitMeaning(State(), i);
      SetTaskBlocked(i, tasks[i].realBlocked);
      tasks[i] := tasks[i].(realBlocked := {});
    }

    /** The locked part of exit_signals; `report` asks for CLD_STOPPED. */
    method ExitSignals(i: nat) returns (report: bool)
      requires Valid(i)
      modifies this, tasks
      ensures tasks == old(tasks) && timer == old(timer)
      ensures State() == ExitLocked(old(State()), i)
      ensures report <==>
                && old(tasks[i]).tif && old(tasks[i]).job.stopPending
                && Completes(ExitBase(old(State()), i), i)
    {
      report := false;
      tasks[i] := tasks[i].(exiting := true);
      if !tasks[i].tif {
        return;
      }
      RetargetSharedPending(i, ALL - tasks[i].blocked);
      assert State() == ExitBase(old(State()), i);
      if tasks[i].job.stopPending {
        report := ParticipateGroupStop(i);
      }
    }

    // ------------------------------------------------------------- do_sigaction

    method DoSigaction(i: nat, sig: Signo, d: Disposition) returns (r: int)
      requires Valid(i)
      modifies this, tasks
      ensures tasks == old(tasks) && timer == old(timer)
      ensures State() == Sigaction(old(State()), sig, d)
      ensures r == if sig == SIGKILL || sig == SIGSTOP then -EINVAL else 0
      ensures r == 0 ==> action == old(action)[sig := d]
      ensures r != 0 ==> State() == old(State())
      ensures d.Handler? || (d == Default && sig !in IGNORED_SIGNALS) ==>
                State() == old(State()).(action := action)
    {
      SigactionMeaning(State(), sig, d);
      if sig == SIGKILL || sig == SIGSTOP {
        return -EINVAL;
      }
      action := action[sig := d];
      if HandlerIgnored(d, sig) {
        shared := RmFromQueueFull(shared, {sig});
        DiscardFromAll(i, sig);
      }
      return 0;
    }

    // ------------------------------------------------------------ dequeue_signal

    /** dequeue_signal on current, with its recalc_sigpending.  A SIGALRM from the
        shared queue arms a periodic interval timer that is not armed. */
    method DequeueSignal(i: nat, mask: set<Signo>) returns (sig: int, info: SigInfo)
      requires Valid(i)
      modifies this`shared, this`timer, tasks
      ensures Taken(State(), sig, info) == Take(old(State()), i, mask)
      ensures timer.period == old(timer.period)
      ensures timer.queued <==>
                || old(timer.queued)
                || (sig == SIGALRM && SIGALRM !in old(tasks[i]).pending.signal - mask && timer.period != 0)
    {
      var task := tasks[i];
      var d := Dequeue(task.pending, mask);
      sig, info := d.sig, d.after.info;
      task := task.(pending := d.after.queue);
      if sig == 0 {
        var e := Dequeue(shared, mask);
        sig, info := e.sig, e.after.info;
        shared := e.after.queue;
        if sig == SIGALRM {
          if !timer.queued && timer.period != 0 {
            timer := timer.(queued := true);
          }
        }
      }
      task := Recalc(shared, task);
      if sig in STOP_SIGNALS {
        task := task.(job := task.job.(dequeued := true));
      }
      tasks[i] := task;
    }
  }

  /** The threads marked after k threads of the ring have been looked at. */
  ghost function MarkedSoFar(ts: seq<Task>, i: nat, k: nat): set<nat> {
    set j: nat | j < |ts| && Visited(i, k, |ts|, j) && CanMark(ts[j], j == i)
  }

  /** Which of the threads have been marked after k threads of the ring. */
  ghost predicate MarkedUpTo(orig: seq<Task>, now: seq<Task>, i: nat, k: nat, sig: int) {
    && |now| == |orig|
    && forall j :: 0 <= j < |orig| ==>
         now[j] == if Visited(i, k, |orig|, j) then Marked(orig[j], j == i, sig) else orig[j]
  }

  /** The marking loop after k threads of the ring. */
  ghost predicate Marking(orig: seq<Task>, now: seq<Task>, i: nat, k: nat, sig: int, count: nat) {
    MarkedUpTo(orig, now, i, k, sig) && count == |MarkedSoFar(orig, i, k)|
  }

  lemma MarkingStarts(orig: seq<Task>, i: nat, sig: int)
    requires i < |orig|
    ensures Marking(orig, orig[i := Marked(orig[i], true, sig)], i, 1, sig, if CanMark(orig[i], true) then 1 else 0)
  {
    assert MarkedSoFar(orig, i, 1) == if CanMark(orig[i], true) then {i} else {};
  }

  /** The k-th thread is the one that a further turn of the ring visits. */
  lemma VisitedNext(i: nat, k: nat, n: nat, m: nat)
    requires i < n && 1 <= k < n && m < n
    ensures Visited(i, k + 1, n, m) <==> Visited(i, k, n, m) || m == Ring(i, k, n)
    ensures !Visited(i, k, n, Ring(i, k, n)) && Ring(i, k, n) != i
  {
  }

  lemma MarkedSoFarNext(ts: seq<Task>, i: nat, k: nat)
    requires i < |ts| && 1 <= k < |ts|
    ensures var j := Ring(i, k, |ts|);
            && j !in MarkedSoFar(ts, i, k)
            && MarkedSoFar(ts, i, k + 1) == MarkedSoFar(ts, i, k) + if CanMark(ts[j], false) then {j} else {}
  {
    var j := Ring(i, k, |ts|);
    VisitedNext(i, k, |ts|, j);
    forall m: nat
      ensures m in MarkedSoFar(ts, i, k + 1)
         <==> m in MarkedSoFar(ts, i, k) || (m == j && CanMark(ts[j], false))
    {
      if m < |ts| {
        VisitedNext(i, k, |ts|, m);
      }
    }
  }

  lemma MarkedUpToNext(orig: seq<Task>, now: seq<Task>, i: nat, k: nat, sig: int)
    requires i < |orig| && 1 <= k < |orig| && MarkedUpTo(orig, now, i, k, sig)
    ensures var j := Ring(i, k, |orig|);
            now[j] == orig[j] && MarkedUpTo(orig, now[j := Marked(now[j], false, sig)], i, k + 1, sig)
  {
    var n, j := |orig|, Ring(i, k, |orig|);
    var next := now[j := Marked(now[j], false, sig)];
    VisitedNext(i, k, n, j);
    forall m: nat | m < n
      ensures next[m] == if Visited(i, k + 1, n, m) then Marked(orig[m], m == i, sig) else orig[m]
    {
      VisitedNext(i, k, n, m);
    }
  }

  lemma MarkingGoesOn(orig: seq<Task>, now: seq<Task>, i: nat, k: nat, sig: int, count: nat)
    requires i < |orig| && 1 <= k < |orig| && Marking(orig, now, i, k, sig, count)
    ensures var j := Ring(i, k, |orig|);
            Marking(orig, now[j := Marked(now[j], false, sig)], i, k + 1, sig,
                    if CanMark(now[j], false) then count + 1 else count)
  {
    MarkedUpToNext(orig, now, i, k, sig);
    MarkedSoFarNext(orig, i, k);
  }

  lemma MarkingEnds(orig: seq<Task>, now: seq<Task>, i: nat, sig: int, count: nat)
    requires i < |orig| && Marking(orig, now, i, |orig|, sig, count)
    ensures now == MarkAll(orig, i, sig) && count == |MarkSet(orig, i)|
  {
    assert MarkedSoFar(orig, i, |orig|) == MarkSet(orig, i);
  }
}
