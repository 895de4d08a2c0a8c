/** Record lifetime and the limit for whole group runs: a thread group and the pool
    of sigqueue objects that its sends are charged to. */
module GroupRecords {
  import opened Signals
  import opened SigQueue
  import opened GroupState
  import opened GroupRun
  import opened GroupQueues
  import R = Records

  /** The pool's queues are the group's: the shared one, then one for each thread. */
  datatype System = System(group: Group, pool: R.Pool)

  function Queues(g: Group): (qs: seq<Pending>)
    ensures |qs| == |g.tasks| + 1
  {
    [g.shared] + seq(|g.tasks|, j requires 0 <= j < |g.tasks| => g.tasks[j].pending)
  }

  ghost predicate Coupled(x: System) {
    x.pool.queues == Queues(x.group)
  }

  function Index(p: nat, group: bool): nat {
    if group then 0 else p + 1
  }

  // ---------------------------------------------------- what a step does to the pool

  /** prepare_signal, queue after queue. */
  function PreparePool(p: R.Pool, limit: nat, g: Group, sig: Signo): (h: R.Pool)
    ensures |h.queues| == |p.queues|
  {
    R.SweepQueues(p, limit, R.SweepShort({SIGCONT}), 0, |p.queues|);
    R.SweepQueues(p, limit, R.SweepShort(STOP_SIGNALS), 0, |p.queues|);
    if g.flags.groupExit then p
    else if sig in STOP_SIGNALS then R.SweepRange(p, limit, R.SweepShort({SIGCONT}), 0, |p.queues|)
    else if sig == SIGCONT then R.SweepRange(p, limit, R.SweepShort(STOP_SIGNALS), 0, |p.queues|)
    else p
  }

  /** The group exit sets SIGKILL on every thread. */
  function KillPool(p: R.Pool, limit: nat, g: Group, h: Group): R.Pool {
    if h.flags.groupExit && !g.flags.groupExit then R.SweepRange(p, limit, R.SweepBits({SIGKILL}), 1, |p.queues|)
    else p
  }

  /** Which record __send_signal gets: `id` if it allocates one and succeeds. */
  function Obtained(p: R.Pool, limit: nat, q: nat, sig: Signo, src: Source, id: nat, memory: bool): Slot
    requires q < |p.queues|
  {
    if !LegacyQueued(p.queues[q], sig) && !src.Forced? && R.AllocOk(p, limit, R.Overrides(sig, src), memory)
    then Slot(id) else NoSlot
  }

  function SendPool(p: R.Pool, limit: nat, g: Group, sig: Signo, src: Source, t: nat, group: bool, id: nat,
                    memory: bool): (h: R.Pool)
    requires ValidTask(g, t) && |p.queues| == |g.tasks| + 1
  {
    var p1 := PreparePool(p, limit, g, sig);
    if SigIgnored(g, g.tasks[t], sig) then p1 else R.Send(p1, limit, Index(t, group), sig, src, id, memory)
  }

  function TimerPool(p: R.Pool, limit: nat, g: Group, q: Rec, t: nat, group: bool): R.Pool
    requires ValidTask(g, t) && |p.queues| == |g.tasks| + 1
  {
    var p1 := PreparePool(p, limit, g, q.info.signo);
    if SigIgnored(g, g.tasks[t], q.info.signo) || R.OnList(p1, q.id) then p1
    else R.SetQueue(p1, Index(t, group), Append(p1.queues[Index(t, group)], q))
  }

  function TakePool(p: R.Pool, limit: nat, g: Group, i: nat, mask: set<Signo>): R.Pool
    requires ValidTask(g, i) && |p.queues| == |g.tasks| + 1
  {
    var q := if g.tasks[i].pending.signal - mask != {} then i + 1 else 0;
    R.Next(p, limit, R.TakeNext(q, mask))
  }

  /** A step of the group, with the object and the memory at hand for a record. */
  datatype Turn =
    | Does(step: Step, id: nat, memory: bool)
    | ChargeUser
    | RefundUser
    | CreateTimer(id: nat, memory: bool)
    | DeleteTimer(id: nat)

  function Acted(x: System, limit: nat, s: Step, id: nat, memory: bool): R.Pool
    requires Enabled(x.group, s) && |x.pool.queues| == |x.group.tasks| + 1
  {
    var g, p := x.group, x.pool;
    match s
    case Generate(sig, src, t, group, _, _) =>
      KillPool(SendPool(p, limit, g, sig, src, t, group, id, memory), limit, g, Next(g, s))
    case Force(sig, src, t, _, _) =>
      KillPool(SendPool(p, limit, ForceBase(g, sig, t), sig, src, t, false, id, memory), limit, g, Next(g, s))
    case GenerateQueued(q, t, group, _) =>
      KillPool(TimerPool(p, limit, g, q, t, group), limit, g, Next(g, s))
    case SetAction(sig, d) =>
      if sig != SIGKILL && sig != SIGSTOP && HandlerIgnored(d, sig)
      then R.SweepRange(p, limit, R.SweepFull({sig}), 0, |p.queues|) else p
    case TakeSync(i, mask) => TakePool(p, limit, g, i, mask)
    case TakeInLoop(i) => TakePool(p, limit, g, i, g.tasks[i].blocked)
    case _ => p
  }

  /** The step's record is the one the pool gives it, and timers send their own. */
  predicate Agrees(x: System, limit: nat, s: Step, id: nat, memory: bool)
    requires Enabled(x.group, s) && |x.pool.queues| == |x.group.tasks| + 1
  {
    match s
    case Generate(sig, src, t, group, slot, _) =>
      R.Fresh(x.pool, id)
      && slot == Obtained(PreparePool(x.pool, limit, x.group, sig), limit, Index(t, group), sig, src, id, memory)
    case Force(sig, src, t, slot, _) =>
      R.Fresh(x.pool, id)
      && slot == Obtained(PreparePool(x.pool, limit, x.group, sig), limit, t + 1, sig, src, id, memory)
    case GenerateQueued(q, _, _, _) => q.id in x.pool.prealloc
    case _ => true
  }

  predicate Possible(x: System, limit: nat, m: Turn) {
    match m
    case Does(s, id, memory) =>
      Enabled(x.group, s) && |x.pool.queues| == |x.group.tasks| + 1 && Agrees(x, limit, s, id, memory)
    case ChargeUser => true
    case RefundUser => x.pool.inFlight > 0
    case CreateTimer(id, memory) => R.Enabled(x.pool, R.AllocTimer(id, memory))
    case DeleteTimer(id) => R.Enabled(x.pool, R.FreeTimer(id))
  }

  function After(x: System, limit: nat, m: Turn): System
    requires Possible(x, limit, m)
  {
    match m
    case Does(s, id, memory) => System(Next(x.group, s), Acted(x, limit, s, id, memory))
    case ChargeUser => x.(pool := R.Charge(x.pool))
    case RefundUser => x.(pool := R.Refund(x.pool))
    case CreateTimer(id, memory) => x.(pool := R.Next(x.pool, limit, R.AllocTimer(id, memory)))
    case DeleteTimer(id) => x.(pool := R.Next(x.pool, limit, R.FreeTimer(id)))
  }

  // ------------------------------------------------------------ group and pool agree

  lemma SameIsEqual(g: Group, h: Group)
    requires SameQueues(g, h)
    ensures Queues(h) == Queues(g)
  {
  }

  lemma SetQueueAt(g: Group, t: nat, group: bool, q: Pending)
    requires ValidTask(g, t)
    ensures Queues(SetQueue(g, t, group, q)) == Queues(g)[Index(t, group) := q]
    ensures Queues(g)[Index(t, group)] == Queue(g, t, group)
  {
  }

  lemma PrepareKeepsShape(g: Group, sig: Signo)
    ensures |Prepare(g, sig).tasks| == |g.tasks| && Prepare(g, sig).target == g.target
    ensures Prepare(g, sig).flags.groupExit == g.flags.groupExit
  {
  }

  lemma SweepIsPrepare(g: Group, sig: Signo, mask: set<Signo>, qs: seq<Pending>)
    requires !g.flags.groupExit
    requires (sig in STOP_SIGNALS && mask == {SIGCONT}) || (sig == SIGCONT && mask == STOP_SIGNALS)
    requires |qs| == |g.tasks| + 1 && forall q :: 0 <= q < |qs| ==> qs[q] == RmFromQueue(Queues(g)[q], mask)
    ensures qs == Queues(Prepare(g, sig))
  {
    forall q | 0 <= q < |qs|
      ensures qs[q] == Queues(Prepare(g, sig))[q]
    {
    }
  }

  lemma PrepareMatches(p: R.Pool, limit: nat, g: Group, sig: Signo)
    requires p.queues == Queues(g)
    ensures PreparePool(p, limit, g, sig).queues == Queues(Prepare(g, sig))
  {
    if !g.flags.groupExit && (sig in STOP_SIGNALS || sig == SIGCONT) {
      var mask := if sig in STOP_SIGNALS then {SIGCONT} else STOP_SIGNALS;
      R.SweepQueues(p, limit, R.SweepShort(mask), 0, |p.queues|);
      SweepIsPrepare(g, sig, mask, PreparePool(p, limit, g, sig).queues);
    }
  }

  lemma PrepareSound(p: R.Pool, limit: nat, g: Group, sig: Signo)
    requires R.PoolInv(p, [], limit)
    ensures R.PoolInv(PreparePool(p, limit, g, sig), [], limit) && R.NoReuse(p, PreparePool(p, limit, g, sig))
  {
    R.SweepKeeps(p, limit, R.SweepShort({SIGCONT}), 0, |p.queues|);
    R.SweepKeeps(p, limit, R.SweepShort(STOP_SIGNALS), 0, |p.queues|);
  }

  lemma KillMatches(p: R.Pool, limit: nat, g: Group, sig: Signo, t: nat, group: bool, onCpu: set<nat>)
    requires ValidTask(g, t) && p.queues == Queues(g)
    ensures var h := Complete(g, sig, t, group, onCpu); KillPool(p, limit, g, h).queues == Queues(h)
  {
    var h := Complete(g, sig, t, group, onCpu);
    if h.flags.groupExit && !g.flags.groupExit {
      R.SweepQueues(p, limit, R.SweepBits({SIGKILL}), 1, |p.queues|);
      var qs := KillPool(p, limit, g, h).queues;
      forall q | 0 <= q < |qs|
        ensures qs[q] == Queues(h)[q]
      {
      }
    } else {
      SameIsEqual(g, h);
    }
  }

  lemma KillSound(p: R.Pool, limit: nat, g: Group, h: Group)
    requires R.PoolInv(p, [], limit)
    ensures R.PoolInv(KillPool(p, limit, g, h), [], limit)
  {
    R.SweepKeeps(p, limit, R.SweepBits({SIGKILL}), 1, |p.queues|);
  }

  /** A signal that is not ignored reaches its queue. */
  lemma ArrivalMatches(p: R.Pool, limit: nat, g: Group, sig: Signo, src: Source, t: nat, group: bool, id: nat,
                       memory: bool)
    requires ValidTask(g, t) && p.queues == Queues(g)
    ensures var q := Index(t, group);
            var r := SendTo(Queue(g, t, group), sig, src, Obtained(p, limit, q, sig, src, id, memory));
            R.Send(p, limit, q, sig, src, id, memory).queues
              == Queues(if r.Accepted? then SetQueue(g, t, group, r.queue) else g)
  {
    var q := Index(t, group);
    SetQueueAt(g, t, group, Queue(g, t, group));
    var r := SendTo(Queue(g, t, group), sig, src, Obtained(p, limit, q, sig, src, id, memory));
    if r.Accepted? {
      SetQueueAt(g, t, group, r.queue);
    }
  }

  lemma SendMatches(p: R.Pool, limit: nat, g: Group, sig: Signo, src: Source, t: nat, group: bool, slot: Slot,
                    onCpu: set<nat>, id: nat, memory: bool)
    requires p.queues == Queues(g) && ValidTask(g, t)
    requires slot == Obtained(PreparePool(p, limit, g, sig), limit, Index(t, group), sig, src, id, memory)
    ensures var h := Send(g, sig, src, t, group, slot, onCpu);
            KillPool(SendPool(p, limit, g, sig, src, t, group, id, memory), limit, g, h).queues == Queues(h)
  {
    var g1, p1 := Prepare(g, sig), PreparePool(p, limit, g, sig);
    PrepareKeepsShape(g, sig);
    PrepareMatches(p, limit, g, sig);
    if !SigIgnored(g, g.tasks[t], sig) {
      ArrivalMatches(p1, limit, g1, sig, src, t, group, id, memory);
      var r := SendTo(Queue(g1, t, group), sig, src, slot);
      if r.Accepted? {
        KillMatches(R.Send(p1, limit, Index(t, group), sig, src, id, memory), limit,
                    SetQueue(g1, t, group, r.queue), sig, t, group, onCpu);
      }
    }
  }

  lemma SendSound(p: R.Pool, limit: nat, g: Group, sig: Signo, src: Source, t: nat, group: bool, id: nat,
                  memory: bool)
    requires R.PoolInv(p, [], limit) && ValidTask(g, t) && |p.queues| == |g.tasks| + 1 && R.Fresh(p, id)
    ensures R.PoolInv(SendPool(p, limit, g, sig, src, t, group, id, memory), [], limit)
  {
    PrepareSound(p, limit, g, sig);
    R.SendKeeps(PreparePool(p, limit, g, sig), limit, Index(t, group), sig, src, id, memory);
  }

  /** A timer's object is on a list of the pool iff it is queued in the group. */
  lemma LinkedMatches(p: R.Pool, g: Group, id: nat)
    requires p.queues == Queues(g)
    ensures R.OnList(p, id) <==> QueuedIn(g, id)
  {
    R.TotalPositive(p.queues, id);
    if QueuedIn(g, id) {
      if r :| r in g.shared.list && r.id == id {
        assert r in p.queues[0].list;
      } else {
        var j :| 0 <= j < |g.tasks| && exists r :: r in g.tasks[j].pending.list && r.id == id;
        assert p.queues[j + 1] == g.tasks[j].pending;
      }
    }
    if q :| 0 <= q < |p.queues| && exists r :: r in p.queues[q].list && r.id == id {
      assert q > 0 ==> p.queues[q] == g.tasks[q - 1].pending;
    }
  }

  lemma TimerMatches(p: R.Pool, limit: nat, g: Group, q: Rec, t: nat, group: bool, onCpu: set<nat>)
    requires p.queues == Queues(g) && ValidTask(g, t)
    ensures var h := SendSigqueue(g, q, t, group, onCpu);
            KillPool(TimerPool(p, limit, g, q, t, group), limit, g, h).queues == Queues(h)
  {
    var sig := q.info.signo;
    var g1, p1 := Prepare(g, sig), PreparePool(p, limit, g, sig);
    PrepareKeepsShape(g, sig);
    PrepareMatches(p, limit, g, sig);
    LinkedMatches(p1, g1, q.id);
    if !SigIgnored(g, g.tasks[t], sig) && !QueuedIn(g1, q.id) {
      var i := Index(t, group);
      SetQueueAt(g1, t, group, Append(Queue(g1, t, group), q));
      KillMatches(R.SetQueue(p1, i, Append(p1.queues[i], q)), limit,
                  SetQueue(g1, t, group, Append(Queue(g1, t, group), q)), sig, t, group, onCpu);
    }
  }

  lemma TimerSound(p: R.Pool, limit: nat, g: Group, q: Rec, t: nat, group: bool)
    requires R.PoolInv(p, [], limit) && ValidTask(g, t) && |p.queues| == |g.tasks| + 1 && q.id in p.prealloc
    ensures R.PoolInv(TimerPool(p, limit, g, q, t, group), [], limit)
  {
    PrepareSound(p, limit, g, q.info.signo);
    R.SendTimerKeeps(PreparePool(p, limit, g, q.info.signo), limit, Index(t, group), q);
  }

  lemma TakeMatches(p: R.Pool, limit: nat, g: Group, i: nat, mask: set<Signo>)
    requires p.queues == Queues(g) && ValidTask(g, i)
    ensures TakePool(p, limit, g, i, mask).queues == Queues(Take(g, i, mask).group)
  {
    var q := if g.tasks[i].pending.signal - mask != {} then i + 1 else 0;
    var d := Dequeue(p.queues[q], mask);
    R.FreeAllQueues(R.SetQueue(p, q, d.after.queue), d.after.removed);
    TakeAt(g, i, mask);
  }

  /** dequeue_signal on current changes the queue it takes from and no other. */
  lemma TakeAt(g: Group, i: nat, mask: set<Signo>)
    requires ValidTask(g, i)
    ensures var q := if g.tasks[i].pending.signal - mask != {} then i + 1 else 0;
            Queues(Take(g, i, mask).group) == Queues(g)[q := Dequeue(Queues(g)[q], mask).after.queue]
  {
    var q := if g.tasks[i].pending.signal - mask != {} then i + 1 else 0;
    var h := Take(g, i, mask).group;
    forall k | 0 <= k < |g.tasks| + 1
      ensures Queues(h)[k] == Queues(g)[q := Dequeue(Queues(g)[q], mask).after.queue][k]
    {
    }
  }

  lemma TakeSound(p: R.Pool, limit: nat, g: Group, i: nat, mask: set<Signo>)
    requires R.PoolInv(p, [], limit) && ValidTask(g, i) && |p.queues| == |g.tasks| + 1
    ensures R.PoolInv(TakePool(p, limit, g, i, mask), [], limit)
  {
    var q := if g.tasks[i].pending.signal - mask != {} then i + 1 else 0;
    R.RemovalEvents(p, limit, R.TakeNext(q, mask));
  }

  lemma SigactionMatches(p: R.Pool, limit: nat, g: Group, sig: Signo, d: Disposition)
    requires p.queues == Queues(g) && sig != SIGKILL && sig != SIGSTOP && HandlerIgnored(d, sig)
    ensures R.SweepRange(p, limit, R.SweepFull({sig}), 0, |p.queues|).queues == Queues(Sigaction(g, sig, d))
  {
    R.SweepQueues(p, limit, R.SweepFull({sig}), 0, |p.queues|);
    var qs := R.SweepRange(p, limit, R.SweepFull({sig}), 0, |p.queues|).queues;
    forall q | 0 <= q < |qs|
      ensures qs[q] == Queues(Sigaction(g, sig, d))[q]
    {
    }
  }

  // ------------------------------------------------------------------ whole runs

  ghost predicate SystemInv(x: System, limit: nat) {
    Coupled(x) && R.PoolInv(x.pool, [], limit)
  }

  // ------------------------------------------------ the group and the pool in step

  lemma ForceMatches(x: System, limit: nat, sig: Signo, src: Source, t: nat, slot: Slot, onCpu: set<nat>, id: nat,
                     memory: bool)
    requires Coupled(x) && Possible(x, limit, Does(Force(sig, src, t, slot, onCpu), id, memory))
    ensures Coupled(After(x, limit, Does(Force(sig, src, t, slot, onCpu), id, memory)))
  {
    var b := ForceBase(x.group, sig, t);
    ForceBaseSame(x.group, sig, t);
    SameIsEqual(x.group, b);
    assert PreparePool(x.pool, limit, b, sig) == PreparePool(x.pool, limit, x.group, sig);
    SendMatches(x.pool, limit, b, sig, src, t, false, slot, onCpu, id, memory);
  }

  lemma LoopTakeMatches(x: System, limit: nat, i: nat, id: nat, memory: bool)
    requires Coupled(x) && Possible(x, limit, Does(TakeInLoop(i), id, memory))
    ensures Coupled(After(x, limit, Does(TakeInLoop(i), id, memory)))
  {
    var mask := x.group.tasks[i].blocked;
    TakeMatches(x.pool, limit, x.group, i, mask);
    OwnSame(Take(x.group, i, mask).group, LoopTake(x.group, i), i);
    SameIsEqual(Take(x.group, i, mask).group, LoopTake(x.group, i));
  }

  lemma SetActionMatches(x: System, limit: nat, sig: Signo, d: Disposition, id: nat, memory: bool)
    requires Coupled(x) && Possible(x, limit, Does(SetAction(sig, d), id, memory))
    ensures Coupled(After(x, limit, Does(SetAction(sig, d), id, memory)))
  {
    if sig != SIGKILL && sig != SIGSTOP && HandlerIgnored(d, sig) {
      SigactionMatches(x.pool, limit, x.group, sig, d);
    } else {
      SameIsEqual(x.group, Sigaction(x.group, sig, d));
    }
  }

  lemma PassiveMatches(x: System, limit: nat, s: Step, id: nat, memory: bool)
    requires Coupled(x) && Possible(x, limit, Does(s, id, memory)) && Passive(s)
    ensures Coupled(After(x, limit, Does(s, id, memory)))
  {
    PassiveSame(x.group, s);
    SameIsEqual(x.group, Next(x.group, s));
    assert Acted(x, limit, s, id, memory) == x.pool;
  }

  lemma StepMatches(x: System, limit: nat, s: Step, id: nat, memory: bool)
    requires Coupled(x) && Possible(x, limit, Does(s, id, memory))
    ensures Coupled(After(x, limit, Does(s, id, memory)))
  {
    match s
    case Generate(sig, src, t, group, slot, onCpu) =>
      SendMatches(x.pool, limit, x.group, sig, src, t, group, slot, onCpu, id, memory);
    case Force(sig, src, t, slot, onCpu) => ForceMatches(x, limit, sig, src, t, slot, onCpu, id, memory);
    case GenerateQueued(q, t, group, onCpu) => TimerMatches(x.pool, limit, x.group, q, t, group, onCpu);
    case SetAction(sig, d) => SetActionMatches(x, limit, sig, d, id, memory);
    case TakeSync(i, mask) => TakeMatches(x.pool, limit, x.group, i, mask);
    case TakeInLoop(i) => LoopTakeMatches(x, limit, i, id, memory);
    case _ => PassiveMatches(x, limit, s, id, memory);
  }

  // ------------------------------------------------- the pool keeps its invariant

  lemma StepSound(x: System, limit: nat, s: Step, id: nat, memory: bool)
    requires R.PoolInv(x.pool, [], limit) && Possible(x, limit, Does(s, id, memory))
    ensures R.PoolInv(Acted(x, limit, s, id, memory), [], limit)
  {
    var g, p := x.group, x.pool;
    match s
    case Generate(sig, src, t, group, _, _) =>
      SendSound(p, limit, g, sig, src, t, group, id, memory);
      KillSound(SendPool(p, limit, g, sig, src, t, group, id, memory), limit, g, Next(g, s));
    case Force(sig, src, t, _, _) =>
      SendSound(p, limit, ForceBase(g, sig, t), sig, src, t, false, id, memory);
      KillSound(SendPool(p, limit, ForceBase(g, sig, t), sig, src, t, false, id, memory), limit, g, Next(g, s));
    case GenerateQueued(q, t, group, _) =>
      TimerSound(p, limit, g, q, t, group);
      KillSound(TimerPool(p, limit, g, q, t, group), limit, g, Next(g, s));
    case SetAction(sig, d) => R.SweepKeeps(p, limit, R.SweepFull({sig}), 0, |p.queues|);
    case TakeSync(i, mask) => TakeSound(p, limit, g, i, mask);
    case TakeInLoop(i) => TakeSound(p, limit, g, i, g.tasks[i].blocked);
    case _ =>
  }

  /** Every turn keeps the pool's invariant, with the pool's queues the group's. */
  lemma TurnKeeps(x: System, limit: nat, m: Turn)
    requires SystemInv(x, limit) && Possible(x, limit, m)
    ensures SystemInv(After(x, limit, m), limit)
  {
    match m
    case Does(s, id, memory) =>
      StepMatches(x, limit, s, id, memory);
      StepSound(x, limit, s, id, memory);
    case ChargeUser => R.CounterKeeps(x.pool, limit);
    case RefundUser => R.CounterKeeps(x.pool, limit);
    case CreateTimer(id, memory) => R.AllocTimerKeeps(x.pool, limit, id, memory);
    case DeleteTimer(id) => R.FreeTimerKeeps(x.pool, limit, id);
  }

  ghost predicate SystemRun(xs: seq<System>, ms: seq<Turn>, limit: nat) {
    && |xs| == |ms| + 1
    && Initial(xs[0].group)
    && xs[0].pool == R.Pool(Queues(xs[0].group), {}, {}, {}, 0, 0, [])
    && forall k :: 0 <= k < |ms| ==> Possible(xs[k], limit, ms[k]) && xs[k + 1] == After(xs[k], limit, ms[k])
  }

  lemma InitialSystemInv(x: System, limit: nat)
    requires Initial(x.group) && x.pool == R.Pool(Queues(x.group), {}, {}, {}, 0, 0, [])
    ensures SystemInv(x, limit)
  {
    var p := x.pool;
    assert forall j :: 0 <= j < |x.group.tasks| ==> x.group.tasks[j] in x.group.tasks;
    assert forall q :: 0 <= q < |p.queues| ==> p.queues[q] == EMPTY;
    forall id: nat
      ensures R.Links(p, [], id) == 0
    {
      R.TotalOfEmpty(p.queues, R.HasId(id));
    }
  }

  lemma {:induction false} RunKeepsSystemInv(xs: seq<System>, ms: seq<Turn>, limit: nat, k: nat)
    requires SystemRun(xs, ms, limit) && k <= |ms|
    ensures SystemInv(xs[k], limit)
  {
    if k == 0 {
      InitialSystemInv(xs[0], limit);
    } else {
      RunKeepsSystemInv(xs, ms, limit, k - 1);
      TurnKeeps(xs[k - 1], limit, ms[k - 1]);
    }
  }

  /** In every run of a thread group whose sends are charged to a user with limit
      L, the user's counter is the number of live objects and charges in flight, each
      object is preallocated or in exactly one queue of the group, none in two and
      none freed twice; and there are never more than L + 31 * (threads + 1). */
  lemma GroupRecordsAreAccounted(xs: seq<System>, ms: seq<Turn>, limit: nat, k: nat)
    requires SystemRun(xs, ms, limit) && k <= |ms|
    ensures var g, p := xs[k].group, xs[k].pool;
      && R.Accounted(p)
      && (forall id: nat :: R.OnList(p, id) <==> QueuedIn(g, id))
      && |p.live| <= limit + 31 * (|g.tasks| + 1)
      && p.sigpending <= limit + 31 * (|g.tasks| + 1) + p.inFlight
  {
    RunKeepsSystemInv(xs, ms, limit, k);
    R.InvAccounts(xs[k].pool, limit);
    forall id: nat
      ensures R.OnList(xs[k].pool, id) <==> QueuedIn(xs[k].group, id)
    {
      LinkedMatches(xs[k].pool, xs[k].group, id);
    }
  }
}
