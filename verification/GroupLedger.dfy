/** Conservation and order for whole group runs: every step of the group acts on
    each of its queues as a short sequence of the queue operations of Conservation. */
module GroupLedger {
  import opened Signals
  import opened SigQueue
  import opened Drain
  import opened GroupState
  import opened GroupRun
  import opened GroupQueues
  import C = Conservation

  /** One of the queues of the group. */
  datatype Which = Shared | Private(j: nat)

  predicate Has(g: Group, w: Which) {
    w.Private? ==> w.j < |g.tasks|
  }

  function QueueOf(g: Group, w: Which): Pending {
    match w
    case Shared => g.shared
    case Private(j) => if j < |g.tasks| then g.tasks[j].pending else EMPTY
  }

  function Target(p: nat, group: bool): Which {
    if group then Shared else Private(p)
  }

  // -------------------------------------------- what a step sends and delivers

  function SentBy(g: Group, sig: Signo, src: Source, p: nat, group: bool, slot: Slot, w: Which): seq<SigInfo>
    requires ValidTask(g, p)
  {
    if SigIgnored(g, g.tasks[p], sig) || w != Target(p, group) then []
    else if SendTo(QueueOf(Prepare(g, sig), w), sig, src, slot).Accepted? then [InfoFor(sig, src)]
    else []
  }

  /** The information a step puts behind queue w. */
  function Accepted(g: Group, s: Step, w: Which): seq<SigInfo>
    requires Enabled(g, s)
  {
    match s
    case Generate(sig, src, p, group, slot, _) => SentBy(g, sig, src, p, group, slot, w)
    case Force(sig, src, p, slot, _) => SentBy(ForceBase(g, sig, p), sig, src, p, false, slot, w)
    case GenerateQueued(q, p, group, _) =>
      var ignored := SigIgnored(g, g.tasks[p], q.info.signo);
      if ignored || QueuedIn(Prepare(g, q.info.signo), q.id) || w != Target(p, group) then [] else [q.info]
    case _ => []
  }

  /** The queue that dequeue_signal takes from, if it finds anything. */
  function SourceOf(g: Group, i: nat, mask: set<Signo>): Which
    requires ValidTask(g, i)
  {
    if g.tasks[i].pending.signal - mask != {} then Private(i) else Shared
  }

  function HandedOut(g: Group, i: nat, mask: set<Signo>, w: Which): seq<SigInfo>
    requires ValidTask(g, i)
  {
    var r := Take(g, i, mask);
    if r.sig != 0 && w == SourceOf(g, i, mask) then [r.info] else []
  }

  /** The information a step hands out from queue w. */
  function Delivered(g: Group, s: Step, w: Which): seq<SigInfo>
    requires Enabled(g, s)
  {
    match s
    case TakeSync(i, mask) => HandedOut(g, i, mask, w)
    case TakeInLoop(i) => HandedOut(g, i, g.tasks[i].blocked, w)
    case _ => []
  }

  /** Queue w after k steps, with what was accepted for it and delivered from it. */
  ghost function LedgerOf(gs: seq<Group>, ss: seq<Step>, k: nat, w: Which): C.Ledger
    requires Path(gs, ss) && k <= |ss|
  {
    if k == 0 then C.Ledger(QueueOf(gs[0], w), [], [])
    else
      var l := LedgerOf(gs, ss, k - 1, w);
      C.Ledger(QueueOf(gs[k], w), l.sent + Accepted(gs[k - 1], ss[k - 1], w),
               l.taken + Delivered(gs[k - 1], ss[k - 1], w))
  }

  // -------------------------------------------------- a step as queue operations

  function PrepareOps(g: Group, sig: Signo): seq<C.Op> {
    if g.flags.groupExit then []
    else if sig in STOP_SIGNALS then [C.RemoveShort({SIGCONT})]
    else if sig == SIGCONT then [C.RemoveShort(STOP_SIGNALS)]
    else []
  }

  /** The group exit adds SIGKILL to every private queue. */
  function KillOps(g: Group, h: Group, w: Which): seq<C.Op> {
    if w.Private? && h.flags.groupExit && !g.flags.groupExit then [C.Mark] else []
  }

  function SendOps(g: Group, sig: Signo, src: Source, p: nat, group: bool, slot: Slot, onCpu: set<nat>,
                   w: Which): seq<C.Op>
    requires ValidTask(g, p)
  {
    PrepareOps(g, sig)
    + (if SigIgnored(g, g.tasks[p], sig) || w != Target(p, group) then [] else [C.Op.Generate(sig, src, slot)])
    + KillOps(g, Send(g, sig, src, p, group, slot, onCpu), w)
  }

  function SigqueueOps(g: Group, q: Rec, p: nat, group: bool, onCpu: set<nat>, w: Which): seq<C.Op>
    requires ValidTask(g, p)
  {
    var sig := q.info.signo;
    PrepareOps(g, sig)
    + (if SigIgnored(g, g.tasks[p], sig) || QueuedIn(Prepare(g, sig), q.id) || w != Target(p, group) then []
       else [C.Op.GenerateQueued(q)])
    + KillOps(g, SendSigqueue(g, q, p, group, onCpu), w)
  }

  function TakeOps(g: Group, i: nat, mask: set<Signo>, w: Which): seq<C.Op>
    requires ValidTask(g, i)
  {
    if w == SourceOf(g, i, mask) then [C.TakeNext(mask)] else []
  }

  function OpsOf(g: Group, s: Step, w: Which): seq<C.Op>
    requires Enabled(g, s)
  {
    match s
    case Generate(sig, src, p, group, slot, onCpu) => SendOps(g, sig, src, p, group, slot, onCpu, w)
    case GenerateQueued(q, p, group, onCpu) => SigqueueOps(g, q, p, group, onCpu, w)
    case Force(sig, src, p, slot, onCpu) => SendOps(ForceBase(g, sig, p), sig, src, p, false, slot, onCpu, w)
    case SetAction(sig, d) =>
      if sig != SIGKILL && sig != SIGSTOP && HandlerIgnored(d, sig) then [C.RemoveFull({sig})] else []
    case TakeSync(i, mask) => TakeOps(g, i, mask, w)
    case TakeInLoop(i) => TakeOps(g, i, g.tasks[i].blocked, w)
    case _ => []
  }

  lemma ApplyOne(l: C.Ledger, op: C.Op)
    ensures C.ApplyAll(l, [op]) == C.Apply(l, op)
  {
    assert [op][..0] == [];
  }

  lemma PrepareSimulated(g: Group, sig: Signo, w: Which, l: C.Ledger)
    requires Has(g, w) && l.queue == QueueOf(g, w)
    ensures Has(Prepare(g, sig), w)
    ensures C.ApplyAll(l, PrepareOps(g, sig)) == l.(queue := QueueOf(Prepare(g, sig), w))
  {
    if PrepareOps(g, sig) != [] {
      ApplyOne(l, PrepareOps(g, sig)[0]);
    }
  }

  /** complete_signal touches the queues only to take the group down. */
  lemma CompleteSimulated(g: Group, sig: Signo, p: nat, group: bool, onCpu: set<nat>, w: Which, l: C.Ledger)
    requires ValidTask(g, p) && Has(g, w) && l.queue == QueueOf(g, w)
    ensures var h := Complete(g, sig, p, group, onCpu);
            Has(h, w) && C.ApplyAll(l, KillOps(g, h, w)) == l.(queue := QueueOf(h, w))
  {
    var h := Complete(g, sig, p, group, onCpu);
    if KillOps(g, h, w) != [] {
      ApplyOne(l, C.Mark);
    }
  }

  lemma SetQueueMeaning(g: Group, p: nat, group: bool, q: Pending, w: Which)
    requires ValidTask(g, p) && Has(g, w)
    ensures var h := SetQueue(g, p, group, q);
            Has(h, w) && ValidTask(h, p) && h.flags == g.flags
            && QueueOf(h, w) == if w == Target(p, group) then q else QueueOf(g, w)
    ensures Queue(g, p, group) == QueueOf(g, Target(p, group))
  {
  }

  /** Three parts in a row. */
  lemma ApplyThree(l: C.Ledger, a: seq<C.Op>, b: seq<C.Op>, c: seq<C.Op>)
    ensures C.ApplyAll(l, a + b + c) == C.ApplyAll(C.ApplyAll(C.ApplyAll(l, a), b), c)
  {
    C.ApplyConcat(l, a + b, c);
    C.ApplyConcat(l, a, b);
  }

  lemma PrepareFlags(g: Group, sig: Signo)
    ensures Prepare(g, sig).flags.groupExit == g.flags.groupExit
    ensures |Prepare(g, sig).tasks| == |g.tasks| && Prepare(g, sig).target == g.target
  {
  }

  /** The middle part: the record, or its refusal, arrives at queue w. */
  lemma ArrivalSimulated(g: Group, sig: Signo, src: Source, p: nat, group: bool, slot: Slot, w: Which, l: C.Ledger)
    requires ValidTask(g, p) && Has(g, w) && l.queue == QueueOf(g, w)
    ensures var r := SendTo(Queue(g, p, group), sig, src, slot);
            var h := if r.Accepted? then SetQueue(g, p, group, r.queue) else g;
            var ops := if w != Target(p, group) then [] else [C.Op.Generate(sig, src, slot)];
            && Has(h, w) && ValidTask(h, p) && h.flags == g.flags
            && C.ApplyAll(l, ops)
               == C.Ledger(QueueOf(h, w),
                           l.sent + if w == Target(p, group) && r.Accepted? then [InfoFor(sig, src)] else [], l.taken)
  {
    var r := SendTo(Queue(g, p, group), sig, src, slot);
    if r.Accepted? {
      SetQueueMeaning(g, p, group, r.queue, w);
    }
    if w == Target(p, group) {
      ApplyOne(l, C.Op.Generate(sig, src, slot));
    }
    assert l.sent + [] == l.sent;
  }

  lemma SendSimulated(g: Group, sig: Signo, src: Source, p: nat, group: bool, slot: Slot, onCpu: set<nat>,
                      w: Which, l: C.Ledger)
    requires ValidTask(g, p) && Has(g, w) && l.queue == QueueOf(g, w)
    ensures Has(Send(g, sig, src, p, group, slot, onCpu), w)
    ensures C.ApplyAll(l, SendOps(g, sig, src, p, group, slot, onCpu, w))
         == C.Ledger(QueueOf(Send(g, sig, src, p, group, slot, onCpu), w),
                     l.sent + SentBy(g, sig, src, p, group, slot, w), l.taken)
  {
    var g1, h := Prepare(g, sig), Send(g, sig, src, p, group, slot, onCpu);
    var ignored := SigIgnored(g, g.tasks[p], sig);
    var ops := if ignored || w != Target(p, group) then [] else [C.Op.Generate(sig, src, slot)];
    ApplyThree(l, PrepareOps(g, sig), ops, KillOps(g, h, w));
    PrepareSimulated(g, sig, w, l);
    PrepareFlags(g, sig);
    var l1 := l.(queue := QueueOf(g1, w));
    if ignored {
      assert l.sent + [] == l.sent;
    } else {
      ArrivalSimulated(g1, sig, src, p, group, slot, w, l1);
      var r := SendTo(Queue(g1, p, group), sig, src, slot);
      if r.Accepted? {
        var g2 := SetQueue(g1, p, group, r.queue);
        CompleteSimulated(g2, sig, p, group, onCpu, w, C.ApplyAll(l1, ops));
      }
    }
  }

  lemma SigqueueArrives(g: Group, q: Rec, p: nat, group: bool, w: Which, l: C.Ledger)
    requires ValidTask(g, p) && Has(g, w) && l.queue == QueueOf(g, w)
    ensures var h := SetQueue(g, p, group, Append(Queue(g, p, group), q));
            var ops := if w != Target(p, group) then [] else [C.Op.GenerateQueued(q)];
            && Has(h, w) && ValidTask(h, p) && h.flags == g.flags
            && C.ApplyAll(l, ops)
               == C.Ledger(QueueOf(h, w), l.sent + if w == Target(p, group) then [q.info] else [], l.taken)
  {
    SetQueueMeaning(g, p, group, Append(Queue(g, p, group), q), w);
    if w == Target(p, group) {
      ApplyOne(l, C.Op.GenerateQueued(q));
    }
    assert l.sent + [] == l.sent;
  }

  lemma SigqueueSimulated(g: Group, q: Rec, p: nat, group: bool, onCpu: set<nat>, w: Which, l: C.Ledger)
    requires Enabled(g, GenerateQueued(q, p, group, onCpu)) && Has(g, w) && l.queue == QueueOf(g, w)
    ensures Has(SendSigqueue(g, q, p, group, onCpu), w)
    ensures C.ApplyAll(l, SigqueueOps(g, q, p, group, onCpu, w))
         == C.Ledger(QueueOf(SendSigqueue(g, q, p, group, onCpu), w),
                     l.sent + Accepted(g, GenerateQueued(q, p, group, onCpu), w), l.taken)
  {
    var sig := q.info.signo;
    var g1, h := Prepare(g, sig), SendSigqueue(g, q, p, group, onCpu);
    var dropped := SigIgnored(g, g.tasks[p], sig) || QueuedIn(g1, q.id);
    var ops := if dropped || w != Target(p, group) then [] else [C.Op.GenerateQueued(q)];
    ApplyThree(l, PrepareOps(g, sig), ops, KillOps(g, h, w));
    PrepareSimulated(g, sig, w, l);
    PrepareFlags(g, sig);
    var l1 := l.(queue := QueueOf(g1, w));
    if dropped {
      assert l.sent + [] == l.sent;
    } else {
      SigqueueArrives(g1, q, p, group, w, l1);
      var g2 := SetQueue(g1, p, group, Append(Queue(g1, p, group), q));
      CompleteSimulated(g2, sig, p, group, onCpu, w, C.ApplyAll(l1, ops));
    }
  }

  lemma TakeSimulated(g: Group, i: nat, mask: set<Signo>, w: Which, l: C.Ledger)
    requires ValidTask(g, i) && Has(g, w) && l.queue == QueueOf(g, w)
    ensures |Take(g, i, mask).group.tasks| == |g.tasks|
    ensures C.ApplyAll(l, TakeOps(g, i, mask, w))
         == C.Ledger(QueueOf(Take(g, i, mask).group, w), l.sent, l.taken + HandedOut(g, i, mask, w))
  {
    if w == SourceOf(g, i, mask) {
      ApplyOne(l, C.TakeNext(mask));
    }
    assert l.taken + [] == l.taken;
  }

  lemma SigactionSimulated(g: Group, sig: Signo, d: Disposition, w: Which, l: C.Ledger)
    requires Enabled(g, SetAction(sig, d)) && Has(g, w) && l.queue == QueueOf(g, w)
    ensures Has(Sigaction(g, sig, d), w)
    ensures C.ApplyAll(l, OpsOf(g, SetAction(sig, d), w)) == l.(queue := QueueOf(Sigaction(g, sig, d), w))
  {
    if OpsOf(g, SetAction(sig, d), w) != [] {
      ApplyOne(l, C.RemoveFull({sig}));
    }
  }

  ghost predicate Simulated(g: Group, s: Step, w: Which, l: C.Ledger)
    requires Enabled(g, s)
  {
    && Has(Next(g, s), w)
    && C.ApplyAll(l, OpsOf(g, s, w))
       == C.Ledger(QueueOf(Next(g, s), w), l.sent + Accepted(g, s, w), l.taken + Delivered(g, s, w))
  }

  lemma NothingMore(l: C.Ledger)
    ensures l.sent + [] == l.sent && l.taken + [] == l.taken
  {
  }

  lemma GenerateSimulated(g: Group, sig: Signo, src: Source, p: nat, group: bool, slot: Slot, onCpu: set<nat>,
                          w: Which, l: C.Ledger)
    requires ValidTask(g, p) && Has(g, w) && l.queue == QueueOf(g, w)
    ensures Simulated(g, Step.Generate(sig, src, p, group, slot, onCpu), w, l)
  {
    SendSimulated(g, sig, src, p, group, slot, onCpu, w, l);
    NothingMore(l);
  }

  lemma QueuedSimulated(g: Group, q: Rec, p: nat, group: bool, onCpu: set<nat>, w: Which, l: C.Ledger)
    requires ValidTask(g, p) && Has(g, w) && l.queue == QueueOf(g, w)
    ensures Simulated(g, Step.GenerateQueued(q, p, group, onCpu), w, l)
  {
    SigqueueSimulated(g, q, p, group, onCpu, w, l);
    NothingMore(l);
  }

  lemma ForceSimulated(g: Group, sig: Signo, src: Source, p: nat, slot: Slot, onCpu: set<nat>, w: Which, l: C.Ledger)
    requires ValidTask(g, p) && Has(g, w) && l.queue == QueueOf(g, w)
    ensures Simulated(g, Force(sig, src, p, slot, onCpu), w, l)
  {
    ForceBaseSame(g, sig, p);
    SendSimulated(ForceBase(g, sig, p), sig, src, p, false, slot, onCpu, w, l);
    NothingMore(l);
  }

  lemma DiscardSimulated(g: Group, sig: Signo, d: Disposition, w: Which, l: C.Ledger)
    requires Ok(g) && Has(g, w) && l.queue == QueueOf(g, w)
    ensures Simulated(g, SetAction(sig, d), w, l)
  {
    SigactionSimulated(g, sig, d, w, l);
    NothingMore(l);
  }

  lemma TakeSyncSimulated(g: Group, i: nat, mask: set<Signo>, w: Which, l: C.Ledger)
    requires Enabled(g, TakeSync(i, mask)) && Has(g, w) && l.queue == QueueOf(g, w)
    ensures Simulated(g, TakeSync(i, mask), w, l)
  {
    TakeSimulated(g, i, mask, w, l);
    NothingMore(l);
  }

  lemma TakeInLoopSimulated(g: Group, i: nat, w: Which, l: C.Ledger)
    requires Enabled(g, TakeInLoop(i)) && Has(g, w) && l.queue == QueueOf(g, w)
    ensures Simulated(g, TakeInLoop(i), w, l)
  {
    var taken := Take(g, i, g.tasks[i].blocked).group;
    TakeSimulated(g, i, g.tasks[i].blocked, w, l);
    OwnSame(taken, LoopTake(g, i), i);
    NothingMore(l);
  }

  lemma PassiveSimulated(g: Group, s: Step, w: Which, l: C.Ledger)
    requires Enabled(g, s) && Passive(s) && Has(g, w) && l.queue == QueueOf(g, w)
    ensures Simulated(g, s, w, l)
  {
    PassiveSame(g, s);
    assert OpsOf(g, s, w) == [] && Accepted(g, s, w) == [] && Delivered(g, s, w) == [];
    NothingMore(l);
  }

  /** Every step does to each queue what its operations do, accepts and delivers
      what they do. */
  lemma StepIsOps(g: Group, s: Step, w: Which, l: C.Ledger)
    requires Enabled(g, s) && Has(g, w) && l.queue == QueueOf(g, w)
    ensures Simulated(g, s, w, l)
  {
    match s
    case Generate(sig, src, p, group, slot, onCpu) => GenerateSimulated(g, sig, src, p, group, slot, onCpu, w, l);
    case GenerateQueued(q, p, group, onCpu) => QueuedSimulated(g, q, p, group, onCpu, w, l);
    case Force(sig, src, p, slot, onCpu) => ForceSimulated(g, sig, src, p, slot, onCpu, w, l);
    case SetAction(sig, d) => DiscardSimulated(g, sig, d, w, l);
    case TakeSync(i, mask) => TakeSyncSimulated(g, i, mask, w, l);
    case TakeInLoop(i) => TakeInLoopSimulated(g, i, w, l);
    case _ => PassiveSimulated(g, s, w, l);
  }

  // ------------------------------------------------------------------ whole runs

  function Flatten(parts: seq<seq<C.Op>>): seq<C.Op> {
    if parts == [] then [] else Flatten(parts[..|parts| - 1]) + parts[|parts| - 1]
  }

  /** The operations on queue w, step by step. */
  ghost function Parts(gs: seq<Group>, ss: seq<Step>, k: nat, w: Which): seq<seq<C.Op>>
    requires Path(gs, ss) && k <= |ss|
  {
    seq(k, m requires 0 <= m < k => OpsOf(gs[m], ss[m], w))
  }

  ghost function History(gs: seq<Group>, ss: seq<Step>, k: nat, w: Which): seq<C.Op>
    requires Path(gs, ss) && k <= |ss|
  {
    Flatten(Parts(gs, ss, k, w))
  }

  lemma HistoryStep(gs: seq<Group>, ss: seq<Step>, k: nat, w: Which)
    requires Path(gs, ss) && 0 < k <= |ss|
    ensures History(gs, ss, k, w) == History(gs, ss, k - 1, w) + OpsOf(gs[k - 1], ss[k - 1], w)
  {
    assert Parts(gs, ss, k, w)[..k - 1] == Parts(gs, ss, k - 1, w);
  }

  /** The step sends s only with a record, and does not make the group ignore it. */
  predicate Reliable(step: Step, s: Signo) {
    match step
    case Generate(sig, src, _, _, slot, _) => sig == s ==> slot.Slot? && !src.Forced?
    case Force(sig, src, _, slot, _) => sig == s ==> slot.Slot? && !src.Forced?
    case SetAction(sig, d) => sig == s ==> !HandlerIgnored(d, s)
    case _ => true
  }

  /** Operations as the kernel uses them, none of which loses s while `reliable`. */
  ghost predicate Fine(ops: seq<C.Op>, s: Signo, reliable: bool) {
    forall op :: op in ops ==> C.Proper(op) && (reliable ==> C.Reliable(op, s))
  }

  lemma FineConcat(a: seq<C.Op>, b: seq<C.Op>, s: Signo, reliable: bool)
    requires Fine(a, s, reliable) && Fine(b, s, reliable)
    ensures Fine(a + b, s, reliable)
  {
  }

  lemma PrepareFine(g: Group, sig: Signo, s: Signo, reliable: bool)
    requires s >= SIGRTMIN
    ensures Fine(PrepareOps(g, sig), s, reliable)
  {
  }

  lemma SendFine(g: Group, sig: Signo, src: Source, p: nat, group: bool, slot: Slot, onCpu: set<nat>, w: Which,
                 s: Signo, reliable: bool)
    requires ValidTask(g, p) && s >= SIGRTMIN
    requires reliable && sig == s ==> slot.Slot? && !src.Forced?
    ensures Fine(SendOps(g, sig, src, p, group, slot, onCpu, w), s, reliable)
  {
    var a := PrepareOps(g, sig);
    var b := if SigIgnored(g, g.tasks[p], sig) || w != Target(p, group) then [] else [C.Op.Generate(sig, src, slot)];
    var c := KillOps(g, Send(g, sig, src, p, group, slot, onCpu), w);
    PrepareFine(g, sig, s, reliable);
    assert Fine(b, s, reliable) && Fine(c, s, reliable);
    FineConcat(a, b, s, reliable);
    FineConcat(a + b, c, s, reliable);
  }

  lemma SigqueueFine(g: Group, q: Rec, p: nat, group: bool, onCpu: set<nat>, w: Which, s: Signo, reliable: bool)
    requires ValidTask(g, p) && s >= SIGRTMIN
    ensures Fine(SigqueueOps(g, q, p, group, onCpu, w), s, reliable)
  {
    var sig := q.info.signo;
    var a := PrepareOps(g, sig);
    var dropped := SigIgnored(g, g.tasks[p], sig) || QueuedIn(Prepare(g, sig), q.id);
    var b := if dropped || w != Target(p, group) then [] else [C.Op.GenerateQueued(q)];
    var c := KillOps(g, SendSigqueue(g, q, p, group, onCpu), w);
    PrepareFine(g, sig, s, reliable);
    assert Fine(b, s, reliable) && Fine(c, s, reliable);
    FineConcat(a, b, s, reliable);
    FineConcat(a + b, c, s, reliable);
  }

  lemma StepFine(g: Group, step: Step, w: Which, s: Signo, reliable: bool)
    requires Enabled(g, step) && s >= SIGRTMIN && (reliable ==> Reliable(step, s))
    ensures Fine(OpsOf(g, step, w), s, reliable)
  {
    match step
    case Generate(sig, src, p, group, slot, onCpu) =>
      SendFine(g, sig, src, p, group, slot, onCpu, w, s, reliable);
    case GenerateQueued(q, p, group, onCpu) => SigqueueFine(g, q, p, group, onCpu, w, s, reliable);
    case Force(sig, src, p, slot, onCpu) =>
      SendFine(ForceBase(g, sig, p), sig, src, p, false, slot, onCpu, w, s, reliable);
    case _ =>
  }

  /** The first k steps are reliable for s. */
  ghost predicate ReliableRun(ss: seq<Step>, k: nat, s: Signo) {
    k <= |ss| && forall m :: 0 <= m < k ==> Reliable(ss[m], s)
  }

  lemma {:induction false} FlattenFine(parts: seq<seq<C.Op>>, s: Signo, reliable: bool)
    requires forall m :: 0 <= m < |parts| ==> Fine(parts[m], s, reliable)
    ensures Fine(Flatten(parts), s, reliable)
  {
    if parts != [] {
      FlattenFine(parts[..|parts| - 1], s, reliable);
      FineConcat(Flatten(parts[..|parts| - 1]), parts[|parts| - 1], s, reliable);
    }
  }

  lemma HistoryFine(gs: seq<Group>, ss: seq<Step>, k: nat, w: Which, s: Signo, reliable: bool)
    requires Path(gs, ss) && k <= |ss| && s >= SIGRTMIN
    requires reliable ==> ReliableRun(ss, k, s)
    ensures Fine(History(gs, ss, k, w), s, reliable)
  {
    var parts := Parts(gs, ss, k, w);
    forall m | 0 <= m < k
      ensures Fine(parts[m], s, reliable)
    {
      StepFine(gs[m], ss[m], w, s, reliable);
    }
    FlattenFine(parts, s, reliable);
  }

  lemma {:induction false} RunIsOps(gs: seq<Group>, ss: seq<Step>, k: nat, w: Which)
    requires Run(gs, ss) && k <= |ss| && Has(gs[0], w)
    ensures C.Exec(History(gs, ss, k, w)) == LedgerOf(gs, ss, k, w)
    ensures Has(gs[k], w)
  {
    if k == 0 {
      assert forall j :: 0 <= j < |gs[0].tasks| ==> gs[0].tasks[j] in gs[0].tasks;
    } else {
      RunIsOps(gs, ss, k - 1, w);
      var g, s := gs[k - 1], ss[k - 1];
      HistoryStep(gs, ss, k, w);
      C.ApplyConcat(C.OPENING, History(gs, ss, k - 1, w), OpsOf(g, s, w));
      StepIsOps(g, s, w, LedgerOf(gs, ss, k - 1, w));
    }
  }

  /** Conservation in a group: in every run, for every queue of the group and every
      signal but SIGKILL, what threads have dequeued from the queue plus the larger
      of its records and its bit never exceeds the sends accepted for it. */
  lemma GroupDeliveriesNeverExceedSends(gs: seq<Group>, ss: seq<Step>, k: nat, w: Which, s: Signo)
    requires Run(gs, ss) && k <= |ss| && Has(gs[0], w) && s != SIGKILL
    ensures var l, q := LedgerOf(gs, ss, k, w), QueueOf(gs[k], w);
            |InfosOf(l.taken, s)| + Larger(|Of(q.list, s)|, if s in q.signal then 1 else 0) <= |InfosOf(l.sent, s)|
  {
    RunIsOps(gs, ss, k, w);
    HistoryFine(gs, ss, k, w, SIGRTMIN, false);
    C.DeliveriesNeverExceedSends(History(gs, ss, k, w), s);
  }

  /** First in, first out in a group: if in a run a real-time signal is always sent
      with a record and never set to be ignored, then for every queue what threads
      have dequeued followed by what is queued is what was sent, in send order. */
  lemma GroupRealTimeIsFifo(gs: seq<Group>, ss: seq<Step>, k: nat, w: Which, s: Signo)
    requires Run(gs, ss) && k <= |ss| && Has(gs[0], w) && s >= SIGRTMIN
    requires ReliableRun(ss, k, s)
    ensures var l := LedgerOf(gs, ss, k, w);
            InfosOf(l.sent, s) == InfosOf(l.taken, s) + Infos(Of(QueueOf(gs[k], w).list, s))
  {
    RunIsOps(gs, ss, k, w);
    HistoryFine(gs, ss, k, w, s, true);
    C.RealTimeSignalsAreFifo(History(gs, ss, k, w), s);
    assert LedgerOf(gs, ss, k, w).queue == QueueOf(gs[k], w);
  }
}
