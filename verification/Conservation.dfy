/** One queue over whole runs: what is dequeued was sent, and real-time signals
    whose records were all allocated arrive completely and in order. */
module Conservation {
  import opened Signals
  import opened SigQueue
  import opened Drain

  /** What can happen to a queue.  Poke sets a bit from outside (smunch), Mark is
      the group exit adding SIGKILL. */
  datatype Op =
    | Generate(sig: Signo, src: Source, slot: Slot)
    | GenerateQueued(r: Rec)
    | TakeNext(mask: set<Signo>)
    | RemoveShort(mask: set<Signo>)
    | RemoveFull(mask: set<Signo>)
    | DropTimerSignals
    | FlushAll
    | Poke(sig: Signo)
    | Mark

  /** A queue with the accepted sends and the deliveries so far, in order. */
  datatype Ledger = Ledger(queue: Pending, sent: seq<SigInfo>, taken: seq<SigInfo>)

  const OPENING := Ledger(EMPTY, [], [])

  /** The removals that the kernel makes through the one-word form name legacy
      signals only. */
  predicate Proper(op: Op) {
    op.RemoveShort? ==> op.mask <= LEGACY
  }

  function Apply(l: Ledger, op: Op): Ledger {
    match op
    case Generate(sig, src, slot) =>
      var r := SendTo(l.queue, sig, src, slot);
      if r.Accepted? then Ledger(r.queue, l.sent + [InfoFor(sig, src)], l.taken) else l
    case GenerateQueued(r) => Ledger(Append(l.queue, r), l.sent + [r.info], l.taken)
    case TakeNext(mask) =>
      var d := Dequeue(l.queue, mask);
      if d.sig == 0 then l else Ledger(d.after.queue, l.sent, l.taken + [d.after.info])
    case RemoveShort(mask) => l.(queue := RmFromQueue(l.queue, mask))
    case RemoveFull(mask) => l.(queue := RmFromQueueFull(l.queue, mask))
    case DropTimerSignals => l.(queue := FlushTimers(l.queue))
    case FlushAll => l.(queue := EMPTY)
    case Poke(sig) => Ledger(l.queue.(signal := l.queue.signal + {sig}), l.sent + [NoRecordInfo(sig)], l.taken)
    case Mark => l.(queue := l.queue.(signal := l.queue.signal + {SIGKILL}))
  }

  function ApplyAll(l: Ledger, ops: seq<Op>): Ledger {
    if ops == [] then l else Apply(ApplyAll(l, ops[..|ops| - 1]), ops[|ops| - 1])
  }

  /** A queue's whole life, from empty on. */
  function Exec(ops: seq<Op>): Ledger {
    ApplyAll(OPENING, ops)
  }

  lemma {:induction false} ApplyConcat(l: Ledger, a: seq<Op>, b: seq<Op>)
    ensures ApplyAll(l, a + b) == ApplyAll(ApplyAll(l, a), b)
  {
    if b == [] {
      assert a + b == a;
    } else {
      assert (a + b)[..|a + b| - 1] == a + b[..|b| - 1];
      ApplyConcat(l, a, b[..|b| - 1]);
    }
  }

  lemma {:induction false} InfosOfConcat(xs: seq<SigInfo>, ys: seq<SigInfo>, s: Signo)
    ensures InfosOf(xs + ys, s) == InfosOf(xs, s) + InfosOf(ys, s)
  {
    if xs == [] {
      assert xs + ys == ys;
    } else {
      InfosOfConcat(xs[1..], ys, s);
      assert xs + ys == [xs[0]] + (xs[1..] + ys);
      InfosOfCons(xs[0], xs[1..] + ys, s);
    }
  }

  lemma InfosOfSnoc(xs: seq<SigInfo>, x: SigInfo, s: Signo)
    ensures InfosOf(xs + [x], s) == InfosOf(xs, s) + if x.signo == s then [x] else []
  {
    InfosOfConcat(xs, [x], s);
    InfosOfCons(x, [], s);
    assert [x] + [] == [x];
  }

  lemma OfSnoc(list: seq<Rec>, r: Rec, s: Signo)
    ensures Of(list + [r], s) == Of(list, s) + if r.info.signo == s then [r] else []
  {
    assert (list + [r])[..|list|] == list;
  }

  // ---------------------------------------------------- dequeued <= accepted

  ghost predicate Balanced(l: Ledger, s: Signo) {
    |InfosOf(l.taken, s)| + Load(l.queue, s) <= |InfosOf(l.sent, s)|
  }

  lemma KeepShortens(list: seq<Rec>, a: set<Signo>, s: Signo)
    ensures |Of(Keep(list, a), s)| <= |Of(list, s)|
  {
    KeepTwice(list, a, {s});
    if s in a {
      assert a * {s} == {s};
    } else {
      assert a * {s} == {};
      KeepNothing(list, {});
    }
  }

  lemma {:induction false} DropShortens(list: seq<Rec>, s: Signo)
    ensures |Of(DropTimers(list), s)| <= |Of(list, s)|
  {
    if list != [] {
      var front, last := list[..|list| - 1], list[|list| - 1];
      DropShortens(front, s);
      OfSnoc(DropTimers(front), last, s);
    }
  }

  /** Fewer records and no new bit mean no more load. */
  lemma LoadShrinks(p: Pending, q: Pending, s: Signo)
    requires Coherent(p) && Coherent(q)
    requires |Of(q.list, s)| <= |Of(p.list, s)| && (s in q.signal ==> s in p.signal)
    ensures Load(q, s) <= Load(p, s)
  {
    LoadIsMaximum(p, s);
    LoadIsMaximum(q, s);
  }

  /** Removing operations leave no signal with more than it had. */
  lemma RemovalHolds(p: Pending, op: Op, s: Signo)
    requires Coherent(p) && Proper(op)
    requires op.RemoveShort? || op.RemoveFull? || op.DropTimerSignals? || op.FlushAll?
    ensures var q := Apply(Ledger(p, [], []), op).queue; Coherent(q) && Load(q, s) <= Load(p, s)
  {
    match op
    case RemoveShort(mask) =>
      RemovalCoherent(p, mask);
      KeepShortens(p.list, ALL - mask, s);
      LoadShrinks(p, Discard(p, mask), s);
    case RemoveFull(mask) =>
      FullRemovalIsDiscard(p, mask);
      KeepShortens(p.list, ALL - mask, s);
      LoadShrinks(p, Discard(p, mask), s);
    case DropTimerSignals =>
      FlushTimersMeaning(p);
      DropShortens(p.list, s);
      LoadShrinks(p, FlushTimers(p), s);
    case FlushAll =>
  }

  lemma SendLoad(p: Pending, sig: Signo, src: Source, slot: Slot, s: Signo)
    requires Coherent(p) && SendTo(p, sig, src, slot).Accepted?
    ensures Load(SendTo(p, sig, src, slot).queue, s) <= Load(p, s) + if s == sig then 1 else 0
  {
    var q := SendTo(p, sig, src, slot).queue;
    SendCoherent(p, sig, src, slot);
    LoadIsMaximum(p, s);
    LoadIsMaximum(q, s);
    if slot.Slot? {
      OfSnoc(p.list, Rec(slot.id, InfoFor(sig, src)), s);
    }
  }

  lemma AppendLoad(p: Pending, r: Rec, s: Signo)
    requires Coherent(p)
    ensures Load(Append(p, r), s) <= Load(p, s) + if s == r.info.signo then 1 else 0
  {
    AppendCoherent(p, r);
    LoadIsMaximum(p, s);
    LoadIsMaximum(Append(p, r), s);
    OfSnoc(p.list, r, s);
  }

  lemma TakeBalanced(l: Ledger, mask: set<Signo>, s: Signo)
    requires Coherent(l.queue) && Balanced(l, s)
    ensures Coherent(Apply(l, TakeNext(mask)).queue) && Balanced(Apply(l, TakeNext(mask)), s)
  {
    var d := Dequeue(l.queue, mask);
    DequeueCoherent(l.queue, mask);
    if d.sig != 0 {
      InfoHasSignal(l.queue, mask);
      CollectLoad(l.queue, d.sig, s);
      InfosOfSnoc(l.taken, d.after.info, s);
    }
  }

  lemma GenerateBalanced(l: Ledger, sig: Signo, src: Source, slot: Slot, s: Signo)
    requires Coherent(l.queue) && Balanced(l, s)
    ensures var h := Apply(l, Op.Generate(sig, src, slot)); Coherent(h.queue) && Balanced(h, s)
  {
    SendCoherent(l.queue, sig, src, slot);
    if SendTo(l.queue, sig, src, slot).Accepted? {
      SendLoad(l.queue, sig, src, slot, s);
      InfosOfSnoc(l.sent, InfoFor(sig, src), s);
    }
  }

  lemma PokeBalanced(l: Ledger, sig: Signo, s: Signo)
    requires Coherent(l.queue) && Balanced(l, s)
    ensures Coherent(Apply(l, Poke(sig)).queue) && Balanced(Apply(l, Poke(sig)), s)
  {
    var q := l.queue.(signal := l.queue.signal + {sig});
    LoadIsMaximum(l.queue, s);
    LoadIsMaximum(q, s);
    InfosOfSnoc(l.sent, NoRecordInfo(sig), s);
  }

  lemma ApplyBalanced(l: Ledger, op: Op, s: Signo)
    requires Coherent(l.queue) && Proper(op) && s != SIGKILL && Balanced(l, s)
    ensures Coherent(Apply(l, op).queue) && Balanced(Apply(l, op), s)
  {
    match op
    case Generate(sig, src, slot) => GenerateBalanced(l, sig, src, slot, s);
    case GenerateQueued(r) =>
      AppendCoherent(l.queue, r);
      AppendLoad(l.queue, r, s);
      InfosOfSnoc(l.sent, r.info, s);
    case TakeNext(mask) => TakeBalanced(l, mask, s);
    case Poke(sig) => PokeBalanced(l, sig, s);
    case Mark =>
    case _ => RemovalHolds(l.queue, op, s);
  }

  lemma {:induction false} ExecBalanced(ops: seq<Op>, s: Signo)
    requires s != SIGKILL && forall op :: op in ops ==> Proper(op)
    ensures Coherent(Exec(ops).queue) && Balanced(Exec(ops), s)
  {
    if ops != [] {
      ExecBalanced(ops[..|ops| - 1], s);
      ApplyBalanced(Exec(ops[..|ops| - 1]), ops[|ops| - 1], s);
    }
  }

  /** Conservation: over any run of a queue, for every signal but SIGKILL, the
      deliveries plus the larger of the queued records and the pending bit never
      exceed the accepted sends; and the queue stays coherent. */
  lemma DeliveriesNeverExceedSends(ops: seq<Op>, s: Signo)
    requires s != SIGKILL && forall op :: op in ops ==> Proper(op)
    ensures Coherent(Exec(ops).queue)
    ensures var l := Exec(ops);
            |InfosOf(l.taken, s)| + Larger(|Of(l.queue.list, s)|, if s in l.queue.signal then 1 else 0)
              <= |InfosOf(l.sent, s)|
  {
    ExecBalanced(ops, s);
    LoadIsMaximum(Exec(ops).queue, s);
  }

  // --------------------------------------------------------- reliable signals

  /** Signal s is only sent with an allocated record and never flushed. */
  predicate Reliable(op: Op, s: Signo) {
    match op
    case Generate(sig, src, slot) => sig == s ==> slot.Slot? && !src.Forced?
    case GenerateQueued(_) => true
    case TakeNext(_) => true
    case RemoveShort(mask) => s !in mask
    case RemoveFull(mask) => s !in mask
    case DropTimerSignals => false
    case FlushAll => false
    case Poke(sig) => sig != s
    case Mark => true
  }

  /** Delivered so far, then still queued, is exactly what was sent, in order. */
  ghost predicate InOrder(l: Ledger, s: Signo) {
    && InfosOf(l.sent, s) == InfosOf(l.taken, s) + Infos(Of(l.queue.list, s))
    && (s in l.queue.signal <==> Of(l.queue.list, s) != [])
  }

  lemma {:induction false} InfosSnoc(list: seq<Rec>, r: Rec)
    ensures Infos(list + [r]) == Infos(list) + [r.info]
  {
    if list == [] {
      assert list + [r] == [r] && [r][1..] == [];
    } else {
      assert (list + [r])[1..] == list[1..] + [r];
      InfosSnoc(list[1..], r);
    }
  }

  lemma GenerateInOrder(l: Ledger, r: Rec, s: Signo)
    requires InOrder(l, s)
    ensures InOrder(Ledger(Append(l.queue, r), l.sent + [r.info], l.taken), s)
  {
    OfSnoc(l.queue.list, r, s);
    InfosOfSnoc(l.sent, r.info, s);
    InfosSnoc(Of(l.queue.list, s), r);
  }

  /** The head of what is owed moves from the queue to the deliveries. */
  lemma HeadMoves(sent: seq<SigInfo>, taken: seq<SigInfo>, owed: seq<Rec>)
    requires owed != [] && sent == taken + Infos(owed)
    ensures sent == taken + [owed[0].info] + Infos(owed[1..])
  {
  }

  lemma TakeInOrder(l: Ledger, mask: set<Signo>, s: Signo)
    requires InOrder(l, s)
    ensures InOrder(Apply(l, TakeNext(mask)), s)
  {
    var d := Dequeue(l.queue, mask);
    if d.sig != 0 {
      InfosOfSnoc(l.taken, d.after.info, s);
      InfoHasSignal(l.queue, mask);
      CollectedOrder(l.queue, d.sig, s);
      if s == d.sig {
        HeadMoves(InfosOf(l.sent, s), InfosOf(l.taken, s), Of(l.queue.list, s));
      }
    }
  }

  /** What collecting does to the records of one signal, whose bit tells whether
      it has any. */
  lemma CollectedOrder(p: Pending, sig: Signo, s: Signo)
    requires sig in p.signal && (s in p.signal <==> Of(p.list, s) != [])
    ensures var c := Collect(p, sig);
            && (s in c.queue.signal <==> Of(c.queue.list, s) != [])
            && (if s == sig then Of(p.list, s) != [] && c.info == Of(p.list, s)[0].info
                                 && Of(c.queue.list, s) == Of(p.list, s)[1..]
                else Of(c.queue.list, s) == Of(p.list, s))
  {
    CollectMeaning(p, sig);
  }

  lemma RemovalInOrder(l: Ledger, mask: set<Signo>, p: Pending, s: Signo)
    requires InOrder(l, s) && s !in mask
    requires p.signal == l.queue.signal - mask && (p.list == l.queue.list || p.list == Keep(l.queue.list, ALL - mask))
    ensures InOrder(l.(queue := p), s)
  {
    OfOutside(l.queue.list, mask, s);
  }

  lemma ShortInOrder(l: Ledger, mask: set<Signo>, s: Signo)
    requires mask <= LEGACY && s !in mask && InOrder(l, s)
    ensures InOrder(l.(queue := RmFromQueue(l.queue, mask)), s)
  {
    assert mask * LEGACY == mask;
    RemovalInOrder(l, mask, RmFromQueue(l.queue, mask), s);
  }

  lemma OtherInOrder(l: Ledger, sig: Signo, src: Source, slot: Slot, s: Signo)
    requires sig != s && InOrder(l, s)
    ensures InOrder(Apply(l, Op.Generate(sig, src, slot)), s)
  {
    var r := SendTo(l.queue, sig, src, slot);
    if r.Accepted? {
      InfosOfSnoc(l.sent, InfoFor(sig, src), s);
      OtherUntouched(l.queue, sig, src, slot, s);
    }
  }

  lemma OtherUntouched(p: Pending, sig: Signo, src: Source, slot: Slot, s: Signo)
    requires sig != s && SendTo(p, sig, src, slot).Accepted?
    ensures var q := SendTo(p, sig, src, slot).queue;
            Of(q.list, s) == Of(p.list, s) && (s in q.signal <==> s in p.signal)
  {
    if slot.Slot? {
      OfSnoc(p.list, Rec(slot.id, InfoFor(sig, src)), s);
    }
  }

  lemma ApplyInOrder(l: Ledger, op: Op, s: Signo)
    requires s >= SIGRTMIN && Proper(op) && Reliable(op, s) && InOrder(l, s)
    ensures InOrder(Apply(l, op), s)
  {
    match op
    case Generate(sig, src, slot) =>
      if sig == s {
        GenerateInOrder(l, Rec(slot.id, InfoFor(sig, src)), s);
      } else {
        OtherInOrder(l, sig, src, slot, s);
      }
    case GenerateQueued(r) => GenerateInOrder(l, r, s);
    case TakeNext(mask) => TakeInOrder(l, mask, s);
    case RemoveShort(mask) =>
      ShortInOrder(l, mask, s);
    case RemoveFull(mask) =>
      DisjointMinus(l.queue.signal, mask);
      RemovalInOrder(l, mask, RmFromQueueFull(l.queue, mask), s);
    case Poke(sig) => InfosOfSnoc(l.sent, NoRecordInfo(sig), s);
    case Mark =>
    case DropTimerSignals => assert false;
    case FlushAll => assert false;
  }

  /** A real-time signal whose sends all got records and that is never flushed is
      delivered completely and first in, first out: at any time the infos handed
      out, followed by the queued ones, are the infos sent, in send order. */
  lemma {:induction false} RealTimeSignalsAreFifo(ops: seq<Op>, s: Signo)
    requires s >= SIGRTMIN && forall op :: op in ops ==> Proper(op) && Reliable(op, s)
    ensures InOrder(Exec(ops), s)
    ensures InfosOf(Exec(ops).taken, s) <= InfosOf(Exec(ops).sent, s)
    ensures |InfosOf(Exec(ops).taken, s)| + |Of(Exec(ops).queue.list, s)| == |InfosOf(Exec(ops).sent, s)|
  {
    if ops != [] {
      RealTimeSignalsAreFifo(ops[..|ops| - 1], s);
      ApplyInOrder(Exec(ops[..|ops| - 1]), ops[|ops| - 1], s);
    }
    InfosLength(Of(Exec(ops).queue.list, s));
  }

  lemma {:induction false} InfosLength(list: seq<Rec>)
    ensures |Infos(list)| == |list|
  {
    if list != [] {
      InfosLength(list[1..]);
    }
  }
}
