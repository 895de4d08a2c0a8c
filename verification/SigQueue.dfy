/** A pending-signal queue: a bitmap of pending signals and an ordered list of
    siginfo records (struct sigpending).  The specification works on values;
    class SigPending carries out the list walks in place. */
module SigQueue {
  import opened Signals

  const SI_USER := 0
  const SI_KERNEL := 0x80

  /** __SI_TIMER with the low half of -2: inside the kernel no si_code of a
      kernel-generated signal is negative. */
  const SI_TIMER := 0x1FFFE

  datatype SigInfo = SigInfo(signo: Signo, code: int, value: int)

  /** A queued record; `id` is the identity of the sigqueue object. */
  datatype Rec = Rec(id: nat, info: SigInfo)

  datatype Pending = Pending(signal: set<Signo>, list: seq<Rec>)

  const EMPTY := Pending({}, [])

  /** The information handed out for a signal that has no record. */
  function NoRecordInfo(sig: Signo): SigInfo {
    SigInfo(sig, SI_USER, 0)
  }

  /** Bitmap and list may disagree in one direction only: every queued record's
      signal is in the bitmap. */
  ghost predicate Coherent(p: Pending) {
    forall r :: r in p.list ==> r.info.signo in p.signal
  }

  // ---------------------------------------------------------------- filters

  /** The records whose signal is in `sigs`, in list order. */
  function Keep(list: seq<Rec>, sigs: set<Signo>): seq<Rec> {
    if list == [] then []
    else
      var rest := Keep(list[..|list| - 1], sigs);
      var last := list[|list| - 1];
      if last.info.signo in sigs then rest + [last] else rest
  }

  lemma {:induction false} KeepMembers(list: seq<Rec>, sigs: set<Signo>)
    ensures forall r :: r in Keep(list, sigs) <==> r in list && r.info.signo in sigs
  {
    if list != [] {
      KeepMembers(list[..|list| - 1], sigs);
      assert list == list[..|list| - 1] + [list[|list| - 1]];
    }
  }

  /** The records of one signal, in list order. */
  function Of(list: seq<Rec>, sig: Signo): seq<Rec> {
    Keep(list, {sig})
  }

  lemma {:induction false} KeepConcat(a: seq<Rec>, b: seq<Rec>, sigs: set<Signo>)
    ensures Keep(a + b, sigs) == Keep(a, sigs) + Keep(b, sigs)
  {
    if b == [] {
      assert a + b == a;
    } else {
      var last := b[|b| - 1];
      KeepConcat(a, b[..|b| - 1], sigs);
      assert (a + b)[..|a + b| - 1] == a + b[..|b| - 1];
      assert (a + b)[|a + b| - 1] == last;
    }
  }

  lemma {:induction false} KeepTwice(list: seq<Rec>, a: set<Signo>, b: set<Signo>)
    ensures Keep(Keep(list, a), b) == Keep(list, a * b)
  {
    if list != [] {
      var front := list[..|list| - 1];
      var last := list[|list| - 1];
      KeepTwice(front, a, b);
      if last.info.signo in a {
        KeepConcat(Keep(front, a), [last], b);
      }
    }
  }

  lemma {:induction false} KeepEverything(list: seq<Rec>, sigs: set<Signo>)
    requires forall r :: r in list ==> r.info.signo in sigs
    ensures Keep(list, sigs) == list
  {
    if list != [] {
      KeepEverything(list[..|list| - 1], sigs);
    }
  }

  lemma KeepNothing(list: seq<Rec>, sigs: set<Signo>)
    requires forall r :: r in list ==> r.info.signo !in sigs
    ensures Keep(list, sigs) == []
  {
    KeepMembers(list, sigs);
    assert forall r :: r !in Keep(list, sigs);
  }

  lemma KeepStep(list: seq<Rec>, m: nat, sigs: set<Signo>)
    requires m < |list|
    ensures Keep(list[..m + 1], sigs)
         == if list[m].info.signo in sigs then Keep(list[..m], sigs) + [list[m]] else Keep(list[..m], sigs)
  {
    assert list[..m + 1][..m] == list[..m];
  }

  /** Filtering out `mask` keeps every other signal's records as they were. */
  lemma OfOutside(list: seq<Rec>, mask: set<Signo>, s: Signo)
    ensures Of(Keep(list, ALL - mask), s) == if s in mask then [] else Of(list, s)
  {
    KeepTwice(list, ALL - mask, {s});
    if s in mask {
      assert (ALL - mask) * {s} == {};
      KeepNothing(list, {});
    } else {
      assert (ALL - mask) * {s} == {s};
    }
  }

  // ------------------------------------------------------ removal by signal

  lemma DisjointMinus(a: set<Signo>, b: set<Signo>)
    ensures a * b == {} <==> forall x :: x in a ==> x !in b
    ensures a * b == {} ==> a - b == a
  {
    if a * b == {} {
      assert forall x :: x in a && x in b ==> x in a * b;
    }
  }

  /** The plain meaning of removal: clear the bits and drop the records. */
  function Discard(p: Pending, mask: set<Signo>): Pending {
    Pending(p.signal - mask, Keep(p.list, ALL - mask))
  }

  /** rm_from_queue_full. */
  function RmFromQueueFull(p: Pending, mask: set<Signo>): Pending {
    if p.signal * mask == {} then p else Discard(p, mask)
  }

  /** rm_from_queue: bits of the first mask word, records below SIGRTMIN only. */
  function RmFromQueue(p: Pending, mask: set<Signo>): (r: Pending)
    ensures r.signal == p.signal - mask
  {
    assert p.signal * mask == {} ==> p.signal - mask == p.signal by { DisjointMinus(p.signal, mask); }
    if p.signal * mask == {} then p
    else Pending(p.signal - mask, Keep(p.list, ALL - mask * LEGACY))
  }

  /** The early exit of rm_from_queue_full gives the plain filter exactly when
      no record of `mask` is queued without its bit. */
  lemma FullRemovalIsDiscard(p: Pending, mask: set<Signo>)
    ensures RmFromQueueFull(p, mask) == Discard(p, mask)
       <==> (p.signal * mask == {} ==> forall r :: r in p.list ==> r.info.signo !in mask)
    ensures Coherent(p) ==> RmFromQueueFull(p, mask) == Discard(p, mask) && Coherent(Discard(p, mask))
  {
    DisjointMinus(p.signal, mask);
    KeepMembers(p.list, ALL - mask);
    if p.signal * mask == {} {
      if forall r :: r in p.list ==> r.info.signo !in mask {
        KeepEverything(p.list, ALL - mask);
      } else {
        var r :| r in p.list && r.info.signo in mask;
        assert r !in Keep(p.list, ALL - mask);
      }
    }
  }

  /** The short form keeps a coherent queue coherent exactly when no real-time
      record lies under its mask; below SIGRTMIN it is the plain filter. */
  lemma ShortRemovalCoherence(p: Pending, mask: set<Signo>)
    requires Coherent(p)
    ensures Coherent(RmFromQueue(p, mask))
       <==> forall r :: r in p.list && r.info.signo in mask ==> r.info.signo < SIGRTMIN
    ensures mask <= LEGACY ==> RmFromQueue(p, mask) == Discard(p, mask)
  {
    var q := RmFromQueue(p, mask);
    DisjointMinus(p.signal, mask);
    KeepMembers(p.list, ALL - mask * LEGACY);
    if p.signal * mask == {} {
      KeepEverything(p.list, ALL - mask);
    } else {
      if r :| r in p.list && r.info.signo in mask && r.info.signo >= SIGRTMIN {
        assert r in q.list;
      }
      if mask <= LEGACY {
        assert mask * LEGACY == mask;
      }
    }
  }

  /** A queue and a mask for which it does: one real-time record, and its signal in
      the mask.  The bit goes and the record stays. */
  lemma ShortRemovalLeavesRealTime(id: nat)
    ensures var p := Pending({SIGRTMIN}, [Rec(id, SigInfo(SIGRTMIN, SI_USER, 0))]);
            && Coherent(p) && RmFromQueue(p, {SIGRTMIN}) == Pending({}, p.list)
            && !Coherent(RmFromQueue(p, {SIGRTMIN}))
  {
    var r := Rec(id, SigInfo(SIGRTMIN, SI_USER, 0));
    var p := Pending({SIGRTMIN}, [r]);
    assert {SIGRTMIN} * LEGACY == {};
    KeepEverything(p.list, ALL - {SIGRTMIN} * LEGACY);
    assert SIGRTMIN in p.signal * {SIGRTMIN};
    assert r in p.list;
  }

  // ------------------------------------------------------------ collection

  /** Index of the first record of `sig`, or |list|. */
  function FirstOf(list: seq<Rec>, sig: Signo): (k: nat)
    ensures k <= |list|
    ensures k < |list| ==> list[k].info.signo == sig
    ensures forall j :: 0 <= j < k ==> list[j].info.signo != sig
  {
    if list == [] then 0
    else if list[0].info.signo == sig then 0
    else 1 + FirstOf(list[1..], sig)
  }

  /** What a walk knows when it has seen the first record and perhaps a second. */
  lemma FirstAndSecond(list: seq<Rec>, sig: Signo, first: nat, second: bool, k: nat)
    requires first <= |list| && k <= |list|
    requires forall j :: 0 <= j < first ==> list[j].info.signo != sig
    requires first < |list| ==> list[first].info.signo == sig
    requires second ==> first < k - 1 && list[k - 1].info.signo == sig
    requires !second ==> forall j :: first < j < |list| ==> list[j].info.signo != sig
    ensures first == FirstOf(list, sig)
    ensures second <==> |Of(list, sig)| > 1
  {
    if first == |list| {
      KeepNothing(list, {sig});
    } else {
      SplitAt(list, sig, first);
      var rest := list[first + 1..];
      if second {
        KeepMembers(rest, {sig});
        assert rest[k - 1 - (first + 1)] in rest;
      } else {
        KeepNothing(rest, {sig});
      }
    }
  }

  datatype Collected = Collected(queue: Pending, info: SigInfo, removed: seq<Rec>)

  /** collect_signal: take the first record of `sig` off the list; the bit stays
      exactly if another record of `sig` remains. */
  function Collect(p: Pending, sig: Signo): (c: Collected)
    ensures c.queue.signal <= p.signal && p.signal - {sig} <= c.queue.signal
  {
    var k := FirstOf(p.list, sig);
    if k == |p.list| then Collected(Pending(p.signal - {sig}, p.list), NoRecordInfo(sig), [])
    else
      var signal := if |Of(p.list, sig)| > 1 then p.signal else p.signal - {sig};
      Collected(Pending(signal, p.list[..k] + p.list[k + 1..]), p.list[k].info, [p.list[k]])
  }

  /** A list splits at the first record of `sig`. */
  lemma SplitAt(list: seq<Rec>, sig: Signo, k: nat)
    requires k < |list| && list[k].info.signo == sig
    requires forall j :: 0 <= j < k ==> list[j].info.signo != sig
    ensures Of(list[..k], sig) == []
    ensures Of(list, sig) == [list[k]] + Of(list[k + 1..], sig)
  {
    var a, x, b := list[..k], [list[k]], list[k + 1..];
    KeepNothing(a, {sig});
    KeepConcat(a, x + b, {sig});
    KeepConcat(x, b, {sig});
    assert list == a + (x + b);
    assert Keep(x, {sig}) == x;
  }

  lemma FirstSplits(list: seq<Rec>, sig: Signo)
    ensures FirstOf(list, sig) == |list| <==> Of(list, sig) == []
    ensures FirstOf(list, sig) < |list| ==>
              var k := FirstOf(list, sig);
              Of(list, sig) == [list[k]] + Of(list[k + 1..], sig) && Of(list[..k], sig) == []
  {
    var k := FirstOf(list, sig);
    if k == |list| {
      KeepNothing(list, {sig});
    } else {
      SplitAt(list, sig, k);
    }
  }

  /** What collecting means: the oldest record of `sig` goes, every other
      signal's records and bits stay, and the bit of `sig` is left set exactly
      when a record of `sig` is still queued. */
  lemma CollectMeaning(p: Pending, sig: Signo)
    ensures var c := Collect(p, sig);
            && (Of(p.list, sig) == [] ==>
                  c.info == NoRecordInfo(sig) && c.removed == [] && Of(c.queue.list, sig) == [])
            && (Of(p.list, sig) != [] ==>
                  && c.info == Of(p.list, sig)[0].info && c.removed == [Of(p.list, sig)[0]]
                  && Of(c.queue.list, sig) == Of(p.list, sig)[1..])
            && (forall s: Signo :: s != sig ==>
                  Of(c.queue.list, s) == Of(p.list, s) && (s in c.queue.signal <==> s in p.signal))
            && (sig in p.signal ==> (sig in c.queue.signal <==> Of(c.queue.list, sig) != []))
            && (Coherent(p) ==> Coherent(c.queue))
  {
    var c := Collect(p, sig);
    var k := FirstOf(p.list, sig);
    FirstSplits(p.list, sig);
    if k < |p.list| {
      var a, b := p.list[..k], p.list[k + 1..];
      assert p.list == a + [p.list[k]] + b;
      forall s: Signo
        ensures s != sig ==> Of(c.queue.list, s) == Of(p.list, s)
        ensures s == sig ==> Of(c.queue.list, s) == Of(p.list, sig)[1..]
      {
        KeepConcat(a, b, {s});
        KeepConcat(a + [p.list[k]], b, {s});
        KeepConcat(a, [p.list[k]], {s});
      }
    }
    if Coherent(p) {
      forall r | r in c.queue.list
        ensures r.info.signo in c.queue.signal
      {
        KeepMembers(c.queue.list, {sig});
        assert r in p.list;
      }
    }
  }

  // -------------------------------------------------------------- dequeuing

  datatype Dequeued = Dequeued(sig: int, after: Collected)

  /** __dequeue_signal without a notifier: sig is 0 if nothing is ready. */
  function Dequeue(p: Pending, mask: set<Signo>): (d: Dequeued)
    ensures IsNext(p.signal - mask, d.sig)
    ensures d.sig != 0 ==> d.sig in p.signal && d.sig !in mask && d.after == Collect(p, d.sig)
    ensures d.sig == 0 ==> d.after.queue == p && d.after.removed == [] && p.signal - mask == {}
  {
    var sig := NextSignal(p.signal - mask);
    if sig == 0 then Dequeued(0, Collected(p, NoRecordInfo(1), []))
    else Dequeued(sig, Collect(p, sig))
  }

  // ---------------------------------------------------------------- sending

  /** What accompanies a generated signal: SEND_SIG_NOINFO, SEND_SIG_PRIV,
      SEND_SIG_FORCED, or the caller's own siginfo for the same signal. */
  datatype Source = NoInfo | Priv | Forced | Given(code: int, value: int)

  /** Outcome of __sigqueue_alloc. */
  datatype Slot = NoSlot | Slot(id: nat)

  datatype SendResult = Coalesced | Refused | Accepted(queue: Pending)

  function InfoFor(sig: Signo, src: Source): SigInfo {
    match src
    case Given(code, value) => SigInfo(sig, code, value)
    case Priv => SigInfo(sig, SI_KERNEL, 0)
    case _ => SigInfo(sig, SI_USER, 0)
  }

  /** legacy_queue: a legacy signal that is already pending is not queued again. */
  predicate LegacyQueued(p: Pending, sig: Signo) {
    sig < SIGRTMIN && sig in p.signal
  }

  /** The queueing part of __send_signal, after prepare_signal let it pass. */
  function SendTo(p: Pending, sig: Signo, src: Source, slot: Slot): (r: SendResult)
    ensures r.Accepted? ==> r.queue.signal == p.signal + {sig}
  {
    if LegacyQueued(p, sig) then Coalesced
    else if src.Forced? then Accepted(Pending(p.signal + {sig}, p.list))
    else if slot.Slot? then Accepted(Pending(p.signal + {sig}, p.list + [Rec(slot.id, InfoFor(sig, src))]))
    else if src.Given? && sig >= SIGRTMIN && src.code != SI_USER then Refused
    else Accepted(Pending(p.signal + {sig}, p.list))
  }

  /** send_sigqueue puts a preallocated record at the tail. */
  function Append(p: Pending, r: Rec): Pending {
    Pending(p.signal + {r.info.signo}, p.list + [r])
  }

  // --------------------------------------------------- coherence of one queue

  lemma RemovalCoherent(p: Pending, mask: set<Signo>)
    requires Coherent(p) && mask <= LEGACY
    ensures Coherent(RmFromQueue(p, mask)) && RmFromQueue(p, mask) == Discard(p, mask)
  {
    ShortRemovalCoherence(p, mask);
    FullRemovalIsDiscard(p, mask);
  }

  lemma SendCoherent(p: Pending, sig: Signo, src: Source, slot: Slot)
    requires Coherent(p)
    ensures var r := SendTo(p, sig, src, slot); r.Accepted? ==> Coherent(r.queue)
  {
  }

  lemma AppendCoherent(p: Pending, r: Rec)
    requires Coherent(p)
    ensures Coherent(Append(p, r))
  {
  }

  lemma DequeueCoherent(p: Pending, mask: set<Signo>)
    requires Coherent(p)
    ensures Coherent(Dequeue(p, mask).after.queue)
  {
    if Dequeue(p, mask).sig != 0 {
      CollectMeaning(p, Dequeue(p, mask).sig);
    }
  }

  // ------------------------------------------------------------ timer flush

  function DropTimers(list: seq<Rec>): seq<Rec> {
    if list == [] then []
    else
      var rest := DropTimers(list[..|list| - 1]);
      if list[|list| - 1].info.code == SI_TIMER then rest else rest + [list[|list| - 1]]
  }

  function Timers(list: seq<Rec>): seq<Rec> {
    if list == [] then []
    else
      var rest := Timers(list[..|list| - 1]);
      if list[|list| - 1].info.code == SI_TIMER then rest + [list[|list| - 1]] else rest
  }

  lemma {:induction false} TimerMembers(list: seq<Rec>)
    ensures forall r :: r in DropTimers(list) <==> r in list && r.info.code != SI_TIMER
    ensures forall r :: r in Timers(list) <==> r in list && r.info.code == SI_TIMER
  {
    if list != [] {
      TimerMembers(list[..|list| - 1]);
      assert list == list[..|list| - 1] + [list[|list| - 1]];
    }
  }

  /** The walk over a list is the walk over its parts, so what it keeps is in list
      order; of a single record it keeps or drops just that. */
  lemma {:induction false} KeptApart(a: seq<Rec>, b: seq<Rec>)
    ensures DropTimers(a + b) == DropTimers(a) + DropTimers(b)
  {
    if b == [] {
      assert a + b == a;
    } else {
      KeptApart(a, b[..|b| - 1]);
      assert (a + b)[..|a + b| - 1] == a + b[..|b| - 1];
    }
  }

  lemma {:induction false} DroppedApart(a: seq<Rec>, b: seq<Rec>)
    ensures Timers(a + b) == Timers(a) + Timers(b)
  {
    if b == [] {
      assert a + b == a;
    } else {
      DroppedApart(a, b[..|b| - 1]);
      assert (a + b)[..|a + b| - 1] == a + b[..|b| - 1];
    }
  }

  lemma OneTimer(r: Rec)
    ensures DropTimers([r]) == if r.info.code == SI_TIMER then [] else [r]
    ensures Timers([r]) == if r.info.code == SI_TIMER then [r] else []
  {
    assert [r][..0] == [];
  }

  function SignalsOf(list: seq<Rec>): set<Signo> {
    set r | r in list :: r.info.signo
  }

  lemma SignalsOfSnoc(list: seq<Rec>, r: Rec)
    ensures SignalsOf(list + [r]) == SignalsOf(list) + {r.info.signo}
  {
  }

  /** __flush_itimer_signals. */
  function FlushTimers(p: Pending): Pending {
    Pending(p.signal - SignalsOf(Timers(p.list)) + SignalsOf(DropTimers(p.list)), DropTimers(p.list))
  }

  /** A bit survives the flush exactly if a record that is no timer's backs it,
      or if it was set without any timer record. */
  lemma FlushTimersMeaning(p: Pending)
    requires Coherent(p)
    ensures Coherent(FlushTimers(p))
    ensures forall s: Signo :: s in FlushTimers(p).signal <==>
              s in p.signal && ((exists r :: r in p.list && r.info.signo == s && r.info.code != SI_TIMER)
                             || (forall r :: r in p.list && r.info.signo == s ==> r.info.code != SI_TIMER))
  {
    var f := FlushTimers(p);
    TimerMembers(p.list);
    forall s: Signo
      ensures s in f.signal <==>
                s in p.signal && ((exists r :: r in p.list && r.info.signo == s && r.info.code != SI_TIMER)
                               || (forall r :: r in p.list && r.info.signo == s ==> r.info.code != SI_TIMER))
    {
      if s in f.signal && s !in p.signal - SignalsOf(Timers(p.list)) {
        var r :| r in DropTimers(p.list) && r.info.signo == s;
        assert r in p.list;
      }
      if r :| r in p.list && r.info.signo == s && r.info.code != SI_TIMER {
        assert r in f.list;
      }
    }
  }

  // -------------------------------------------------- the queue, in place

  /** A list being filtered in place: `kept`, then what is left from index m. */
  lemma AtCursor(kept: seq<Rec>, orig: seq<Rec>, m: nat)
    requires m < |orig|
    ensures var list := kept + orig[m..];
            && list[|kept|] == orig[m]
            && list[..|kept|] + list[|kept| + 1..] == kept + orig[m + 1..]
            && list == kept + [orig[m]] + orig[m + 1..]
  {
  }

  /** A removal walk over `orig` stands at list[k]; `removed` is unlinked so far. */
  ghost predicate Walk(orig: seq<Rec>, mask: set<Signo>, list: seq<Rec>, k: int, removed: seq<Rec>) {
    exists m :: 0 <= m <= |orig| && WalkAt(orig, mask, m, list, k, removed)
  }

  ghost predicate WalkAt(orig: seq<Rec>, mask: set<Signo>, m: nat, list: seq<Rec>, k: int, removed: seq<Rec>)
    requires m <= |orig|
  {
    && k == |Keep(orig[..m], ALL - mask)|
    && list == Keep(orig[..m], ALL - mask) + orig[m..]
    && removed == Keep(orig[..m], mask)
  }

  lemma WalkStart(orig: seq<Rec>, mask: set<Signo>)
    ensures Walk(orig, mask, orig, 0, [])
  {
    assert orig[..0] == [] && orig[0..] == orig;
    assert WalkAt(orig, mask, 0, orig, 0, []);
  }

  lemma WalkStep(orig: seq<Rec>, mask: set<Signo>, list: seq<Rec>, k: int, removed: seq<Rec>)
    requires Walk(orig, mask, list, k, removed) && 0 <= k < |list|
    ensures if list[k].info.signo in mask then Walk(orig, mask, list[..k] + list[k + 1..], k, removed + [list[k]])
            else Walk(orig, mask, list, k + 1, removed)
  {
    var m: nat :| m <= |orig| && WalkAt(orig, mask, m, list, k, removed);
    KeepStep(orig, m, ALL - mask);
    KeepStep(orig, m, mask);
    AtCursor(Keep(orig[..m], ALL - mask), orig, m);
    if list[k].info.signo in mask {
      assert WalkAt(orig, mask, m + 1, list[..k] + list[k + 1..], k, removed + [list[k]]);
    } else {
      assert WalkAt(orig, mask, m + 1, list, k + 1, removed);
    }
  }

  lemma WalkEnd(orig: seq<Rec>, mask: set<Signo>, list: seq<Rec>, k: int, removed: seq<Rec>)
    requires Walk(orig, mask, list, k, removed)
    ensures 0 <= k
    ensures k >= |list| ==> list == Keep(orig, ALL - mask) && removed == Keep(orig, mask)
  {
    var m: nat :| m <= |orig| && WalkAt(orig, mask, m, list, k, removed);
    if k >= |list| {
      assert orig[..m] == orig;
    }
  }

  lemma DropTimersStep(list: seq<Rec>, m: nat)
    requires m < |list|
    ensures DropTimers(list[..m + 1])
         == if list[m].info.code == SI_TIMER then DropTimers(list[..m]) else DropTimers(list[..m]) + [list[m]]
    ensures Timers(list[..m + 1])
         == if list[m].info.code == SI_TIMER then Timers(list[..m]) + [list[m]] else Timers(list[..m])
  {
    assert list[..m + 1] == list[..m] + [list[m]];
    assert list[..m + 1][..m] == list[..m];
  }

  /** The walk of the timer flush, likewise. */
  ghost predicate TimerWalk(orig: seq<Rec>, list: seq<Rec>, k: int, removed: seq<Rec>) {
    exists m :: 0 <= m <= |orig| && TimerWalkAt(orig, m, list, k, removed)
  }

  ghost predicate TimerWalkAt(orig: seq<Rec>, m: nat, list: seq<Rec>, k: int, removed: seq<Rec>)
    requires m <= |orig|
  {
    && k == |DropTimers(orig[..m])|
    && list == DropTimers(orig[..m]) + orig[m..]
    && removed == Timers(orig[..m])
  }

  lemma TimerWalkStart(orig: seq<Rec>)
    ensures TimerWalk(orig, orig, 0, [])
  {
    assert orig[..0] == [] && orig[0..] == orig;
    assert TimerWalkAt(orig, 0, orig, 0, []);
  }

  lemma TimerWalkStep(orig: seq<Rec>, list: seq<Rec>, k: int, removed: seq<Rec>)
    requires TimerWalk(orig, list, k, removed) && 0 <= k < |list|
    ensures if list[k].info.code == SI_TIMER then TimerWalk(orig, list[..k] + list[k + 1..], k, removed + [list[k]])
            else TimerWalk(orig, list, k + 1, removed)
  {
    var m: nat :| m <= |orig| && TimerWalkAt(orig, m, list, k, removed);
    DropTimersStep(orig, m);
    AtCursor(DropTimers(orig[..m]), orig, m);
    if list[k].info.code == SI_TIMER {
      assert TimerWalkAt(orig, m + 1, list[..k] + list[k + 1..], k, removed + [list[k]]);
    } else {
      assert TimerWalkAt(orig, m + 1, list, k + 1, removed);
    }
  }

  lemma TimerWalkEnd(orig: seq<Rec>, list: seq<Rec>, k: int, removed: seq<Rec>)
    requires TimerWalk(orig, list, k, removed)
    ensures k >= |list| ==> list == DropTimers(orig) && removed == Timers(orig)
  {
    var m: nat :| m <= |orig| && TimerWalkAt(orig, m, list, k, removed);
    if k >= |list| {
      assert orig[..m] == orig;
    }
  }

  /** The timer flush in mid-walk: `bits` is what is left of the bitmap, `retain`
      the signals of the records kept so far. */
  ghost predicate FlushWalk(p: Pending, list: seq<Rec>, k: int, removed: seq<Rec>, bits: set<Signo>,
                            retain: set<Signo>) {
    && 0 <= k <= |list| && TimerWalk(p.list, list, k, removed)
    && bits == p.signal - SignalsOf(removed) && retain == SignalsOf(list[..k])
  }

  lemma FlushWalkStart(p: Pending)
    ensures FlushWalk(p, p.list, 0, [], p.signal, {})
  {
    TimerWalkStart(p.list);
  }

  lemma FlushKeeps(p: Pending, list: seq<Rec>, k: int, removed: seq<Rec>, bits: set<Signo>, retain: set<Signo>)
    requires FlushWalk(p, list, k, removed, bits, retain) && k < |list| && list[k].info.code != SI_TIMER
    ensures FlushWalk(p, list, k + 1, removed, bits, retain + {list[k].info.signo})
  {
    TimerWalkStep(p.list, list, k, removed);
    assert list[..k + 1] == list[..k] + [list[k]];
    SignalsOfSnoc(list[..k], list[k]);
  }

  lemma FlushDrops(p: Pending, list: seq<Rec>, k: int, removed: seq<Rec>, bits: set<Signo>, retain: set<Signo>)
    requires FlushWalk(p, list, k, removed, bits, retain) && k < |list| && list[k].info.code == SI_TIMER
    ensures FlushWalk(p, list[..k] + list[k + 1..], k, removed + [list[k]], bits - {list[k].info.signo}, retain)
  {
    TimerWalkStep(p.list, list, k, removed);
    assert (list[..k] + list[k + 1..])[..k] == list[..k];
    SignalsOfSnoc(removed, list[k]);
  }

  lemma FlushWalkEnd(p: Pending, list: seq<Rec>, k: int, removed: seq<Rec>, bits: set<Signo>, retain: set<Signo>)
    requires FlushWalk(p, list, k, removed, bits, retain)
    ensures 0 <= k <= |list|
    ensures k == |list| ==> Pending(bits + retain, list) == FlushTimers(p) && removed == Timers(p.list)
  {
    TimerWalkEnd(p.list, list, k, removed);
    if k == |list| {
      assert list[..k] == list;
    }
  }

  class SigPending {
    var signal: set<Signo>
    var list: seq<Rec>

    constructor ()
      ensures State() == EMPTY
    {
      signal, list := {}, [];
    }

    ghost function State(): Pending
      reads this
    {
      Pending(signal, list)
    }

    /** collect_signal: one walk that stops at the second record of `sig`. */
    method CollectSignal(sig: Signo) returns (info: SigInfo, removed: seq<Rec>)
      modifies this
      ensures Collected(State(), info, removed) == Collect(old(State()), sig)
    {
      var first, stillPending, k := |list|, false, 0;
      while k < |list| && !stillPending
        invariant 0 <= k <= |list| && 0 <= first <= |list|
        invariant first == |list| ==> !stillPending && forall j :: 0 <= j < k ==> list[j].info.signo != sig
        invariant first < |list| ==> first < k && list[first].info.signo == sig
        invariant forall j :: 0 <= j < k && j < first ==> list[j].info.signo != sig
        invariant !stillPending ==> forall j :: first < j < k ==> list[j].info.signo != sig
        invariant stillPending ==> first < k - 1 && list[k - 1].info.signo == sig
      {
        if list[k].info.signo == sig {
          if first < |list| {
            stillPending := true;
          } else {
            first := k;
          }
        }
        k := k + 1;
      }
      FirstAndSecond(list, sig, first, stillPending, k);
      if !stillPending {
        signal := signal - {sig};
      }
      if first < |list| {
        info, removed := list[first].info, [list[first]];
        list := list[..first] + list[first + 1..];
      } else {
        info, removed := NoRecordInfo(sig), [];
      }
    }

    /** rm_from_queue_full: deletes in place while walking the list. */
    method RemoveFull(mask: set<Signo>) returns (found: bool, removed: seq<Rec>)
      modifies this
      ensures State() == RmFromQueueFull(old(State()), mask)
      ensures found <==> old(signal) * mask != {}
      ensures removed == if found then Keep(old(list), mask) else []
    {
      if signal * mask == {} {
        return false, [];
      }
      signal := signal - mask;
      removed := Unlink(mask);
      found := true;
      assert ALL * mask == mask;
    }

    /** rm_from_queue: the one-word form. */
    method RemoveShort(mask: set<Signo>) returns (found: bool, removed: seq<Rec>)
      modifies this
      ensures State() == RmFromQueue(old(State()), mask)
      ensures found <==> old(signal) * mask != {}
      ensures removed == if found then Keep(old(list), mask * LEGACY) else []
    {
      if signal * mask == {} {
        return false, [];
      }
      signal := signal - mask;
      removed := Unlink(mask * LEGACY);
      found := true;
    }

    /** The list walk shared by both removals. */
    method Unlink(mask: set<Signo>) returns (removed: seq<Rec>)
      modifies this`list
      ensures list == Keep(old(list), ALL - mask)
      ensures removed == Keep(old(list), mask)
    {
      var k := 0;
      removed := [];
      WalkStart(list, mask);
      while k < |list|
        invariant 0 <= k && Walk(old(list), mask, list, k, removed)
        decreases |list| - k
      {
        WalkStep(old(list), mask, list, k, removed);
        if list[k].info.signo in mask {
          removed := removed + [list[k]];
          list := list[..k] + list[k + 1..];
        } else {
          k := k + 1;
        }
      }
      WalkEnd(old(list), mask, list, k, removed);
    }

    /** __flush_itimer_signals: a timer's record takes its bit with it, a record
        that is no timer's is retained together with its bit. */
    method FlushItimerSignals() returns (removed: seq<Rec>)
      modifies this
      ensures State() == FlushTimers(old(State()))
      ensures removed == Timers(old(list))
    {
      ghost var p := State();
      var bits, retain, k := signal, {}, 0;
      removed := [];
      FlushWalkStart(p);
      while k < |list|
        invariant FlushWalk(p, list, k, removed, bits, retain)
        decreases |list| - k
      {
        FlushWalkEnd(p, list, k, removed, bits, retain);
        var q := list[k];
        if q.info.code != SI_TIMER {
          FlushKeeps(p, list, k, removed, bits, retain);
          retain := retain + {q.info.signo};
          k := k + 1;
        } else {
          FlushDrops(p, list, k, removed, bits, retain);
          bits := bits - {q.info.signo};
          list := list[..k] + list[k + 1..];
          removed := removed + [q];
        }
      }
      FlushWalkEnd(p, list, k, removed, bits, retain);
      signal := bits + retain;
    }
  }
}
