/** Draining a queue with __dequeue_signal under a fixed mask is a stable sort of
    what the mask lets through. */
module Drain {
  import opened Signals
  import opened SigQueue

  /** How often signal s can be taken off the queue. */
  function Load(p: Pending, s: Signo): nat {
    if s !in p.signal then 0 else if Of(p.list, s) == [] then 1 else |Of(p.list, s)|
  }

  /** The loads of the unmasked signals from `from` up. */
  function Work(p: Pending, mask: set<Signo>, from: Signo): nat
    decreases NSIG - from
  {
    (if from in mask then 0 else Load(p, from)) + if from == NSIG then 0 else Work(p, mask, from + 1)
  }

  function Larger(a: nat, b: nat): nat {
    if a < b then b else a
  }

  /** In a coherent queue the load is the larger of the record count and the bit. */
  lemma LoadIsMaximum(p: Pending, s: Signo)
    requires Coherent(p)
    ensures Load(p, s) == Larger(|Of(p.list, s)|, if s in p.signal then 1 else 0)
  {
    KeepMembers(p.list, {s});
    if Of(p.list, s) != [] {
      assert Of(p.list, s)[0] in Of(p.list, s);
    }
  }

  lemma {:induction false} WorkChanges(p: Pending, q: Pending, mask: set<Signo>, sig: Signo, from: Signo)
    requires sig !in mask && Load(p, sig) == Load(q, sig) + 1
    requires forall s: Signo :: s != sig ==> Load(q, s) == Load(p, s)
    ensures Work(p, mask, from) == Work(q, mask, from) + if from <= sig then 1 else 0
    decreases NSIG - from
  {
    if from < NSIG {
      WorkChanges(p, q, mask, sig, from + 1);
    }
  }

  /** Collecting takes one unit off the load of its signal and off no other. */
  lemma CollectLoad(p: Pending, sig: Signo, s: Signo)
    requires sig in p.signal
    ensures Load(p, s) == Load(Collect(p, sig).queue, s) + if s == sig then 1 else 0
  {
    CollectMeaning(p, sig);
  }

  /** Every dequeue does exactly one unit of work. */
  lemma DequeueWorks(p: Pending, mask: set<Signo>)
    requires Dequeue(p, mask).sig != 0
    ensures Work(p, mask, 1) == Work(Dequeue(p, mask).after.queue, mask, 1) + 1
  {
    var sig: Signo := Dequeue(p, mask).sig;
    var q := Collect(p, sig).queue;
    forall s: Signo
      ensures Load(p, s) == Load(q, s) + if s == sig then 1 else 0
    {
      CollectLoad(p, sig, s);
    }
    WorkChanges(p, q, mask, sig, 1);
  }

  /** What dequeuing until nothing is ready hands out, and the queue it leaves. */
  function Drained(p: Pending, mask: set<Signo>): (seq<SigInfo>, Pending)
    decreases Work(p, mask, 1)
  {
    var d := Dequeue(p, mask);
    if d.sig == 0 then ([], p)
    else
      DequeueWorks(p, mask);
      var (out, left) := Drained(d.after.queue, mask);
      ([d.after.info] + out, left)
  }

  /** The infos of one signal in a delivery sequence, in order. */
  function InfosOf(out: seq<SigInfo>, s: Signo): seq<SigInfo> {
    if out == [] then []
    else (if out[0].signo == s then [out[0]] else []) + InfosOf(out[1..], s)
  }

  lemma InfosOfCons(x: SigInfo, out: seq<SigInfo>, s: Signo)
    ensures InfosOf([x] + out, s) == (if x.signo == s then [x] else []) + InfosOf(out, s)
  {
    assert ([x] + out)[1..] == out;
  }

  function Infos(list: seq<Rec>): seq<SigInfo> {
    if list == [] then [] else [list[0].info] + Infos(list[1..])
  }

  /** What one signal is owed: its records in list order, or the blank info of a
      signal that is pending without a record. */
  function Owed(p: Pending, s: Signo): seq<SigInfo> {
    if s !in p.signal then []
    else if Of(p.list, s) == [] then [NoRecordInfo(s)]
    else Infos(Of(p.list, s))
  }

  /** Draining takes exactly the work there is. */
  lemma {:induction false} DrainTerminatesAfterItsWork(p: Pending, mask: set<Signo>)
    ensures |Drained(p, mask).0| == Work(p, mask, 1)
    decreases Work(p, mask, 1)
  {
    var d := Dequeue(p, mask);
    if d.sig == 0 {
      NoWork(p, mask, 1);
    } else {
      DequeueWorks(p, mask);
      DrainTerminatesAfterItsWork(d.after.queue, mask);
    }
  }

  lemma {:induction false} NoWork(p: Pending, mask: set<Signo>, from: Signo)
    requires p.signal - mask == {}
    ensures Work(p, mask, from) == 0
    decreases NSIG - from
  {
    if from < NSIG {
      NoWork(p, mask, from + 1);
    }
    assert from in p.signal && from !in mask ==> from in p.signal - mask;
  }

  lemma InfoHasSignal(p: Pending, mask: set<Signo>)
    requires Dequeue(p, mask).sig != 0
    ensures Dequeue(p, mask).after.info.signo == Dequeue(p, mask).sig
  {
  }

  lemma {:induction false} DrainedWasReady(p: Pending, mask: set<Signo>)
    ensures forall x :: x in Drained(p, mask).0 ==> x.signo in p.signal - mask
    decreases Work(p, mask, 1)
  {
    var d := Dequeue(p, mask);
    if d.sig != 0 {
      DequeueWorks(p, mask);
      InfoHasSignal(p, mask);
      DrainedWasReady(d.after.queue, mask);
      var out := Drained(d.after.queue, mask).0;
      forall x | x in [d.after.info] + out
        ensures x.signo in p.signal - mask
      {
        if x in out {
          assert x.signo in d.after.queue.signal - mask;
        }
      }
    }
  }

  /** No signal comes after one that is to be serviced later. */
  ghost predicate InServiceOrder(out: seq<SigInfo>) {
    forall a, b :: 0 <= a < b < |out| ==> !Before(out[b].signo, out[a].signo)
  }

  lemma InOrderCons(x: SigInfo, rest: seq<SigInfo>)
    requires InServiceOrder(rest)
    requires forall y :: y in rest ==> !Before(y.signo, x.signo)
    ensures InServiceOrder([x] + rest)
  {
    var out := [x] + rest;
    forall a, b | 0 <= a < b < |out|
      ensures !Before(out[b].signo, out[a].signo)
    {
      assert rest[b - 1] in rest;
      if a > 0 {
        assert out[a] == rest[a - 1];
      }
    }
  }

  /** Synchronous signals come first, then ascending numbers. */
  lemma {:induction false} DrainIsSorted(p: Pending, mask: set<Signo>)
    ensures InServiceOrder(Drained(p, mask).0)
    decreases Work(p, mask, 1)
  {
    var d := Dequeue(p, mask);
    if d.sig != 0 {
      DequeueWorks(p, mask);
      InfoHasSignal(p, mask);
      var rest := Drained(d.after.queue, mask).0;
      DrainIsSorted(d.after.queue, mask);
      DrainedWasReady(d.after.queue, mask);
      forall y | y in rest
        ensures !Before(y.signo, d.sig)
      {
        assert y.signo in p.signal - mask;
      }
      InOrderCons(d.after.info, rest);
    }
  }

  /** Collecting hands out the first thing owed. */
  lemma OwedStep(p: Pending, sig: Signo, s: Signo)
    requires sig in p.signal
    ensures Owed(p, s) == (if s == sig then [Collect(p, sig).info] else []) + Owed(Collect(p, sig).queue, s)
  {
    CollectMeaning(p, sig);
    if s == sig {
      var records := Of(p.list, s);
      if records != [] {
        assert Infos(records) == [records[0].info] + Infos(records[1..]);
        assert Infos([]) == [];
      }
    }
  }

  /** Within each signal the order is the list order, and nothing unmasked is
      lost or duplicated; what is masked is not handed out at all. */
  lemma {:induction false} DrainIsStable(p: Pending, mask: set<Signo>, s: Signo)
    ensures InfosOf(Drained(p, mask).0, s) == if s in mask then [] else Owed(p, s)
    decreases Work(p, mask, 1)
  {
    var d := Dequeue(p, mask);
    if d.sig == 0 {
      assert s in p.signal - mask || s in mask || s !in p.signal;
    } else {
      DequeueWorks(p, mask);
      InfoHasSignal(p, mask);
      OwedStep(p, d.sig, s);
      DrainIsStable(d.after.queue, mask, s);
      InfosOfCons(d.after.info, Drained(d.after.queue, mask).0, s);
    }
  }

  /** What draining leaves: masked signals with their bits and records as they
      were, and neither bit nor record of any signal that was handed out. */
  lemma {:induction false} DrainLeavesTheMasked(p: Pending, mask: set<Signo>, s: Signo)
    ensures var q := Drained(p, mask).1;
            && (s in q.signal <==> s in p.signal && s in mask)
            && Of(q.list, s) == if s in p.signal && s !in mask then [] else Of(p.list, s)
    decreases Work(p, mask, 1)
  {
    var d := Dequeue(p, mask);
    if d.sig == 0 {
      assert s in p.signal - mask || s in mask || s !in p.signal;
    } else {
      DequeueWorks(p, mask);
      CollectMeaning(p, d.sig);
      DrainLeavesTheMasked(d.after.queue, mask, s);
    }
  }
}
