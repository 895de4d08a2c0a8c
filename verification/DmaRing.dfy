/** The DMA ring: a circular buffer with full flags between one submitting
    process and the completion interrupt of a device with one programmed transfer. */
module DmaRing {
  datatype Slot = Slot(full: bool, count: nat)

  datatype Device = Idle | Busy(slot: nat, count: nat)

  /** The submitter: outside initiateTransfer, asleep in wait_event, or woken and
      about to take the lock again. */
  datatype Submitter = Outside | Waiting(count: nat) | Woken(count: nat)

  datatype Ring = Ring(slots: seq<Slot>, fill: nat, drain: nat, device: Device, submitter: Submitter)

  predicate Ok(r: Ring) {
    |r.slots| >= 2 && r.fill < |r.slots| && r.drain < |r.slots|
  }

  function Succ(i: nat, n: nat): nat {
    if i + 1 == n then 0 else i + 1
  }

  lemma SuccIsModulo(i: nat, n: nat)
    requires i < n
    ensures (i + 1) % n == Succ(i, n)
  {
    if i + 1 == n {
      assert (i + 1) % n == 0;
    } else {
      assert (i + 1) % n == i + 1;
    }
  }

  // ------------------------------------------------------------------ the window

  /** How many transfers are queued, as the code tells it from fill, drain and
      the full flag. */
  function Len(r: Ring): nat
    requires Ok(r)
  {
    if r.fill == r.drain then if r.slots[r.fill].full then |r.slots| else 0
    else if r.fill > r.drain then r.fill - r.drain else r.fill + |r.slots| - r.drain
  }

  /** Slot j as an offset from drain. */
  function Offset(r: Ring, j: nat): int
    requires Ok(r)
  {
    if j >= r.drain then j - r.drain else j + |r.slots| - r.drain
  }

  /** The slot at offset k from drain. */
  function SlotAt(r: Ring, k: nat): (j: nat)
    requires Ok(r) && k < |r.slots|
    ensures j < |r.slots| && Offset(r, j) == k
  {
    if r.drain + k < |r.slots| then r.drain + k else r.drain + k - |r.slots|
  }

  datatype Transfer = Transfer(slot: nat, count: nat)

  /** The queued transfers, oldest first. */
  function Window(r: Ring): (w: seq<Transfer>)
    requires Ok(r)
    ensures |w| == Len(r)
  {
    seq(Len(r), k requires 0 <= k < Len(r) => Transfer(SlotAt(r, k), r.slots[SlotAt(r, k)].count))
  }

  /** Full flags mark exactly the cyclic window from drain to fill. */
  ghost predicate FlagsInv(r: Ring) {
    Ok(r) && forall j :: 0 <= j < |r.slots| ==> (r.slots[j].full <==> Offset(r, j) < Len(r))
  }

  /** The device is programmed with slot drain iff the window is not empty. */
  predicate DeviceInv(r: Ring)
    requires Ok(r)
  {
    r.device == if Len(r) == 0 then Idle else Busy(r.drain, r.slots[r.drain].count)
  }

  ghost predicate RingInv(r: Ring) {
    FlagsInv(r) && DeviceInv(r)
  }

  // ------------------------------------------------------------------- the steps

  /** Put a request into slot fill and advance fill. */
  function Enqueue(r: Ring, count: nat): Ring
    requires Ok(r)
  {
    r.(slots := r.slots[r.fill := Slot(true, count)], fill := Succ(r.fill, |r.slots|))
  }

  /** initiateTransfer up to its return or to wait_event_interruptible. */
  function Submit(r: Ring, count: nat): Ring
    requires Ok(r)
  {
    if count == 0 then r
    else if r.fill == r.drain then
      if r.slots[r.fill].full then r.(submitter := Waiting(count))
      else Enqueue(r, count).(device := Busy(r.fill, count))
    else Enqueue(r, count)
  }

  /** initiateTransfer after the wake-up: queue the request, whatever the ring
      looks like by now. */
  function Resume(r: Ring): Ring
    requires Ok(r) && r.submitter.Woken?
  {
    Enqueue(r, r.submitter.count).(submitter := Outside)
  }

  /** dma_interrupt for a completed transfer. */
  function Interrupt(r: Ring): Ring
    requires Ok(r)
  {
    var next := Succ(r.drain, |r.slots|);
    var r1 := r.(slots := r.slots[r.drain := r.slots[r.drain].(full := false)], drain := next);
    if r.fill == r.drain then
      if r.slots[r.fill].full then r1.(device := Busy(next, r1.slots[next].count))
      else r.(device := Idle)
    else if r.fill != next then r1.(device := Busy(next, r1.slots[next].count))
    else r1.(device := Idle)
  }

  datatype Step = Request(count: nat) | Wake | Relock | Complete

  predicate Enabled(r: Ring, s: Step) {
    && Ok(r)
    && match s
       case Request(_) => r.submitter == Outside
       case Wake => r.submitter.Waiting? && (r.fill != r.drain || !r.slots[r.fill].full)
       case Relock => r.submitter.Woken?
       case Complete => r.device.Busy?
  }

  function Next(r: Ring, s: Step): Ring
    requires Enabled(r, s)
  {
    match s
    case Request(count) => Submit(r, count)
    case Wake => r.(submitter := Woken(r.submitter.count))
    case Relock => Resume(r)
    case Complete => Interrupt(r)
  }

  // ------------------------------------------------------------ the ring invariant

  lemma EnqueueWindow(r: Ring, count: nat)
    requires FlagsInv(r) && Len(r) < |r.slots|
    ensures var h := Enqueue(r, count);
            && FlagsInv(h) && Len(h) == Len(r) + 1
            && Window(h) == Window(r) + [Transfer(r.fill, count)]
            && (Len(r) > 0 ==> h.slots[h.drain] == r.slots[r.drain])
  {
    var h := Enqueue(r, count);
    assert Offset(r, r.fill) == Len(r);
    assert SlotAt(r, Len(r)) == r.fill;
    forall j | 0 <= j < |r.slots|
      ensures h.slots[j].full <==> Offset(h, j) < Len(h)
    {
      assert Offset(h, j) == Offset(r, j);
      if Offset(r, j) == Len(r) {
        assert j == r.fill;
      }
    }
    forall k | 0 <= k < Len(h)
      ensures Window(h)[k] == (Window(r) + [Transfer(r.fill, count)])[k]
    {
      assert SlotAt(h, k) == SlotAt(r, k);
    }
  }

  /** A completion on a ring that meets its invariant frees slot drain. */
  lemma InterruptShape(r: Ring)
    requires RingInv(r) && r.device.Busy?
    ensures var h := Interrupt(r);
            && Ok(h) && Len(r) > 0 && Len(h) == Len(r) - 1 && DeviceInv(h)
            && h.slots == r.slots[r.drain := r.slots[r.drain].(full := false)]
            && h.fill == r.fill && h.drain == Succ(r.drain, |r.slots|) && h.submitter == r.submitter
  {
  }

  lemma InterruptFlags(r: Ring)
    requires RingInv(r) && r.device.Busy?
    ensures RingInv(Interrupt(r))
  {
    var h := Interrupt(r);
    InterruptShape(r);
    forall j | 0 <= j < |r.slots|
      ensures h.slots[j].full <==> Offset(h, j) < Len(h)
    {
      assert Offset(h, j) == if j == r.drain then |r.slots| - 1 else Offset(r, j) - 1;
    }
  }

  lemma InterruptWindow(r: Ring)
    requires RingInv(r) && r.device.Busy?
    ensures var h := Interrupt(r);
            && RingInv(h) && Len(h) == Len(r) - 1 && h.submitter == r.submitter
            && Window(h) == Window(r)[1..]
            && (forall j :: 0 <= j < |r.slots| ==> h.slots[j].full ==> r.slots[j].full)
    ensures Len(r) > 0 && Window(r)[0] == Transfer(r.device.slot, r.device.count)
  {
    var h := Interrupt(r);
    InterruptShape(r);
    InterruptFlags(r);
    assert SlotAt(r, 0) == r.drain;
    forall k | 0 <= k < Len(h)
      ensures Window(h)[k] == Window(r)[1..][k]
    {
      assert SlotAt(h, k) == SlotAt(r, k + 1);
    }
  }

  /** A submitter that was woken meets a ring with room: only interrupts happened
      since, and there is no second submitter. */
  ghost predicate SystemInv(r: Ring) {
    RingInv(r) && (r.submitter.Woken? ==> Len(r) < |r.slots|)
  }

  /** The assumption on scheduling: a woken submitter takes the lock before the
      ring has run empty. */
  predicate Timely(r: Ring, s: Step)
    requires Ok(r)
  {
    s.Relock? ==> Len(r) > 0
  }

  lemma SubmitKeeps(r: Ring, count: nat)
    requires SystemInv(r) && r.submitter == Outside
    ensures SystemInv(Submit(r, count))
  {
    if count != 0 && Len(r) < |r.slots| {
      EnqueueWindow(r, count);
    }
  }

  /** A request joins the end of the window unless it has to wait. */
  lemma SubmitWindow(r: Ring, count: nat)
    requires SystemInv(r) && r.submitter == Outside && count != 0
    ensures SystemInv(Submit(r, count))
    ensures Window(Submit(r, count))
         == Window(r) + if Len(r) == |r.slots| then [] else [Transfer(r.fill, count)]
  {
    SubmitKeeps(r, count);
    if Len(r) < |r.slots| {
      EnqueueWindow(r, count);
      assert Window(Submit(r, count)) == Window(Enqueue(r, count));
    } else {
      assert Window(Submit(r, count)) == Window(r);
    }
  }

  /** Exactly the race breaks the ring: after a woken submitter has queued its
      request the invariant holds iff the ring was not empty. */
  lemma ResumeKeepsIffTimely(r: Ring)
    requires SystemInv(r) && r.submitter.Woken?
    ensures SystemInv(Resume(r)) <==> Len(r) > 0
  {
    EnqueueWindow(r, r.submitter.count);
  }

  lemma StepKeepsSystemInv(r: Ring, s: Step)
    requires SystemInv(r) && Enabled(r, s) && Timely(r, s)
    ensures SystemInv(Next(r, s))
  {
    match s
    case Request(count) => SubmitKeeps(r, count);
    case Wake =>
    case Relock => ResumeKeepsIffTimely(r);
    case Complete => InterruptWindow(r);
  }

  /** START_DMA hands back the buffer of slot fill: it is free iff the ring is
      not full. */
  lemma HandedBackBufferIsFree(r: Ring)
    requires RingInv(r)
    ensures !r.slots[r.fill].full <==> Len(r) < |r.slots|
  {
    assert Len(r) < |r.slots| ==> Offset(r, r.fill) == Len(r);
  }

  // ------------------------------------------------------------- FIFO refinement

  /** What has been submitted (zero-byte calls aside), programmed into the device
      and completed, in order. */
  datatype Log = Log(submitted: seq<Transfer>, programmed: seq<Transfer>, completed: seq<Transfer>)

  function Programmed(d: Device): seq<Transfer> {
    if d.Busy? then [Transfer(d.slot, d.count)] else []
  }

  /** A step writes the device registers iff it is a completion or starts an idle
      device; a submission enters the log when its slot is filled. */
  function Observe(l: Log, r: Ring, s: Step): Log
    requires Enabled(r, s)
  {
    var h := Next(r, s);
    match s
    case Request(count) =>
      if h.fill != r.fill then
        Log(l.submitted + [Transfer(r.fill, count)],
            l.programmed + if h.device != r.device then Programmed(h.device) else [], l.completed)
      else l
    case Wake => l
    case Relock => l.(submitted := l.submitted + [Transfer(r.fill, r.submitter.count)])
    case Complete =>
      Log(l.submitted, l.programmed + Programmed(h.device), l.completed + Programmed(r.device))
  }

  ghost predicate LogInv(l: Log, r: Ring)
    requires Ok(r)
  {
    && l.submitted == l.completed + Window(r)
    && l.programmed == l.completed + Programmed(r.device)
  }

  lemma RequestKeepsLogInv(l: Log, r: Ring, count: nat)
    requires SystemInv(r) && Enabled(r, Request(count)) && LogInv(l, r)
    ensures LogInv(Observe(l, r, Request(count)), Submit(r, count))
  {
    var h, l2 := Submit(r, count), Observe(l, r, Request(count));
    if count != 0 && Len(r) < |r.slots| {
      EnqueueWindow(r, count);
      assert h.fill != r.fill;
      assert Window(h) == Window(Enqueue(r, count));
      assert l2.submitted == l.completed + (Window(r) + [Transfer(r.fill, count)]);
    } else {
      assert Window(h) == Window(r);
    }
  }

  lemma RelockKeepsLogInv(l: Log, r: Ring)
    requires SystemInv(r) && Enabled(r, Relock) && Len(r) > 0 && LogInv(l, r)
    ensures LogInv(Observe(l, r, Relock), Resume(r))
  {
    var count := r.submitter.count;
    EnqueueWindow(r, count);
    assert Window(Resume(r)) == Window(Enqueue(r, count));
    assert Observe(l, r, Relock).submitted == l.completed + (Window(r) + [Transfer(r.fill, count)]);
  }

  lemma MoveHead<T>(a: seq<T>, w: seq<T>)
    requires |w| > 0
    ensures a + w == (a + [w[0]]) + w[1..]
  {
    assert w == [w[0]] + w[1..];
  }

  lemma CompleteKeepsLogInv(l: Log, r: Ring)
    requires SystemInv(r) && Enabled(r, Complete) && LogInv(l, r)
    ensures LogInv(Observe(l, r, Complete), Interrupt(r))
  {
    var h, w := Interrupt(r), Window(r);
    var head := Programmed(r.device);
    assert Window(h) == w[1..] && |w| > 0 && head == [w[0]] by {
      InterruptWindow(r);
    }
    MoveHead(l.completed, w);
    assert Observe(l, r, Complete) ==
      Log(l.submitted, l.programmed + Programmed(h.device), l.completed + head);
  }

  lemma ObserveKeepsLogInv(l: Log, r: Ring, s: Step)
    requires SystemInv(r) && Enabled(r, s) && Timely(r, s) && LogInv(l, r)
    ensures LogInv(Observe(l, r, s), Next(r, s))
  {
    match s
    case Request(count) => RequestKeepsLogInv(l, r, count);
    case Wake => assert Window(Next(r, s)) == Window(r);
    case Relock => RelockKeepsLogInv(l, r);
    case Complete => CompleteKeepsLogInv(l, r);
  }

  // ----------------------------------------------------------------- whole runs

  predicate Initial(r: Ring) {
    Ok(r) && r.fill == 0 && r.drain == 0 && r.device == Idle && r.submitter == Outside
    && forall x :: x in r.slots ==> x == Slot(false, 0)
  }

  ghost predicate Run(rs: seq<Ring>, ss: seq<Step>) {
    && |rs| == |ss| + 1 && Initial(rs[0])
    && forall k :: 0 <= k < |ss| ==> Enabled(rs[k], ss[k]) && rs[k + 1] == Next(rs[k], ss[k])
  }

  ghost predicate TimelyRun(rs: seq<Ring>, ss: seq<Step>) {
    Run(rs, ss) && forall k :: 0 <= k < |ss| ==> Timely(rs[k], ss[k])
  }

  ghost function LogOf(rs: seq<Ring>, ss: seq<Step>, k: nat): Log
    requires Run(rs, ss) && k <= |ss|
  {
    if k == 0 then Log([], [], []) else Observe(LogOf(rs, ss, k - 1), rs[k - 1], ss[k - 1])
  }

  lemma {:induction false} RunInvariant(rs: seq<Ring>, ss: seq<Step>, k: nat)
    requires TimelyRun(rs, ss) && k <= |ss|
    ensures SystemInv(rs[k]) && LogInv(LogOf(rs, ss, k), rs[k])
  {
    if k == 0 {
      assert forall j :: 0 <= j < |rs[0].slots| ==> rs[0].slots[j] in rs[0].slots;
    } else {
      RunInvariant(rs, ss, k - 1);
      StepKeepsSystemInv(rs[k - 1], ss[k - 1]);
      ObserveKeepsLogInv(LogOf(rs, ss, k - 1), rs[k - 1], ss[k - 1]);
    }
  }

  /** For any ring size and any timely run: the full flags mark the window from
      drain to fill, the device holds slot drain iff the window is not empty, and
      the buffer handed back is free iff the ring is not full. */
  lemma RingInvariantHolds(rs: seq<Ring>, ss: seq<Step>, k: nat)
    requires TimelyRun(rs, ss) && k <= |ss|
    ensures var r := rs[k];
      && Ok(r)
      && (forall j :: 0 <= j < |r.slots| ==> (r.slots[j].full <==> Offset(r, j) < Len(r)))
      && (r.device == if Len(r) == 0 then Idle else Busy(r.drain, r.slots[r.drain].count))
      && (!r.slots[r.fill].full <==> Len(r) < |r.slots|)
  {
    RunInvariant(rs, ss, k);
    HandedBackBufferIsFree(rs[k]);
  }

  lemma LogMeaning(l: Log, r: Ring)
    requires RingInv(r) && LogInv(l, r)
    ensures l.programmed <= l.submitted && l.completed <= l.programmed
  {
    if r.device.Busy? {
      InterruptWindow(r);
      MoveHead(l.completed, Window(r));
      assert l.submitted == l.programmed + Window(r)[1..];
    } else {
      assert l.programmed == l.completed;
    }
  }

  /** The ring refines a plain queue: what the device was programmed with is a
      prefix of the submissions in order, and the submissions are the completions
      followed by the window. */
  lemma RingIsFifo(rs: seq<Ring>, ss: seq<Step>, k: nat)
    requires TimelyRun(rs, ss) && k <= |ss|
    ensures var l := LogOf(rs, ss, k);
      && l.programmed <= l.submitted
      && l.completed <= l.programmed
      && Ok(rs[k]) && l.submitted == l.completed + Window(rs[k])
  {
    RunInvariant(rs, ss, k);
    LogMeaning(LogOf(rs, ss, k), rs[k]);
  }

  // ------------------------------------------------------------------- the race

  /** The invariant holds throughout a run exactly if the run is timely. */
  lemma InvariantIffTimely(rs: seq<Ring>, ss: seq<Step>)
    requires Run(rs, ss)
    ensures (forall k :: 0 <= k < |rs| ==> SystemInv(rs[k])) <==> TimelyRun(rs, ss)
  {
    if TimelyRun(rs, ss) {
      forall k | 0 <= k < |rs|
        ensures SystemInv(rs[k])
      {
        RunInvariant(rs, ss, k);
      }
    } else {
      var k :| 0 <= k < |ss| && !Timely(rs[k], ss[k]);
      if SystemInv(rs[k]) {
        ResumeKeepsIffTimely(rs[k]);
        assert !SystemInv(rs[k + 1]);
      }
    }
  }

  /** A ring that holds transfers while the device is idle. */
  ghost predicate Stalled(r: Ring) {
    && FlagsInv(r) && r.device == Idle && Len(r) > 0
    && !r.submitter.Woken?
    && (r.submitter.Waiting? ==> Len(r) == |r.slots|)
  }

  /** A woken submitter that finds the ring empty stalls it. */
  lemma LateResumeStalls(r: Ring)
    requires SystemInv(r) && r.submitter.Woken? && Len(r) == 0
    ensures Stalled(Resume(r))
  {
    EnqueueWindow(r, r.submitter.count);
  }

  lemma StalledRequest(r: Ring, count: nat)
    requires Stalled(r) && r.submitter == Outside
    ensures Stalled(Submit(r, count))
  {
    if count != 0 && Len(r) < |r.slots| {
      EnqueueWindow(r, count);
    }
  }

  /** No step but a request is enabled at all. */
  lemma StalledStaysStalled(r: Ring, s: Step)
    requires Stalled(r) && Enabled(r, s)
    ensures Stalled(Next(r, s))
  {
    match s
    case Request(count) => StalledRequest(r, count);
    case Wake => assert false;
    case Relock => assert false;
    case Complete => assert false;
  }

  lemma StalledStep(rs: seq<Ring>, ss: seq<Step>, m: nat)
    requires Run(rs, ss) && m < |ss| && Stalled(rs[m])
    ensures Stalled(rs[m + 1])
  {
    StalledStaysStalled(rs[m], ss[m]);
  }

  /** A stalled ring never recovers: through any further steps the device stays
      idle, so nothing that is queued is ever transferred. */
  lemma {:induction false} StallIsPermanent(rs: seq<Ring>, ss: seq<Step>, k: nat, m: nat)
    requires Run(rs, ss) && k <= m <= |ss| && Stalled(rs[k])
    ensures Stalled(rs[m]) && rs[m].device == Idle
  {
    if k < m {
      StallIsPermanent(rs, ss, k, m - 1);
      StalledStep(rs, ss, m - 1);
    }
  }

  lemma SoundOrStalledStep(r: Ring, s: Step)
    requires SystemInv(r) && Enabled(r, s)
    ensures SystemInv(Next(r, s)) || Stalled(Next(r, s))
  {
    if Timely(r, s) {
      StepKeepsSystemInv(r, s);
    } else {
      LateResumeStalls(r);
    }
  }

  lemma InitialIsSound(r: Ring)
    requires Initial(r)
    ensures SystemInv(r)
  {
    assert forall j :: 0 <= j < |r.slots| ==> r.slots[j] in r.slots;
  }

  /** There is nothing else: in every state of every run, timely or not, the ring
      meets its invariant or is stalled, and never both. */
  lemma {:induction false} SoundOrStalled(rs: seq<Ring>, ss: seq<Step>, k: nat)
    requires Run(rs, ss) && k <= |ss|
    ensures SystemInv(rs[k]) <==> !Stalled(rs[k])
  {
    if k == 0 {
      InitialIsSound(rs[0]);
    } else {
      SoundOrStalled(rs, ss, k - 1);
      if Stalled(rs[k - 1]) {
        StalledStep(rs, ss, k - 1);
      } else {
        SoundOrStalledStep(rs[k - 1], ss[k - 1]);
      }
    }
  }

  /** Where the graphics-off loop hangs: in a stalled ring slot drain stays full
      through any further steps, so spinning on that slot never ends. */
  lemma {:induction false} StalledSlotStaysFull(rs: seq<Ring>, ss: seq<Step>, k: nat, m: nat)
    requires Run(rs, ss) && k <= m <= |ss| && Stalled(rs[k])
    ensures Ok(rs[k]) && Stalled(rs[m]) && rs[m].drain == rs[k].drain && |rs[m].slots| == |rs[k].slots|
    ensures rs[k].slots[rs[k].drain].full && rs[m].slots[rs[k].drain].full
  {
    if k == m {
      assert Offset(rs[k], rs[k].drain) == 0;
    } else {
      StalledSlotStaysFull(rs, ss, k, m - 1);
      StalledKeepsSlot(rs, ss, m - 1);
    }
  }

  lemma StalledKeepsSlot(rs: seq<Ring>, ss: seq<Step>, m: nat)
    requires Run(rs, ss) && m < |ss| && Stalled(rs[m])
    ensures Stalled(rs[m + 1]) && rs[m + 1].drain == rs[m].drain && |rs[m + 1].slots| == |rs[m].slots|
    ensures rs[m + 1].slots[rs[m].drain].full
  {
    StalledStep(rs, ss, m);
    assert ss[m].Request?;
    assert Offset(rs[m], rs[m].drain) == 0;
  }

  // ------------------------------------------------------- reaching the race

  /** A timely run that ends in `last`. */
  ghost predicate Reaches(rs: seq<Ring>, ss: seq<Step>, n: nat, last: Ring) {
    TimelyRun(rs, ss) && |rs[0].slots| == n && rs[|ss|] == last && SystemInv(last) && |last.slots| == n
  }

  lemma Extend(rs: seq<Ring>, ss: seq<Step>, n: nat, r: Ring, s: Step) returns (rs2: seq<Ring>, ss2: seq<Step>)
    requires Reaches(rs, ss, n, r) && Enabled(r, s) && Timely(r, s)
    ensures Reaches(rs2, ss2, n, Next(r, s))
  {
    rs2, ss2 := rs + [Next(r, s)], ss + [s];
    StepKeepsSystemInv(r, s);
    assert forall k :: 0 <= k < |ss| ==> rs2[k] == rs[k] && ss2[k] == ss[k];
    SlotsStay(r, s);
  }

  lemma SlotsStay(r: Ring, s: Step)
    requires Enabled(r, s)
    ensures |Next(r, s).slots| == |r.slots|
  {
  }

  /** Requests fill an idle ring up to any length. */
  lemma {:induction false} FillRing(n: nat, count: nat, len: nat) returns (rs: seq<Ring>, ss: seq<Step>, r: Ring)
    requires n >= 2 && count > 0 && len <= n
    ensures Reaches(rs, ss, n, r) && Len(r) == len && r.submitter == Outside
  {
    if len == 0 {
      r := Ring(seq(n, _ => Slot(false, 0)), 0, 0, Idle, Outside);
      rs, ss := [r], [];
    } else {
      var rs1, ss1, r1 := FillRing(n, count, len - 1);
      rs, ss := Extend(rs1, ss1, n, r1, Request(count));
      r := Next(r1, Request(count));
      EnqueueWindow(r1, count);
    }
  }

  /** Completions empty a ring while the submitter is woken. */
  lemma {:induction false} EmptyRing(rs: seq<Ring>, ss: seq<Step>, n: nat, r: Ring)
    returns (rs2: seq<Ring>, ss2: seq<Step>, r2: Ring)
    requires Reaches(rs, ss, n, r) && r.submitter.Woken?
    ensures Reaches(rs2, ss2, n, r2) && Len(r2) == 0 && r2.submitter == r.submitter
    decreases Len(r)
  {
    if Len(r) == 0 {
      rs2, ss2, r2 := rs, ss, r;
    } else {
      var rs1, ss1 := Extend(rs, ss, n, r, Complete);
      InterruptShape(r);
      rs2, ss2, r2 := EmptyRing(rs1, ss1, n, Interrupt(r));
    }
  }

  /** A full ring, a submitter that blocks on it, and a completion that wakes it. */
  lemma BlockAndWake(n: nat, count: nat) returns (rs: seq<Ring>, ss: seq<Step>, r: Ring)
    requires n >= 2 && count > 0
    ensures Reaches(rs, ss, n, r) && r.submitter == Woken(count)
  {
    var rs1, ss1, r1 := FillRing(n, count, n);
    var rs2, ss2 := Extend(rs1, ss1, n, r1, Request(count));
    var r2 := r1.(submitter := Waiting(count));
    FullRingBlocks(r1, count);
    InterruptShape(r2);
    var rs3, ss3 := Extend(rs2, ss2, n, r2, Complete);
    rs, ss := Extend(rs3, ss3, n, Interrupt(r2), Wake);
    r := Next(Interrupt(r2), Wake);
  }

  lemma FullRingBlocks(r: Ring, count: nat)
    requires RingInv(r) && Len(r) == |r.slots| && count > 0
    ensures Submit(r, count) == r.(submitter := Waiting(count))
    ensures RingInv(r.(submitter := Waiting(count))) && Interrupt(r).fill != Interrupt(r).drain
  {
    InterruptShape(r);
  }

  /** The race is reachable for every ring size: fill the ring, block on it, and
      let the ring run empty between the wake-up and the re-lock. */
  lemma RaceIsReachable(n: nat, count: nat) returns (rs: seq<Ring>, ss: seq<Step>)
    requires n >= 2 && count > 0
    ensures Run(rs, ss) && |rs[0].slots| == n && Stalled(rs[|ss|]) && !TimelyRun(rs, ss)
  {
    var rs1, ss1, r1 := BlockAndWake(n, count);
    var rs2, ss2, r2 := EmptyRing(rs1, ss1, n, r1);
    rs, ss := rs2 + [Resume(r2)], ss2 + [Relock];
    LateResumeStalls(r2);
    assert forall k :: 0 <= k < |ss2| ==> rs[k] == rs2[k] && ss[k] == ss2[k];
    assert !Timely(rs[|ss2|], ss[|ss2|]);
  }

  // ---------------------------------------------------------- the ring, in place

  class Kyouko {
    var slots: array<Slot>
    var fill: nat
    var drain: nat
    var device: Device
    ghost var submitter: Submitter

    ghost function State(): Ring
      reads this, slots
    {
      Ring(slots[..], fill, drain, device, submitter)
    }

    /** BIND_DMA: every slot empty, fill and drain at 0. */
    constructor (n: nat)
      requires n >= 2
      ensures Initial(State()) && slots.Length == n && fresh(slots)
    {
      slots := new Slot[n](_ => Slot(false, 0));
      fill, drain, device, submitter := 0, 0, Idle, Outside;
    }

    /** dma_interrupt; `flushed` is the buffer-flushed bit of the status register. */
    method DmaInterrupt(flushed: bool) returns (handled: bool)
      requires Ok(State())
      modifies this`drain, this`device, slots
      ensures handled == flushed
      ensures State() == if flushed then Interrupt(old(State())) else old(State())
    {
      if !flushed {
        return false;
      }
      device := Idle;
      var n := slots.Length;
      SuccIsModulo(drain, n);
      if fill == drain {
        if slots[fill].full {
          slots[drain] := slots[drain].(full := false);
          drain := (drain + 1) % n;
          device := Busy(drain, slots[drain].count);
        }
      } else {
        slots[drain] := slots[drain].(full := false);
        drain := (drain + 1) % n;
        if fill != drain {
          device := Busy(drain, slots[drain].count);
        }
      }
      handled := true;
    }

    /** initiateTransfer; returns true where the caller goes to sleep. */
    method InitiateTransfer(numBytes: nat) returns (suspended: bool)
      requires Ok(State())
      modifies this, slots
      ensures slots == old(slots)
      ensures State() == Submit(old(State()), numBytes)
      ensures old(SystemInv(State()) && submitter == Outside) ==>
                && SystemInv(State())
                && Window(State()) == old(Window(State()))
                     + if numBytes == 0 || suspended then [] else [Transfer(old(fill), numBytes)]
      ensures suspended <==> numBytes != 0 && fill == drain && old(slots[fill]).full && old(fill == drain)
    {
      suspended := false;
      ghost var before := State();
      if numBytes == 0 {
        return;
      }
      if SystemInv(before) && before.submitter == Outside {
        SubmitWindow(before, numBytes);
      }
      SuccIsModulo(fill, slots.Length);
      if fill == drain {
        if slots[fill].full {
          submitter := Waiting(numBytes);
          suspended := true;
        } else {
          slots[fill] := Slot(true, numBytes);
          device := Busy(fill, numBytes);
          fill := (fill + 1) % slots.Length;
        }
      } else {
        slots[fill] := Slot(true, numBytes);
        fill := (fill + 1) % slots.Length;
      }
    }

    /** initiateTransfer after wait_event_interruptible has returned. */
    method ResumeTransfer(numBytes: nat)
      requires Ok(State()) && submitter == Woken(numBytes)
      modifies this, slots
      ensures slots == old(slots)
      ensures State() == Resume(old(State()))
      ensures old(SystemInv(State())) ==> (SystemInv(State()) <==> old(Len(State())) > 0)
    {
      SuccIsModulo(fill, slots.Length);
      slots[fill] := Slot(true, numBytes);
      fill := (fill + 1) % slots.Length;
      submitter := Outside;
    }

    /** The graphics-off loop: spin on each slot in index order while completion
        interrupts come in, at any moment, in drain order. */
    method GraphicsOff() returns (interrupts: nat)
      requires RingInv(State()) && submitter == Outside
      modifies this`drain, this`device, slots
      ensures forall j :: 0 <= j < slots.Length ==> !slots[j].full
      ensures fill == drain && device == Idle
      ensures interrupts == Len(old(State()))
    {
      interrupts := 0;
      var i := 0;
      while i < slots.Length
        invariant 0 <= i <= slots.Length && Draining(i)
        invariant submitter == Outside && interrupts + Len(State()) == Len(old(State()))
      {
        var n := Spin(i);
        interrupts := interrupts + n;
        i := i + 1;
        n := Meanwhile(i);
        interrupts := interrupts + n;
      }
      assert Offset(State(), drain) == 0;
      assert !slots[drain].full;
    }

    /** The empty loop on slot i, during which interrupts come in. */
    method Spin(i: nat) returns (n: nat)
      requires Draining(i) && i < slots.Length && submitter == Outside
      modifies this`drain, this`device, slots
      ensures Draining(i) && !slots[i].full && n + Len(State()) == Len(old(State()))
    {
      n := 0;
      while slots[i].full
        invariant Draining(i) && n + Len(State()) == Len(old(State()))
        decreases Len(State())
      {
        OneInterrupt(i);
        n := n + 1;
      }
    }

    /** Any number of interrupts before the next slot is looked at. */
    method Meanwhile(i: nat) returns (n: nat)
      requires Draining(i) && submitter == Outside
      modifies this`drain, this`device, slots
      ensures Draining(i) && n + Len(State()) == Len(old(State()))
    {
      n := 0;
      while *
        invariant Draining(i) && n + Len(State()) == Len(old(State()))
        decreases Len(State())
      {
        if device == Idle {
          break;
        }
        OneInterrupt(i);
        n := n + 1;
      }
    }

    /** The loop has passed the slots below i, and they are empty. */
    ghost predicate Draining(i: nat)
      reads this, slots
    {
      RingInv(State()) && i <= slots.Length && forall j :: 0 <= j < i ==> !slots[j].full
    }

    method OneInterrupt(i: nat)
      requires Draining(i) && device.Busy?
      modifies this`drain, this`device, slots
      ensures Draining(i) && Len(State()) == old(Len(State())) - 1
    {
      InterruptWindow(State());
      var handled := DmaInterrupt(true);
    }
  }
}
