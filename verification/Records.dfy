/** The life of sigqueue records and their charge to one user: over any number
    of queues, with POSIX-timer preallocation and the RLIMIT_SIGPENDING limit. */
module Records {
  import opened Signals
  import opened SigQueue

  // ------------------------------------------------------- counting records

  function Sum(list: seq<Rec>, f: Rec -> nat): nat {
    if list == [] then 0 else Sum(list[..|list| - 1], f) + f(list[|list| - 1])
  }

  function Total(queues: seq<Pending>, f: Rec -> nat): nat {
    if queues == [] then 0 else Total(queues[..|queues| - 1], f) + Sum(queues[|queues| - 1].list, f)
  }

  function HasId(id: nat): Rec -> nat {
    (r: Rec) => if r.id == id then 1 else 0
  }

  /** Records whose object is one of `over`. */
  function IsOver(over: set<nat>): Rec -> nat {
    (r: Rec) => if r.id in over then 1 else 0
  }

  function OverFor(over: set<nat>, s: Signo): Rec -> nat {
    (r: Rec) => if r.id in over && r.info.signo == s then 1 else 0
  }

  lemma {:induction false} SumConcat(a: seq<Rec>, b: seq<Rec>, f: Rec -> nat)
    ensures Sum(a + b, f) == Sum(a, f) + Sum(b, f)
  {
    if b == [] {
      assert a + b == a;
    } else {
      assert (a + b)[..|a + b| - 1] == a + b[..|b| - 1];
      SumConcat(a, b[..|b| - 1], f);
    }
  }

  lemma SumOne(r: Rec, f: Rec -> nat)
    ensures Sum([r], f) == f(r)
  {
    assert [r][..0] == [];
  }

  lemma {:induction false} SumZero(list: seq<Rec>, f: Rec -> nat)
    requires forall r :: r in list ==> f(r) == 0
    ensures Sum(list, f) == 0
  {
    if list != [] {
      SumZero(list[..|list| - 1], f);
    }
  }

  lemma {:induction false} SumSame(list: seq<Rec>, f: Rec -> nat, g: Rec -> nat)
    requires forall r :: r in list ==> f(r) == g(r)
    ensures Sum(list, f) == Sum(list, g)
  {
    if list != [] {
      SumSame(list[..|list| - 1], f, g);
    }
  }

  lemma {:induction false} TotalSame(queues: seq<Pending>, f: Rec -> nat, g: Rec -> nat)
    requires forall q :: 0 <= q < |queues| ==> forall r :: r in queues[q].list ==> f(r) == g(r)
    ensures Total(queues, f) == Total(queues, g)
  {
    if queues != [] {
      TotalSame(queues[..|queues| - 1], f, g);
      SumSame(queues[|queues| - 1].list, f, g);
    }
  }

  lemma {:induction false} SumHas(list: seq<Rec>, r: Rec)
    requires r in list
    ensures Sum(list, HasId(r.id)) >= 1
  {
    var front := list[..|list| - 1];
    if r != list[|list| - 1] {
      assert r in front;
      SumHas(front, r);
    }
  }

  lemma {:induction false} TotalUpdate(queues: seq<Pending>, q: nat, p: Pending, f: Rec -> nat)
    requires q < |queues|
    ensures Total(queues[q := p], f) + Sum(queues[q].list, f) == Total(queues, f) + Sum(p.list, f)
  {
    var n := |queues| - 1;
    if q == n {
      assert queues[q := p][..n] == queues[..n];
    } else {
      assert queues[q := p][..n] == queues[..n][q := p];
      TotalUpdate(queues[..n], q, p, f);
    }
  }

  lemma {:induction false} TotalHas(queues: seq<Pending>, q: nat, f: Rec -> nat)
    requires q < |queues|
    ensures Total(queues, f) >= Sum(queues[q].list, f)
  {
    if q < |queues| - 1 {
      TotalHas(queues[..|queues| - 1], q, f);
    }
  }

  /** `list` is split into what stays and what is unlinked. */
  ghost predicate Splits(list: seq<Rec>, kept: seq<Rec>, removed: seq<Rec>) {
    && (forall f: Rec -> nat :: Sum(list, f) == Sum(kept, f) + Sum(removed, f))
    && (forall r :: r in kept || r in removed ==> r in list)
  }

  lemma {:induction false} KeepSums(list: seq<Rec>, mask: set<Signo>, f: Rec -> nat)
    ensures Sum(list, f) == Sum(Keep(list, ALL - mask), f) + Sum(Keep(list, mask), f)
  {
    if list != [] {
      var front, last := list[..|list| - 1], list[|list| - 1];
      KeepSums(front, mask, f);
      SumConcat(Keep(front, mask), [last], f);
      SumConcat(Keep(front, ALL - mask), [last], f);
      SumOne(last, f);
    }
  }

  lemma {:induction false} TimerSums(list: seq<Rec>, f: Rec -> nat)
    ensures Sum(list, f) == Sum(DropTimers(list), f) + Sum(Timers(list), f)
  {
    if list != [] {
      var front, last := list[..|list| - 1], list[|list| - 1];
      TimerSums(front, f);
      SumConcat(Timers(front), [last], f);
      SumConcat(DropTimers(front), [last], f);
      SumOne(last, f);
    }
  }

  lemma KeepSplits(list: seq<Rec>, mask: set<Signo>)
    ensures Splits(list, Keep(list, ALL - mask), Keep(list, mask))
  {
    forall f: Rec -> nat
      ensures Sum(list, f) == Sum(Keep(list, ALL - mask), f) + Sum(Keep(list, mask), f)
    {
      KeepSums(list, mask, f);
    }
    KeepMembers(list, mask);
    KeepMembers(list, ALL - mask);
  }

  lemma TimersSplit(list: seq<Rec>)
    ensures Splits(list, DropTimers(list), Timers(list))
  {
    forall f: Rec -> nat
      ensures Sum(list, f) == Sum(DropTimers(list), f) + Sum(Timers(list), f)
    {
      TimerSums(list, f);
    }
    TimerMembers(list);
  }

  lemma SumThree(a: seq<Rec>, x: Rec, b: seq<Rec>, f: Rec -> nat)
    ensures Sum(a + [x] + b, f) == Sum(a + b, f) + f(x)
  {
    SumConcat(a + [x], b, f);
    SumConcat(a, [x], f);
    SumConcat(a, b, f);
    SumOne(x, f);
  }

  lemma TakenApart(list: seq<Rec>, k: nat)
    requires k < |list|
    ensures list == list[..k] + [list[k]] + list[k + 1..]
  {
  }

  lemma SumWithout(list: seq<Rec>, k: nat, f: Rec -> nat)
    requires k < |list|
    ensures Sum(list, f) == Sum(list[..k] + list[k + 1..], f) + f(list[k])
  {
    TakenApart(list, k);
    SumThree(list[..k], list[k], list[k + 1..], f);
  }

  lemma CollectSplits(p: Pending, sig: Signo)
    ensures Splits(p.list, Collect(p, sig).queue.list, Collect(p, sig).removed)
  {
    var c, k := Collect(p, sig), FirstOf(p.list, sig);
    forall f: Rec -> nat
      ensures Sum(p.list, f) == Sum(c.queue.list, f) + Sum(c.removed, f)
    {
      if k < |p.list| {
        SumWithout(p.list, k, f);
        SumOne(p.list[k], f);
      }
    }
  }

  lemma NothingSplits(list: seq<Rec>)
    ensures Splits(list, list, []) && Splits(list, [], list)
  {
  }

  // ------------------------------------------------------------------ the pool

  /** All queues charged to one user: the live sigqueue objects, those still
      marked SIGQUEUE_PREALLOC, those that were allocated with override_rlimit,
      the user's counter, the charges made for allocations that have not been
      decided or whose charge has not been given back, and the objects freed so far. */
  datatype Pool = Pool(queues: seq<Pending>, live: set<nat>, prealloc: set<nat>, over: set<nat>,
                       sigpending: int, inFlight: nat, freed: seq<nat>)

  function SetQueue(p: Pool, q: nat, x: Pending): Pool
    requires q < |p.queues|
  {
    p.(queues := p.queues[q := x])
  }

  /** __sigqueue_free. */
  function FreeRecord(p: Pool, id: nat): Pool {
    if id in p.prealloc then p
    else p.(live := p.live - {id}, sigpending := p.sigpending - 1, freed := p.freed + [id])
  }

  function FreeAll(p: Pool, removed: seq<Rec>): Pool
    decreases |removed|
  {
    if removed == [] then p else FreeAll(FreeRecord(p, removed[0].id), removed[1..])
  }

  /** __sigqueue_alloc begins: the counter goes up before the limit is looked at,
      and no lock keeps other allocations for the user out until it is decided. */
  function Charge(p: Pool): Pool {
    p.(sigpending := p.sigpending + 1, inFlight := p.inFlight + 1)
  }

  /** A failed allocation gives its charge back. */
  function Refund(p: Pool): Pool
    requires p.inFlight > 0
  {
    p.(sigpending := p.sigpending - 1, inFlight := p.inFlight - 1)
  }

  /** The decision of __sigqueue_alloc, on a counter that includes its own charge
      and any others in flight. */
  predicate AllocOk(p: Pool, limit: nat, override: bool, memory: bool) {
    p.inFlight > 0 && (override || p.sigpending <= limit) && memory
  }

  /** __sigqueue_alloc succeeds: the charge is now the object's. */
  function Allocate(p: Pool, id: nat, override: bool): Pool
    requires p.inFlight > 0
  {
    p.(live := p.live + {id}, inFlight := p.inFlight - 1, over := if override then p.over + {id} else p.over)
  }

  /** override_rlimit as __send_signal computes it. */
  predicate Overrides(sig: Signo, src: Source) {
    sig < SIGRTMIN && (!src.Given? || src.code >= 0)
  }

  predicate OnList(p: Pool, id: nat) {
    Total(p.queues, HasId(id)) > 0
  }

  datatype Event =
    | ChargeUser
    | RefundUser
    | SendSignal(q: nat, sig: Signo, src: Source, id: nat, memory: bool)
    | AllocTimer(id: nat, memory: bool)
    | SendTimer(q: nat, r: Rec)
    | FreeTimer(id: nat)
    | TakeNext(q: nat, mask: set<Signo>)
    | RemoveShort(q: nat, mask: set<Signo>)
    | RemoveFull(q: nat, mask: set<Signo>)
    | FlushTimerSignals(q: nat)
    | FlushQueue(q: nat)
    | AddBits(q: nat, bits: set<Signo>)

  predicate Fresh(p: Pool, id: nat) {
    id !in p.live && id !in p.freed
  }

  predicate Enabled(p: Pool, e: Event) {
    match e
    case ChargeUser => true
    case RefundUser => p.inFlight > 0
    case SendSignal(q, _, _, id, _) => q < |p.queues| && Fresh(p, id)
    case AllocTimer(id, _) => Fresh(p, id)
    case SendTimer(q, r) => q < |p.queues| && r.id in p.prealloc
    case FreeTimer(id) => id in p.prealloc
    case TakeNext(q, _) => q < |p.queues|
    case RemoveShort(q, mask) => q < |p.queues| && mask <= LEGACY
    case RemoveFull(q, _) => q < |p.queues|
    case FlushTimerSignals(q) => q < |p.queues|
    case FlushQueue(q) => q < |p.queues|
    case AddBits(q, _) => q < |p.queues|
  }

  function Send(p: Pool, limit: nat, q: nat, sig: Signo, src: Source, id: nat, memory: bool): Pool
    requires q < |p.queues|
  {
    var queue := p.queues[q];
    var ok := !LegacyQueued(queue, sig) && !src.Forced? && AllocOk(p, limit, Overrides(sig, src), memory);
    var r := SendTo(queue, sig, src, if ok then Slot(id) else NoSlot);
    var p1 := if ok then Allocate(p, id, Overrides(sig, src)) else p;
    if r.Accepted? then SetQueue(p1, q, r.queue) else p1
  }

  function RemovedShort(p: Pending, mask: set<Signo>): seq<Rec> {
    if p.signal * mask == {} then [] else Keep(p.list, mask * LEGACY)
  }

  function RemovedFull(p: Pending, mask: set<Signo>): seq<Rec> {
    if p.signal * mask == {} then [] else Keep(p.list, mask)
  }

  /** A queue is replaced by `kept` and the unlinked records are freed. */
  function Unlink(p: Pool, q: nat, kept: Pending, removed: seq<Rec>): Pool
    requires q < |p.queues|
  {
    FreeAll(SetQueue(p, q, kept), removed)
  }

  /** sigqueue_free: a queued object only loses its mark and is freed when it is
      taken off its list. */
  function ReleaseTimer(p: Pool, id: nat): Pool {
    var p1 := p.(prealloc := p.prealloc - {id});
    if OnList(p, id) then p1 else FreeRecord(p1, id)
  }

  function Next(p: Pool, limit: nat, e: Event): Pool
    requires Enabled(p, e)
  {
    match e
    case ChargeUser => Charge(p)
    case RefundUser => Refund(p)
    case SendSignal(q, sig, src, id, memory) => Send(p, limit, q, sig, src, id, memory)
    case AllocTimer(id, memory) =>
      if AllocOk(p, limit, false, memory) then Allocate(p, id, false).(prealloc := p.prealloc + {id}) else p
    case SendTimer(q, r) => if OnList(p, r.id) then p else SetQueue(p, q, Append(p.queues[q], r))
    case FreeTimer(id) => ReleaseTimer(p, id)
    case TakeNext(q, mask) =>
      var d := Dequeue(p.queues[q], mask);
      Unlink(p, q, d.after.queue, d.after.removed)
    case RemoveShort(q, mask) => Unlink(p, q, RmFromQueue(p.queues[q], mask), RemovedShort(p.queues[q], mask))
    case RemoveFull(q, mask) => Unlink(p, q, RmFromQueueFull(p.queues[q], mask), RemovedFull(p.queues[q], mask))
    case FlushTimerSignals(q) => Unlink(p, q, FlushTimers(p.queues[q]), Timers(p.queues[q].list))
    case FlushQueue(q) => Unlink(p, q, EMPTY, p.queues[q].list)
    case AddBits(q, bits) => SetQueue(p, q, p.queues[q].(signal := p.queues[q].signal + bits))
  }

  // -------------------------------------------------------------- the invariant

  /** How often an object is linked, counting the records being freed. */
  ghost function Links(p: Pool, limbo: seq<Rec>, id: nat): nat {
    Total(p.queues, HasId(id)) + Sum(limbo, HasId(id))
  }

  ghost predicate ListsInv(p: Pool, limbo: seq<Rec>) {
    && (forall id: nat :: Links(p, limbo, id) <= 1)
    && (forall id: nat :: Links(p, limbo, id) == 1 ==> id in p.live)
    && (forall id: nat :: id in p.live ==> id in p.prealloc || Links(p, limbo, id) == 1)
    && p.prealloc <= p.live
  }

  ghost predicate ChargeInv(p: Pool) {
    && p.sigpending == |p.live| + p.inFlight
    && (forall id :: id in p.freed ==> id !in p.live)
    && (forall a, b :: 0 <= a < b < |p.freed| ==> p.freed[a] != p.freed[b])
  }

  /** Overriding objects are never timers', and no object is allocated twice. */
  ghost predicate OverInv(p: Pool) {
    p.over !! p.prealloc && forall id :: id in p.over ==> !Fresh(p, id)
  }

  /** At most one overriding record for each legacy signal, and no others. */
  ghost predicate QueueInv(x: Pending, over: set<nat>) {
    && Coherent(x)
    && (forall r :: r in x.list && r.id in over ==> r.info.signo < SIGRTMIN)
    && (forall s: Signo :: s < SIGRTMIN ==> Sum(x.list, OverFor(over, s)) <= 1)
  }

  ghost predicate QueuesInv(p: Pool) {
    forall q :: 0 <= q < |p.queues| ==> QueueInv(p.queues[q], p.over)
  }

  ghost predicate LimitInv(p: Pool, limbo: seq<Rec>, limit: nat) {
    |p.live| <= limit + Total(p.queues, IsOver(p.over)) + Sum(limbo, IsOver(p.over))
  }

  ghost predicate PoolInv(p: Pool, limbo: seq<Rec>, limit: nat) {
    ListsInv(p, limbo) && ChargeInv(p) && OverInv(p) && QueuesInv(p) && LimitInv(p, limbo, limit)
  }

  // ------------------------------------------------------------------ freeing

  lemma FreeOneLinks(p: Pool, r: Rec, rest: seq<Rec>)
    ensures forall id: nat :: Links(p, [r] + rest, id)
              == Links(FreeRecord(p, r.id), rest, id) + if r.id == id then 1 else 0
    ensures Sum([r] + rest, IsOver(p.over)) == Sum(rest, IsOver(p.over)) + if r.id in p.over then 1 else 0
  {
    forall id: nat
      ensures Links(p, [r] + rest, id) == Links(FreeRecord(p, r.id), rest, id) + if r.id == id then 1 else 0
    {
      SumConcat([r], rest, HasId(id));
      SumOne(r, HasId(id));
    }
    SumConcat([r], rest, IsOver(p.over));
    SumOne(r, IsOver(p.over));
  }

  /** Freeing makes no object look unused, and takes the mark off none. */
  ghost predicate NoReuse(p: Pool, h: Pool) {
    h.prealloc == p.prealloc && forall id: nat :: Fresh(p, id) ==> Fresh(h, id)
  }

  lemma FreeOneLists(p: Pool, r: Rec, rest: seq<Rec>)
    requires ListsInv(p, [r] + rest)
    ensures ListsInv(FreeRecord(p, r.id), rest) && r.id in p.live
  {
    FreeOneLinks(p, r, rest);
    assert Links(p, [r] + rest, r.id) == 1;
  }

  lemma FreeOneKeeps(p: Pool, r: Rec, rest: seq<Rec>, limit: nat)
    requires PoolInv(p, [r] + rest, limit)
    ensures PoolInv(FreeRecord(p, r.id), rest, limit) && NoReuse(p, FreeRecord(p, r.id))
  {
    FreeOneLists(p, r, rest);
    FreeOneLinks(p, r, rest);
  }

  lemma {:induction false} FreeAllKeeps(p: Pool, removed: seq<Rec>, limit: nat)
    requires PoolInv(p, removed, limit)
    ensures PoolInv(FreeAll(p, removed), [], limit) && NoReuse(p, FreeAll(p, removed))
    decreases |removed|
  {
    if removed != [] {
      assert removed == [removed[0]] + removed[1..];
      FreeOneKeeps(p, removed[0], removed[1..], limit);
      FreeAllKeeps(FreeRecord(p, removed[0].id), removed[1..], limit);
    }
  }

  /** Taking records off one queue: from the invariant without limbo to the one
      with the unlinked records in limbo, and on to their being freed. */
  lemma UnlinkKeeps(p: Pool, q: nat, kept: Pending, removed: seq<Rec>, limit: nat)
    requires PoolInv(p, [], limit) && q < |p.queues|
    requires Splits(p.queues[q].list, kept.list, removed) && Coherent(kept)
    ensures PoolInv(Unlink(p, q, kept, removed), [], limit) && NoReuse(p, Unlink(p, q, kept, removed))
  {
    var h := SetQueue(p, q, kept);
    var x := p.queues[q];
    assert QueueInv(x, p.over);
    forall id: nat
      ensures Links(h, removed, id) == Links(p, [], id)
    {
      TotalUpdate(p.queues, q, kept, HasId(id));
      assert Sum(x.list, HasId(id)) == Sum(kept.list, HasId(id)) + Sum(removed, HasId(id));
    }
    TotalUpdate(p.queues, q, kept, IsOver(p.over));
    assert Sum(x.list, IsOver(p.over)) == Sum(kept.list, IsOver(p.over)) + Sum(removed, IsOver(p.over));
    forall s: Signo | s < SIGRTMIN
      ensures Sum(kept.list, OverFor(p.over, s)) <= 1
    {
      assert Sum(x.list, OverFor(p.over, s)) == Sum(kept.list, OverFor(p.over, s)) + Sum(removed, OverFor(p.over, s));
    }
    assert QueueInv(kept, p.over);
    FreeAllKeeps(h, removed, limit);
  }

  // ------------------------------------------------------------------- sending

  lemma BitsKeep(p: Pool, q: nat, bits: set<Signo>, limit: nat)
    requires PoolInv(p, [], limit) && q < |p.queues|
    ensures PoolInv(SetQueue(p, q, p.queues[q].(signal := p.queues[q].signal + bits)), [], limit)
  {
    var x := p.queues[q].(signal := p.queues[q].signal + bits);
    var h := SetQueue(p, q, x);
    assert QueueInv(p.queues[q], p.over);
    assert QueueInv(x, p.over);
    TotalUpdate(p.queues, q, x, IsOver(p.over));
    forall id: nat
      ensures Links(h, [], id) == Links(p, [], id)
    {
      TotalUpdate(p.queues, q, x, HasId(id));
    }
  }

  lemma AppendSums(x: Pending, r: Rec, f: Rec -> nat)
    ensures Sum(Append(x, r).list, f) == Sum(x.list, f) + f(r)
  {
    SumConcat(x.list, [r], f);
    SumOne(r, f);
  }

  /** A queue that gains a record stays as it has to be. */
  lemma AppendQueueInv(x: Pending, r: Rec, over: set<nat>)
    requires QueueInv(x, over)
    requires r.id in over ==> r.info.signo < SIGRTMIN && r.info.signo !in x.signal
    ensures QueueInv(Append(x, r), over)
  {
    var y := Append(x, r);
    forall s: Signo | s < SIGRTMIN
      ensures Sum(y.list, OverFor(over, s)) <= 1
    {
      AppendSums(x, r, OverFor(over, s));
      if r.id in over && s == r.info.signo {
        SumZero(x.list, OverFor(over, s));
      }
    }
  }

  /** An object on no list may become an overriding one. */
  lemma QueueInvFrame(x: Pending, over: set<nat>, id: nat)
    requires QueueInv(x, over) && forall r :: r in x.list ==> r.id != id
    ensures QueueInv(x, over + {id})
  {
    forall s: Signo | s < SIGRTMIN
      ensures Sum(x.list, OverFor(over + {id}, s)) <= 1
    {
      SumSame(x.list, OverFor(over, s), OverFor(over + {id}, s));
    }
  }

  lemma NotListed(p: Pool, id: nat)
    requires Total(p.queues, HasId(id)) == 0
    ensures forall q :: 0 <= q < |p.queues| ==> forall r :: r in p.queues[q].list ==> r.id != id
  {
    forall q | 0 <= q < |p.queues|
      ensures forall r :: r in p.queues[q].list ==> r.id != id
    {
      TotalHas(p.queues, q, HasId(id));
      forall r | r in p.queues[q].list
        ensures r.id != id
      {
        SumHas(p.queues[q].list, r);
      }
    }
  }

  /** Allocating leaves the lists and the overriding records on them alone. */
  lemma AllocateKeeps(p: Pool, id: nat, override: bool)
    requires p.inFlight > 0 && Fresh(p, id) && Total(p.queues, HasId(id)) == 0 && QueuesInv(p)
    ensures var c := Allocate(p, id, override);
            QueuesInv(c) && Total(c.queues, IsOver(c.over)) == Total(p.queues, IsOver(p.over))
  {
    var c := Allocate(p, id, override);
    NotListed(p, id);
    TotalSame(p.queues, IsOver(p.over), IsOver(c.over));
    forall q | 0 <= q < |p.queues|
      ensures QueueInv(p.queues[q], c.over)
    {
      QueueInvFrame(p.queues[q], p.over, id);
    }
  }

  /** The object of the new record was on no list and is linked once now. */
  lemma AppendLinks(p: Pool, q: nat, r: Rec)
    requires q < |p.queues|
    ensures var h := SetQueue(p, q, Append(p.queues[q], r));
            && (forall id: nat :: Links(h, [], id) == Links(p, [], id) + if id == r.id then 1 else 0)
            && Total(h.queues, IsOver(p.over)) == Total(p.queues, IsOver(p.over)) + if r.id in p.over then 1 else 0
  {
    var y := Append(p.queues[q], r);
    var h := SetQueue(p, q, y);
    forall id: nat
      ensures Links(h, [], id) == Links(p, [], id) + if id == r.id then 1 else 0
    {
      TotalUpdate(p.queues, q, y, HasId(id));
      AppendSums(p.queues[q], r, HasId(id));
    }
    TotalUpdate(p.queues, q, y, IsOver(p.over));
    AppendSums(p.queues[q], r, IsOver(p.over));
  }

  /** An allocation that succeeds turns a charge in flight into an object. */
  lemma ChargeKeeps(p: Pool, id: nat, override: bool)
    requires ChargeInv(p) && Fresh(p, id) && p.inFlight > 0
    ensures ChargeInv(Allocate(p, id, override)) && |Allocate(p, id, override).live| == |p.live| + 1
  {
  }

  lemma FreshIsUnlinked(p: Pool, limit: nat, id: nat)
    requires PoolInv(p, [], limit) && Fresh(p, id)
    ensures Links(p, [], id) == 0 && Total(p.queues, HasId(id)) == 0 && id !in p.over
  {
  }

  /** One more object, linked once. */
  lemma ListsGrow(p: Pool, h: Pool, id: nat)
    requires ListsInv(p, []) && Links(p, [], id) == 0
    requires forall x: nat :: Links(h, [], x) == Links(p, [], x) + if x == id then 1 else 0
    requires h.live == p.live + {id} && h.prealloc == p.prealloc
    ensures ListsInv(h, [])
  {
  }

  lemma QueuesGrow(c: Pool, q: nat, r: Rec)
    requires QueuesInv(c) && q < |c.queues|
    requires r.id in c.over ==> r.info.signo < SIGRTMIN && r.info.signo !in c.queues[q].signal
    ensures QueuesInv(SetQueue(c, q, Append(c.queues[q], r)))
  {
    assert QueueInv(c.queues[q], c.over);
    AppendQueueInv(c.queues[q], r, c.over);
  }

  /** A freshly allocated record enters a queue. */
  lemma SendRecordKeeps(p: Pool, limit: nat, q: nat, r: Rec, override: bool)
    requires PoolInv(p, [], limit) && q < |p.queues| && Fresh(p, r.id) && p.inFlight > 0
    requires if override then r.info.signo < SIGRTMIN && r.info.signo !in p.queues[q].signal
             else p.sigpending <= limit
    ensures PoolInv(SetQueue(Allocate(p, r.id, override), q, Append(p.queues[q], r)), [], limit)
  {
    var c := Allocate(p, r.id, override);
    var h := SetQueue(c, q, Append(p.queues[q], r));
    FreshIsUnlinked(p, limit, r.id);
    ChargeKeeps(p, r.id, override);
    AllocateKeeps(p, r.id, override);
    AppendLinks(c, q, r);
    assert ListsInv(h, []) by {
      assert forall x: nat :: Links(c, [], x) == Links(p, [], x);
      ListsGrow(p, h, r.id);
    }
    QueuesGrow(c, q, r);
    SendKeepsLimit(p, c, h, limit, override);
  }

  lemma SendKeepsLimit(p: Pool, c: Pool, h: Pool, limit: nat, override: bool)
    requires LimitInv(p, [], limit) && (override || |p.live| + 1 <= limit)
    requires |h.live| == |p.live| + 1
    requires Total(c.queues, IsOver(c.over)) == Total(p.queues, IsOver(p.over))
    requires Total(h.queues, IsOver(h.over)) == Total(c.queues, IsOver(c.over)) + if override then 1 else 0
    ensures LimitInv(h, [], limit)
  {
  }

  lemma SendKeeps(p: Pool, limit: nat, q: nat, sig: Signo, src: Source, id: nat, memory: bool)
    requires PoolInv(p, [], limit) && q < |p.queues| && Fresh(p, id)
    ensures PoolInv(Send(p, limit, q, sig, src, id, memory), [], limit)
  {
    var queue := p.queues[q];
    var ok := !LegacyQueued(queue, sig) && !src.Forced? && AllocOk(p, limit, Overrides(sig, src), memory);
    if ok {
      SendRecordKeeps(p, limit, q, Rec(id, InfoFor(sig, src)), Overrides(sig, src));
    } else {
      BitsKeep(p, q, {sig}, limit);
    }
  }

  lemma SendTimerKeeps(p: Pool, limit: nat, q: nat, r: Rec)
    requires PoolInv(p, [], limit) && Enabled(p, SendTimer(q, r))
    ensures PoolInv(Next(p, limit, SendTimer(q, r)), [], limit)
  {
    if !OnList(p, r.id) {
      assert Links(p, [], r.id) == 0;
      AppendLinks(p, q, r);
      AppendQueueInv(p.queues[q], r, p.over);
    }
  }

  lemma AllocTimerKeeps(p: Pool, limit: nat, id: nat, memory: bool)
    requires PoolInv(p, [], limit) && Fresh(p, id)
    ensures PoolInv(Next(p, limit, AllocTimer(id, memory)), [], limit)
  {
    var h := Next(p, limit, AllocTimer(id, memory));
    if AllocOk(p, limit, false, memory) {
      assert Links(p, [], id) == 0;
      ChargeKeeps(p, id, false);
      AllocateKeeps(p, id, false);
      assert forall x: nat :: Links(h, [], x) == Links(p, [], x);
    }
  }

  lemma FreeTimerKeeps(p: Pool, limit: nat, id: nat)
    requires PoolInv(p, [], limit) && id in p.prealloc
    ensures PoolInv(ReleaseTimer(p, id), [], limit)
  {
    var h := ReleaseTimer(p, id);
    assert forall x: nat :: Links(h, [], x) == Links(p, [], x);
  }

  /** After sigqueue_free an object is live exactly while it is on a list. */
  lemma ReleaseMeaning(p: Pool, id: nat, limit: nat)
    requires PoolInv(p, [], limit) && id in p.prealloc
    ensures var h := ReleaseTimer(p, id);
            && PoolInv(h, [], limit) && id !in h.prealloc
            && (id in h.live <==> OnList(h, id)) && (id in h.freed <==> !OnList(h, id))
  {
    FreeTimerKeeps(p, limit, id);
    assert Links(p, [], id) == Total(p.queues, HasId(id));
  }

  /** Charging and giving back touch neither objects nor lists. */
  lemma CounterKeeps(p: Pool, limit: nat)
    requires PoolInv(p, [], limit)
    ensures PoolInv(Charge(p), [], limit)
    ensures p.inFlight > 0 ==> PoolInv(Refund(p), [], limit)
  {
    assert forall x: nat :: Links(Charge(p), [], x) == Links(p, [], x);
    if p.inFlight > 0 {
      assert forall x: nat :: Links(Refund(p), [], x) == Links(p, [], x);
    }
  }

  // -------------------------------------------------------------- who gets a record

  /** Which sends get a record.  One is wanted unless the signal is forced or is a
      legacy signal already pending.  With memory, a legacy signal from the kernel,
      without siginfo or with a code that is not negative gets it whatever the
      counter; any other gets it exactly if the counter is within the limit. */
  lemma RecordGranted(p: Pool, limit: nat, q: nat, sig: Signo, src: Source, id: nat, memory: bool)
    requires q < |p.queues| && Fresh(p, id)
    ensures var h, x := Send(p, limit, q, sig, src, id, memory), p.queues[q];
      var wanted := !src.Forced? && !(sig < SIGRTMIN && sig in x.signal);
      var exempt := sig < SIGRTMIN && (src.NoInfo? || src.Priv? || (src.Given? && src.code >= 0));
      var granted := wanted && p.inFlight > 0 && memory && (exempt || p.sigpending <= limit);
      && |h.queues| == |p.queues| && h.queues == p.queues[q := h.queues[q]]
      && h.queues[q].list == x.list + (if granted then [Rec(id, InfoFor(sig, src))] else [])
      && h.live == (if granted then p.live + {id} else p.live)
      && h.over == (if granted && exempt then p.over + {id} else p.over)
      && h.sigpending == p.sigpending && h.inFlight == p.inFlight - (if granted then 1 else 0)
      && h.prealloc == p.prealloc && h.freed == p.freed
      && (sig in h.queues[q].signal <==>
            sig in x.signal || granted || !(sig >= SIGRTMIN && src.Given? && src.code != SI_USER))
  {
    assert p.queues[q].list + [] == p.queues[q].list;
  }

  /** A timer gets its object exactly if there is memory and the counter is within
      the limit; there is no exemption. */
  lemma TimerGranted(p: Pool, limit: nat, id: nat, memory: bool)
    requires Fresh(p, id)
    ensures var h := Next(p, limit, AllocTimer(id, memory));
      if p.inFlight > 0 && memory && p.sigpending <= limit
      then h == p.(live := p.live + {id}, prealloc := p.prealloc + {id}, inFlight := p.inFlight - 1)
      else h == p
  {
    assert p.over + {} == p.over;
  }

  /** A timer's object goes to the tail of the queue unless it is on a list. */
  lemma TimerSent(p: Pool, limit: nat, q: nat, r: Rec)
    requires Enabled(p, SendTimer(q, r))
    ensures var h, x := Next(p, limit, SendTimer(q, r)), p.queues[q];
      if exists k :: 0 <= k < |p.queues| && exists y :: y in p.queues[k].list && y.id == r.id then h == p
      else h == p.(queues := p.queues[q := Pending(x.signal + {r.info.signo}, x.list + [r])])
  {
    TotalPositive(p.queues, r.id);
  }

  // ------------------------------------------------------------- whole runs

  lemma RemovalEvents(p: Pool, limit: nat, e: Event)
    requires PoolInv(p, [], limit) && Enabled(p, e)
    requires e.TakeNext? || e.RemoveShort? || e.RemoveFull? || e.FlushTimerSignals? || e.FlushQueue?
    ensures PoolInv(Next(p, limit, e), [], limit) && NoReuse(p, Next(p, limit, e))
  {
    var x := p.queues[e.q];
    assert QueueInv(x, p.over);
    NothingSplits(x.list);
    match e
    case TakeNext(q, mask) =>
      var d := Dequeue(x, mask);
      if d.sig != 0 {
        CollectMeaning(x, d.sig);
        CollectSplits(x, d.sig);
      }
      UnlinkKeeps(p, q, d.after.queue, d.after.removed, limit);
    case RemoveShort(q, mask) =>
      ShortRemovalCoherence(x, mask);
      KeepSplits(x.list, mask * LEGACY);
      FullRemovalIsDiscard(x, mask);
      UnlinkKeeps(p, q, RmFromQueue(x, mask), RemovedShort(x, mask), limit);
    case RemoveFull(q, mask) =>
      FullRemovalIsDiscard(x, mask);
      KeepSplits(x.list, mask);
      UnlinkKeeps(p, q, RmFromQueueFull(x, mask), RemovedFull(x, mask), limit);
    case FlushTimerSignals(q) =>
      FlushTimersMeaning(x);
      TimersSplit(x.list);
      UnlinkKeeps(p, q, FlushTimers(x), Timers(x.list), limit);
    case FlushQueue(q) => UnlinkKeeps(p, q, EMPTY, x.list, limit);
  }

  lemma StepKeepsPoolInv(p: Pool, limit: nat, e: Event)
    requires PoolInv(p, [], limit) && Enabled(p, e)
    ensures PoolInv(Next(p, limit, e), [], limit)
  {
    match e
    case ChargeUser => CounterKeeps(p, limit);
    case RefundUser => CounterKeeps(p, limit);
    case SendSignal(q, sig, src, id, memory) => SendKeeps(p, limit, q, sig, src, id, memory);
    case AllocTimer(id, memory) => AllocTimerKeeps(p, limit, id, memory);
    case SendTimer(q, r) => SendTimerKeeps(p, limit, q, r);
    case FreeTimer(id) => FreeTimerKeeps(p, limit, id);
    case AddBits(q, bits) => BitsKeep(p, q, bits, limit);
    case _ => RemovalEvents(p, limit, e);
  }

  ghost predicate Run(ps: seq<Pool>, es: seq<Event>, limit: nat) {
    && |ps| == |es| + 1
    && (forall q :: q in ps[0].queues ==> q == EMPTY)
    && ps[0] == Pool(ps[0].queues, {}, {}, {}, 0, 0, [])
    && forall k :: 0 <= k < |es| ==> Enabled(ps[k], es[k]) && ps[k + 1] == Next(ps[k], limit, es[k])
  }

  lemma {:induction false} TotalOfEmpty(queues: seq<Pending>, f: Rec -> nat)
    requires forall q :: 0 <= q < |queues| ==> queues[q] == EMPTY
    ensures Total(queues, f) == 0
  {
    if queues != [] {
      TotalOfEmpty(queues[..|queues| - 1], f);
    }
  }

  lemma {:induction false} RunKeepsPoolInv(ps: seq<Pool>, es: seq<Event>, limit: nat, k: nat)
    requires Run(ps, es, limit) && k <= |es|
    ensures PoolInv(ps[k], [], limit) && |ps[k].queues| == |ps[0].queues|
  {
    if k == 0 {
      assert forall q :: 0 <= q < |ps[0].queues| ==> ps[0].queues[q] in ps[0].queues;
      forall id: nat
        ensures Links(ps[0], [], id) == 0
      {
        TotalOfEmpty(ps[0].queues, HasId(id));
      }
    } else {
      RunKeepsPoolInv(ps, es, limit, k - 1);
      StepKeepsPoolInv(ps[k - 1], limit, es[k - 1]);
      QueueCount(ps[k - 1], limit, es[k - 1]);
    }
  }

  lemma {:induction false} FreeAllQueues(p: Pool, removed: seq<Rec>)
    ensures FreeAll(p, removed).queues == p.queues
    decreases |removed|
  {
    if removed != [] {
      FreeAllQueues(FreeRecord(p, removed[0].id), removed[1..]);
    }
  }

  lemma QueueCount(p: Pool, limit: nat, e: Event)
    requires Enabled(p, e)
    ensures |Next(p, limit, e).queues| == |p.queues|
  {
    match e
    case TakeNext(q, mask) =>
      var d := Dequeue(p.queues[q], mask);
      FreeAllQueues(SetQueue(p, q, d.after.queue), d.after.removed);
    case RemoveShort(q, mask) =>
      FreeAllQueues(SetQueue(p, q, RmFromQueue(p.queues[q], mask)), RemovedShort(p.queues[q], mask));
    case RemoveFull(q, mask) =>
      FreeAllQueues(SetQueue(p, q, RmFromQueueFull(p.queues[q], mask)), RemovedFull(p.queues[q], mask));
    case FlushTimerSignals(q) => FreeAllQueues(SetQueue(p, q, FlushTimers(p.queues[q])), Timers(p.queues[q].list));
    case FlushQueue(q) => FreeAllQueues(SetQueue(p, q, EMPTY), p.queues[q].list);
    case _ =>
  }

  /** The user's counter is the number of live objects and of charges in flight;
      each object is preallocated or linked exactly once; none is ever linked twice;
      no object is freed twice, and a freed object is on no list. */
  ghost predicate Accounted(p: Pool) {
    && p.sigpending == |p.live| + p.inFlight
    && (forall id: nat :: Total(p.queues, HasId(id)) <= 1)
    && (forall id: nat :: OnList(p, id) ==> id in p.live)
    && (forall id: nat :: id in p.live ==> id in p.prealloc || OnList(p, id))
    && (forall a, b :: 0 <= a < b < |p.freed| ==> p.freed[a] != p.freed[b])
    && (forall id :: id in p.freed ==> id !in p.live && !OnList(p, id))
  }

  lemma InvAccounts(p: Pool, limit: nat)
    requires PoolInv(p, [], limit)
    ensures Accounted(p) && |p.live| <= limit + 31 * |p.queues|
  {
    assert forall id: nat :: Links(p, [], id) == Total(p.queues, HasId(id));
    TotalBounded(p.queues, p.over);
  }

  /** Record lifetime: every state of every run is accounted for. */
  lemma RecordLifetime(ps: seq<Pool>, es: seq<Event>, limit: nat, k: nat)
    requires Run(ps, es, limit) && k <= |es|
    ensures Accounted(ps[k])
    ensures ps[k].sigpending == |ps[k].live| <==> ps[k].inFlight == 0
  {
    RunKeepsPoolInv(ps, es, limit, k);
    InvAccounts(ps[k], limit);
  }

  // ------------------------------------------------------------------ the limit

  /** Overriding records of the signals up to s. */
  function OversUpTo(list: seq<Rec>, over: set<nat>, s: nat): nat
    requires s < SIGRTMIN
  {
    if s == 0 then 0 else OversUpTo(list, over, s - 1) + Sum(list, OverFor(over, s))
  }

  lemma {:induction false} OversSnoc(list: seq<Rec>, over: set<nat>, s: nat)
    requires s < SIGRTMIN && list != []
    ensures var front, last := list[..|list| - 1], list[|list| - 1];
            OversUpTo(list, over, s)
              == OversUpTo(front, over, s) + if last.id in over && last.info.signo <= s then 1 else 0
  {
    if s > 0 {
      OversSnoc(list, over, s - 1);
    }
  }

  lemma {:induction false} OversOfNothing(over: set<nat>, s: nat)
    requires s < SIGRTMIN
    ensures OversUpTo([], over, s) == 0
  {
    if s > 0 {
      OversOfNothing(over, s - 1);
    }
  }

  /** Overriding records that are all legacy can be counted signal by signal. */
  lemma {:induction false} OversAreLegacy(list: seq<Rec>, over: set<nat>)
    requires forall r :: r in list && r.id in over ==> r.info.signo < SIGRTMIN
    ensures Sum(list, IsOver(over)) == OversUpTo(list, over, SIGRTMIN - 1)
  {
    if list == [] {
      OversOfNothing(over, SIGRTMIN - 1);
    } else {
      OversAreLegacy(list[..|list| - 1], over);
      OversSnoc(list, over, SIGRTMIN - 1);
    }
  }

  lemma {:induction false} OversBounded(list: seq<Rec>, over: set<nat>, s: nat)
    requires s < SIGRTMIN && forall x: Signo :: x < SIGRTMIN ==> Sum(list, OverFor(over, x)) <= 1
    ensures OversUpTo(list, over, s) <= s
  {
    if s > 0 {
      OversBounded(list, over, s - 1);
    }
  }

  lemma {:induction false} TotalBounded(queues: seq<Pending>, over: set<nat>)
    requires forall q :: 0 <= q < |queues| ==> QueueInv(queues[q], over)
    ensures Total(queues, IsOver(over)) <= 31 * |queues|
  {
    if queues != [] {
      var front, last := queues[..|queues| - 1], queues[|queues| - 1];
      assert QueueInv(last, over);
      forall q | 0 <= q < |front|
        ensures QueueInv(front[q], over)
      {
        assert front[q] == queues[q];
      }
      TotalBounded(front, over);
      OversAreLegacy(last.list, over);
      OversBounded(last.list, over, SIGRTMIN - 1);
    }
  }

  /** The limit may be exceeded only by overriding records, one per legacy signal
      and queue: the live objects never exceed the limit plus 31 for each queue, and
      the counter exceeds that by the charges in flight at most. */
  lemma LimitBound(ps: seq<Pool>, es: seq<Event>, limit: nat, k: nat)
    requires Run(ps, es, limit) && k <= |es|
    ensures |ps[k].live| <= limit + 31 * |ps[0].queues|
    ensures ps[k].sigpending <= limit + 31 * |ps[0].queues| + ps[k].inFlight
  {
    RunKeepsPoolInv(ps, es, limit, k);
    InvAccounts(ps[k], limit);
  }

  /** Charges in flight do carry the counter past the bound of the objects: with
      enough allocations that have charged the user and not yet looked at the limit,
      it passes the bound while no object exists at all. */
  lemma CounterCanPassTheBound(queues: seq<Pending>, limit: nat) returns (ps: seq<Pool>, es: seq<Event>)
    requires forall q :: q in queues ==> q == EMPTY
    ensures Run(ps, es, limit) && |ps[0].queues| == |queues|
    ensures ps[|es|].sigpending > limit + 31 * |queues| && ps[|es|].live == {}
  {
    var n := limit + 31 * |queues| + 1;
    es := seq(n, _ => ChargeUser);
    ps := seq(n + 1, k requires 0 <= k <= n => Pool(queues, {}, {}, {}, k, k, []));
    forall k | 0 <= k < n
      ensures Enabled(ps[k], es[k]) && ps[k + 1] == Next(ps[k], limit, es[k])
    {
      assert es[k] == ChargeUser;
    }
  }

  // ------------------------------------------------------ queue after queue

  /** The same operation on each of several queues. */
  datatype Sweep = SweepShort(mask: set<Signo>) | SweepFull(mask: set<Signo>) | SweepBits(bits: set<Signo>)

  predicate SweepOk(w: Sweep) {
    w.SweepShort? ==> w.mask <= LEGACY
  }

  function EventOf(w: Sweep, q: nat): Event {
    match w
    case SweepShort(mask) => RemoveShort(q, mask)
    case SweepFull(mask) => RemoveFull(q, mask)
    case SweepBits(bits) => AddBits(q, bits)
  }

  function Swept(w: Sweep, x: Pending): Pending {
    match w
    case SweepShort(mask) => RmFromQueue(x, mask)
    case SweepFull(mask) => RmFromQueueFull(x, mask)
    case SweepBits(bits) => x.(signal := x.signal + bits)
  }

  /** step(.., lo), then step(.., lo + 1), up to but not including hi. */
  function Fold(p: Pool, step: (Pool, nat) -> Pool, lo: nat, hi: nat): Pool
    decreases hi
  {
    if hi <= lo then p else step(Fold(p, step, lo, hi - 1), hi - 1)
  }

  /** inv(h, q) says what holds before step q. */
  ghost predicate Inductive(inv: (Pool, nat) -> bool, step: (Pool, nat) -> Pool, lo: nat, hi: nat) {
    forall h: Pool, q: nat :: lo <= q < hi && inv(h, q) ==> inv(step(h, q), q + 1)
  }

  lemma {:induction false} FoldKeeps(p: Pool, step: (Pool, nat) -> Pool, lo: nat, hi: nat, top: nat,
                                     inv: (Pool, nat) -> bool)
    requires lo <= hi <= top && inv(p, lo) && Inductive(inv, step, lo, top)
    ensures inv(Fold(p, step, lo, hi), hi)
    decreases hi
  {
    if lo < hi {
      FoldKeeps(p, step, lo, hi - 1, top, inv);
      var h := Fold(p, step, lo, hi - 1);
      assert inv(step(h, hi - 1), hi - 1 + 1);
    }
  }

  /** The operation on queue q. */
  function Sweeper(limit: nat, w: Sweep): (Pool, nat) -> Pool
    requires SweepOk(w)
  {
    (h: Pool, q: nat) => if q < |h.queues| then Next(h, limit, EventOf(w, q)) else h
  }

  function SweepRange(p: Pool, limit: nat, w: Sweep, lo: nat, hi: nat): Pool
    requires SweepOk(w)
  {
    Fold(p, Sweeper(limit, w), lo, hi)
  }

  lemma EventQueues(p: Pool, limit: nat, w: Sweep, q: nat)
    requires SweepOk(w) && q < |p.queues|
    ensures Next(p, limit, EventOf(w, q)).queues == p.queues[q := Swept(w, p.queues[q])]
  {
    var x := p.queues[q];
    match w
    case SweepShort(mask) => FreeAllQueues(SetQueue(p, q, RmFromQueue(x, mask)), RemovedShort(x, mask));
    case SweepFull(mask) => FreeAllQueues(SetQueue(p, q, RmFromQueueFull(x, mask)), RemovedFull(x, mask));
    case SweepBits(_) =>
  }

  /** Pool h came from pool p without reuse, and is sound. */
  ghost predicate Follows(p: Pool, h: Pool, limit: nat) {
    PoolInv(h, [], limit) && NoReuse(p, h)
  }

  lemma EventKeeps(p: Pool, limit: nat, w: Sweep, q: nat)
    requires PoolInv(p, [], limit) && SweepOk(w) && q < |p.queues|
    ensures Follows(p, Next(p, limit, EventOf(w, q)), limit)
  {
    if w.SweepBits? {
      BitsKeep(p, q, w.bits, limit);
    } else {
      RemovalEvents(p, limit, EventOf(w, q));
    }
  }

  lemma NoReuseTrans(p: Pool, h: Pool, k: Pool)
    requires NoReuse(p, h) && NoReuse(h, k)
    ensures NoReuse(p, k)
  {
  }

  lemma FollowsTrans(p: Pool, p1: Pool, h: Pool, limit: nat)
    requires Follows(p, p1, limit) && Follows(p1, h, limit)
    ensures Follows(p, h, limit)
  {
    NoReuseTrans(p, p1, h);
  }

  lemma SweepStep(p: Pool, p1: Pool, limit: nat, w: Sweep, q: nat, h: Pool)
    requires Follows(p, p1, limit) && SweepOk(w) && q < |p1.queues| && h == Next(p1, limit, EventOf(w, q))
    ensures Follows(p, h, limit)
  {
    EventKeeps(p1, limit, w, q);
    FollowsTrans(p, p1, h, limit);
  }

  lemma SweepKeeps(p: Pool, limit: nat, w: Sweep, lo: nat, hi: nat)
    requires PoolInv(p, [], limit) && SweepOk(w)
    ensures Follows(p, SweepRange(p, limit, w, lo, hi), limit)
  {
    var step := Sweeper(limit, w);
    var inv := (h: Pool, q: nat) => Follows(p, h, limit);
    forall h: Pool, q: nat | lo <= q < hi && inv(h, q)
      ensures inv(step(h, q), q + 1)
    {
      if q < |h.queues| {
        SweepStep(p, h, limit, w, q, step(h, q));
      }
    }
    if lo <= hi {
      FoldKeeps(p, step, lo, hi, hi, inv);
    }
  }

  /** The queues of pool h are those of p with the ones from lo to m swept. */
  ghost predicate SweptTo(p: Pool, h: Pool, w: Sweep, lo: nat, m: nat) {
    && |h.queues| == |p.queues|
    && forall q :: 0 <= q < |p.queues| ==>
         h.queues[q] == if lo <= q < m then Swept(w, p.queues[q]) else p.queues[q]
  }

  lemma SweepQueues(p: Pool, limit: nat, w: Sweep, lo: nat, hi: nat)
    requires SweepOk(w) && lo <= hi <= |p.queues|
    ensures SweptTo(p, SweepRange(p, limit, w, lo, hi), w, lo, hi)
  {
    var step := Sweeper(limit, w);
    var inv := (h: Pool, q: nat) => SweptTo(p, h, w, lo, q);
    forall h: Pool, q: nat | lo <= q < hi && inv(h, q)
      ensures inv(step(h, q), q + 1)
    {
      EventQueues(h, limit, w, q);
    }
    FoldKeeps(p, step, lo, hi, hi, inv);
  }

  lemma {:induction false} SumPositive(list: seq<Rec>, id: nat)
    ensures Sum(list, HasId(id)) > 0 <==> exists r :: r in list && r.id == id
  {
    if list != [] {
      SumPositive(list[..|list| - 1], id);
      assert list == list[..|list| - 1] + [list[|list| - 1]];
    }
  }

  /** Whether an object is on a list can be told from the lists. */
  lemma {:induction false} TotalPositive(queues: seq<Pending>, id: nat)
    ensures Total(queues, HasId(id)) > 0
       <==> exists q :: 0 <= q < |queues| && exists r :: r in queues[q].list && r.id == id
  {
    if queues != [] {
      var front, last := queues[..|queues| - 1], queues[|queues| - 1];
      TotalPositive(front, id);
      SumPositive(last.list, id);
      if q :| 0 <= q < |front| && exists r :: r in front[q].list && r.id == id {
        assert queues[q] == front[q];
      }
      if q :| 0 <= q < |queues| && exists r :: r in queues[q].list && r.id == id {
        assert q < |front| ==> front[q] == queues[q];
      }
    }
  }

  // ------------------------------------------------------ the pool, in place

  class Account {
    var queues: seq<Pending>
    var live: set<nat>
    var prealloc: set<nat>
    ghost var over: set<nat>
    var sigpending: int
    ghost var inFlight: nat
    var freed: seq<nat>

    ghost function State(): Pool
      reads this
    {
      Pool(queues, live, prealloc, over, sigpending, inFlight, freed)
    }

    /** The first half of __sigqueue_alloc. */
    method ChargeCounter()
      modifies this`sigpending, this`inFlight
      ensures State() == Charge(old(State()))
      ensures old(ChargeInv(State())) ==> ChargeInv(State())
    {
      sigpending := sigpending + 1;
      inFlight := inFlight + 1;
    }

    /** The second half, whatever other allocations have done to the counter in the
        meantime: test and allocate, or give the charge back. */
    method SettleCharge(limit: nat, override: bool, memory: bool, id: nat) returns (ok: bool)
      requires inFlight > 0
      modifies this
      ensures ok <==> AllocOk(old(State()), limit, override, memory)
      ensures State() == if ok then Allocate(old(State()), id, override) else Refund(old(State()))
      ensures old(ChargeInv(State()) && Fresh(State(), id)) ==>
                ChargeInv(State()) && |live| == old(|live|) + if ok then 1 else 0
    {
      ok := false;
      if override || sigpending <= limit {
        ok := memory;
      }
      if !ok {
        sigpending := sigpending - 1;
      } else {
        live := live + {id};
        over := if override then over + {id} else over;
      }
      inFlight := inFlight - 1;
    }

    /** __sigqueue_alloc with nobody in between: a failure changes nothing. */
    method SigqueueAllocRaw(limit: nat, override: bool, memory: bool, id: nat) returns (ok: bool)
      modifies this
      ensures ok <==> AllocOk(Charge(old(State())), limit, override, memory)
      ensures State() == if ok then Allocate(Charge(old(State())), id, override) else old(State())
      ensures ok ==> override || sigpending <= limit
      ensures old(ChargeInv(State()) && Fresh(State(), id)) ==> ChargeInv(State())
    {
      ChargeCounter();
      ok := SettleCharge(limit, override, memory, id);
    }

    /** __sigqueue_free. */
    method SigqueueFreeRaw(id: nat)
      modifies this
      ensures State() == FreeRecord(old(State()), id)
      ensures old(ChargeInv(State()) && id in live) ==> ChargeInv(State()) && (id in live <==> id in prealloc)
    {
      if id in prealloc {
        return;
      }
      sigpending := sigpending - 1;
      live := live - {id};
      freed := freed + [id];
    }

    /** flush_sigqueue: empty the bitmap, then unlink and free head by head. */
    method FlushSigqueue(q: nat, ghost limit: nat)
      requires q < |queues|
      modifies this
      ensures State() == Next(old(State()), limit, FlushQueue(q))
      ensures old(PoolInv(State(), [], limit)) ==> PoolInv(State(), [], limit)
    {
      ghost var before := State();
      ghost var result := Next(State(), limit, FlushQueue(q));
      queues := queues[q := queues[q].(signal := {})];
      assert SetQueue(State(), q, EMPTY) == SetQueue(old(State()), q, EMPTY);
      while queues[q].list != []
        invariant q < |queues| && queues[q].signal == {}
        invariant FreeAll(SetQueue(State(), q, EMPTY), queues[q].list) == result
        decreases |queues[q].list|
      {
        ghost var here := State();
        var head := queues[q].list[0];
        queues := queues[q := queues[q].(list := queues[q].list[1..])];
        SigqueueFreeRaw(head.id);
        assert SetQueue(State(), q, EMPTY) == FreeRecord(SetQueue(here, q, EMPTY), head.id);
      }
      assert queues[q := EMPTY] == queues;
      if PoolInv(before, [], limit) {
        StepKeepsPoolInv(before, limit, FlushQueue(q));
      }
    }

    /** sigqueue_alloc: a timer's record, charged within the limit. */
    method SigqueueAlloc(limit: nat, memory: bool, id: nat) returns (ok: bool)
      requires Fresh(State(), id)
      modifies this
      ensures ok <==> AllocOk(Charge(old(State())), limit, false, memory)
      ensures State() == if ok then Next(Charge(old(State())), limit, AllocTimer(id, memory)) else old(State())
      ensures ok ==> id in prealloc && sigpending <= limit
      ensures old(PoolInv(State(), [], limit)) ==> PoolInv(State(), [], limit)
    {
      ghost var before := State();
      ok := SigqueueAllocRaw(limit, false, memory, id);
      if ok {
        prealloc := prealloc + {id};
      }
      if PoolInv(before, [], limit) {
        CounterKeeps(before, limit);
        AllocTimerKeeps(Charge(before), limit, id, memory);
      }
    }

    /** sigqueue_free: left to its list if it is queued, freed at once otherwise. */
    method SigqueueFree(id: nat, ghost limit: nat)
      requires id in prealloc
      modifies this
      ensures State() == ReleaseTimer(old(State()), id)
      ensures old(PoolInv(State(), [], limit)) ==>
                && PoolInv(State(), [], limit) && id !in prealloc
                && (id in live <==> OnList(State(), id)) && (id in freed <==> !OnList(State(), id))
    {
      ghost var before := State();
      prealloc := prealloc - {id};
      var queued := Total(queues, HasId(id)) > 0;
      if !queued {
        SigqueueFreeRaw(id);
      }
      if PoolInv(before, [], limit) {
        ReleaseMeaning(before, id, limit);
      }
    }
  }
}
