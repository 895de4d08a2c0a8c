/** The thread group as a state machine: every siglock critical section is one
    step; runs are arbitrary interleavings of them. */
module GroupRun {
  import opened Signals
  import opened SigQueue
  import opened GroupState

  datatype Step =
    | Generate(sig: Signo, src: Source, p: nat, group: bool, slot: Slot, onCpu: set<nat>)
    | GenerateQueued(q: Rec, p: nat, group: bool, onCpu: set<nat>)
    | Force(sig: Signo, src: Source, p: nat, slot: Slot, onCpu: set<nat>)
    | SetAction(sig: Signo, d: Disposition)
    | SetMask(i: nat, newset: set<Signo>)
    | WaitBegin(i: nat, mask: set<Signo>)
    | WaitEnd(i: nat)
    | TakeSync(i: nat, mask: set<Signo>)
    | Enter(i: nat)
    | Lock(i: nat)
    | StopInLoop(i: nat)
    | TakeInLoop(i: nat)
    | Act(i: nat)
    | LeaveWindow(i: nat, orphaned: bool)
    | ExitUnlocked(i: nat)
    | ExitWithLock(i: nat)
    | Sleep(i: nat, s: RunState)
    | Rouse(i: nat)

  /** Thread i can execute code of its own. */
  predicate Runs(g: Group, i: nat) {
    ValidTask(g, i) && !g.tasks[i].exiting && g.tasks[i].state == Running
  }

  predicate At(g: Group, i: nat, at: Point) {
    Runs(g, i) && g.tasks[i].at == at
  }

  predicate Enabled(g: Group, s: Step) {
    match s
    case Generate(_, _, p, _, _, _) => ValidTask(g, p)
    case GenerateQueued(_, p, _, _) => ValidTask(g, p)
    case Force(_, _, p, _, _) => ValidTask(g, p)
    case SetAction(_, _) => Ok(g)
    case SetMask(i, newset) => At(g, i, User) && {SIGKILL, SIGSTOP} !! newset
    case WaitBegin(i, mask) => At(g, i, User)
    case WaitEnd(i) => At(g, i, User)
    case TakeSync(i, mask) => At(g, i, User) && {SIGKILL, SIGSTOP} <= mask
    case Enter(i) => At(g, i, User)
    case Lock(i) => At(g, i, Relock)
    case StopInLoop(i) => At(g, i, Loop) && g.tasks[i].job.stopPending
    case TakeInLoop(i) => At(g, i, Loop) && !g.tasks[i].job.stopPending
    case Act(i) => Runs(g, i) && g.tasks[i].at.Dispatch?
    case LeaveWindow(i, _) => Runs(g, i) && g.tasks[i].at.Orphan?
    case ExitUnlocked(i) =>
      (At(g, i, User) || At(g, i, Fatal)) && (|g.tasks| == 1 || g.flags.groupExit)
    case ExitWithLock(i) => (At(g, i, User) || At(g, i, Fatal)) && |g.tasks| > 1
    case Sleep(i, s) => At(g, i, User) && s != Stopped && (s == Interruptible ==> !g.tasks[i].tif)
    case Rouse(i) => ValidTask(g, i) && g.tasks[i].state != Stopped
  }

  function Next(g: Group, s: Step): Group
    requires Enabled(g, s)
  {
    match s
    case Generate(sig, src, p, group, slot, onCpu) => Send(g, sig, src, p, group, slot, onCpu)
    case GenerateQueued(q, p, group, onCpu) => SendSigqueue(g, q, p, group, onCpu)
    case Force(sig, src, p, slot, onCpu) => ForceSig(g, sig, src, p, slot, onCpu)
    case SetAction(sig, d) => Sigaction(g, sig, d)
    case SetMask(i, newset) => SetBlocked(g, i, newset)
    case WaitBegin(i, mask) => BeginTimedWait(g, i, mask)
    case WaitEnd(i) => EndTimedWait(g, i)
    case TakeSync(i, mask) => Take(g, i, mask).group
    case Enter(i) => Move(g, i, Relock)
    case Lock(i) => EnterLoop(g, i)
    case StopInLoop(i) => SignalStop(g, i, 0)
    case TakeInLoop(i) => LoopTake(g, i)
    case Act(i) => Deliver(g, i, g.tasks[i].at.sig)
    case LeaveWindow(i, orphaned) =>
      if orphaned then Move(g, i, Relock) else SignalStop(g, i, g.tasks[i].at.sig)
    case ExitUnlocked(i) => SetExiting(g, i)
    case ExitWithLock(i) => ExitLocked(g, i)
    case Sleep(i, s) => SetState(g, i, s)
    case Rouse(i) => SetState(g, i, Running)
  }

  /** The signal a step generates, or 0. */
  function Generated(s: Step): int {
    match s
    case Generate(sig, _, _, _, _, _) => sig
    case GenerateQueued(q, _, _, _) => q.info.signo
    case Force(sig, _, _, _, _) => sig
    case _ => 0
  }

  /** A fresh group: nothing pending, nobody stopping or exiting. */
  predicate Initial(g: Group) {
    && Ok(g)
    && g.shared == EMPTY && g.flags == NO_FLAGS && g.stopCount == 0
    && Action(g, SIGKILL) == Default && Action(g, SIGSTOP) == Default
    && forall t :: t in g.tasks ==>
         && t.pending == EMPTY && !t.tif && t.job == JobCtl(0, false, false, false)
         && !t.exiting && t.state == Running && t.at == User
         && {SIGKILL, SIGSTOP} !! t.blocked && t.realBlocked == {}
  }

  /** gs[k] -ss[k]-> gs[k + 1] for every k. */
  ghost predicate Path(gs: seq<Group>, ss: seq<Step>) {
    && |gs| == |ss| + 1
    && forall k :: 0 <= k < |ss| ==> Enabled(gs[k], ss[k]) && gs[k + 1] == Next(gs[k], ss[k])
  }

  ghost predicate Run(gs: seq<Group>, ss: seq<Step>) {
    Path(gs, ss) && Initial(gs[0])
  }
}
