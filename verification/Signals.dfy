/** Signal numbers (x86 Linux), the kernel's signal classes and the order in
    which pending signals are serviced. */
module Signals {
  const NSIG := 64
  const SIGRTMIN := 32

  type Signo = s: int | 1 <= s <= NSIG witness 1

  const SIGILL: Signo := 4
  const SIGTRAP: Signo := 5
  const SIGBUS: Signo := 7
  const SIGFPE: Signo := 8
  const SIGKILL: Signo := 9
  const SIGSEGV: Signo := 11
  const SIGCHLD: Signo := 17
  const SIGCONT: Signo := 18
  const SIGSTOP: Signo := 19

  /** SYNCHRONOUS_MASK: signals that must be dequeued before all others. */
  const SYNCHRONOUS: set<Signo> := {SIGSEGV, SIGBUS, SIGILL, SIGTRAP, SIGFPE}

  /** SIG_KERNEL_STOP_MASK: SIGSTOP, SIGTSTP, SIGTTIN, SIGTTOU. */
  const STOP_SIGNALS: set<Signo> := {SIGSTOP, 20, 21, 22}

  /** SIG_KERNEL_IGNORE_MASK: SIGCONT, SIGCHLD, SIGWINCH, SIGURG. */
  const IGNORED_SIGNALS: set<Signo> := {SIGCONT, SIGCHLD, 28, 23}

  /** SIG_KERNEL_COREDUMP_MASK: signals whose default action dumps core. */
  const COREDUMP_SIGNALS: set<Signo> :=
    {3, SIGILL, SIGTRAP, 6, SIGFPE, SIGSEGV, SIGBUS, 31, 24, 25}

  /** Legacy signals: everything below SIGRTMIN. */
  const LEGACY: set<Signo> := set s: Signo | 1 <= s < SIGRTMIN

  const ALL: set<Signo> := set s: Signo | 1 <= s <= NSIG

  /** Service order: synchronous signals first, then ascending numbers. */
  predicate Before(a: int, b: int) {
    if (a in SYNCHRONOUS) == (b in SYNCHRONOUS) then a < b else a in SYNCHRONOUS
  }

  /** `sig` is the signal to service next out of `ready`; 0 says there is none. */
  ghost predicate IsNext(ready: set<int>, sig: int) {
    if ready == {} then sig == 0
    else sig in ready && forall y :: y in ready && y != sig ==> Before(sig, y)
  }

  lemma NextIsUnique(ready: set<int>, a: int, b: int)
    requires IsNext(ready, a) && IsNext(ready, b)
    ensures a == b
  {
  }

  /** The least signal of `s` that is at least `from`, or 0. */
  function LowestFrom(s: set<Signo>, from: Signo): (r: int)
    ensures r == 0 ==> forall y: Signo :: from <= y ==> y !in s
    ensures r != 0 ==> r in s && from <= r && forall y: Signo :: from <= y < r ==> y !in s
    decreases NSIG - from
  {
    if from in s then from
    else if from == NSIG then 0
    else LowestFrom(s, from + 1)
  }

  /** next_signal on sets: what is to be serviced next out of `ready`, or 0. */
  function NextSignal(ready: set<Signo>): (sig: int)
    ensures IsNext(ready, sig)
  {
    if ready * SYNCHRONOUS != {} then
      var sig := LowestFrom(ready * SYNCHRONOUS, 1);
      assert sig != 0 by {
        var y :| y in ready * SYNCHRONOUS;
      }
      assert forall y :: y in ready && y != sig && y in SYNCHRONOUS ==> y in ready * SYNCHRONOUS;
      sig
    else
      var sig := LowestFrom(ready, 1);
      assert forall y :: y in ready && y in SYNCHRONOUS ==> y in ready * SYNCHRONOUS;
      assert sig == 0 ==> ready == {} by {
        if ready != {} {
          var y :| y in ready;
        }
      }
      sig
  }
}
