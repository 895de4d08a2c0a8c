/** Signal sets as the kernel stores them: arrays of machine words.  The scans of
    next_signal and has_pending_signals, and smunch's direct writes, mean what the
    set-level operations mean, for any number of words. */
module SigWords {
  import opened Signals

  // ------------------------------------------------------------ bits of a word

  /** Bit i of a word. */
  function Bit(x: nat, i: nat): bool {
    if i == 0 then x % 2 == 1 else Bit(x / 2, i - 1)
  }

  function AndNot(x: nat, y: nat): nat {
    if x == 0 then 0 else (if x % 2 == 1 && y % 2 == 0 then 1 else 0) + 2 * AndNot(x / 2, y / 2)
  }

  function And(x: nat, y: nat): nat {
    if x == 0 then 0 else (if x % 2 == 1 && y % 2 == 1 then 1 else 0) + 2 * And(x / 2, y / 2)
  }

  function Or(x: nat, y: nat): nat {
    if x == 0 && y == 0 then 0 else (if x % 2 == 1 || y % 2 == 1 then 1 else 0) + 2 * Or(x / 2, y / 2)
  }

  /** x >> k. */
  function Shift(x: nat, k: nat): nat {
    if k == 0 then x else Shift(x / 2, k - 1)
  }

  /** The k low bits of x: a truncating cast. */
  function Low(x: nat, k: nat): nat {
    if k == 0 then 0 else x % 2 + 2 * Low(x / 2, k - 1)
  }

  /** ffz(~x): the number of the lowest bit set. */
  function LowestBit(x: nat): nat
    requires x > 0
  {
    if x % 2 == 1 then 0 else 1 + LowestBit(x / 2)
  }

  lemma {:induction false} BitOfZero(i: nat)
    ensures !Bit(0, i)
  {
    if i > 0 {
      BitOfZero(i - 1);
    }
  }

  lemma {:induction false} BitAndNot(x: nat, y: nat, i: nat)
    ensures Bit(AndNot(x, y), i) <==> Bit(x, i) && !Bit(y, i)
    decreases i
  {
    if x == 0 {
      BitOfZero(i);
    } else if i > 0 {
      assert AndNot(x, y) / 2 == AndNot(x / 2, y / 2);
      BitAndNot(x / 2, y / 2, i - 1);
    }
  }

  lemma {:induction false} BitAnd(x: nat, y: nat, i: nat)
    ensures Bit(And(x, y), i) <==> Bit(x, i) && Bit(y, i)
    decreases i
  {
    if x == 0 {
      BitOfZero(i);
    } else if i > 0 {
      assert And(x, y) / 2 == And(x / 2, y / 2);
      BitAnd(x / 2, y / 2, i - 1);
    }
  }

  lemma {:induction false} BitOr(x: nat, y: nat, i: nat)
    ensures Bit(Or(x, y), i) <==> Bit(x, i) || Bit(y, i)
    decreases i
  {
    if x == 0 && y == 0 {
      BitOfZero(i);
    } else if i > 0 {
      assert Or(x, y) / 2 == Or(x / 2, y / 2);
      BitOr(x / 2, y / 2, i - 1);
    }
  }

  lemma {:induction false} BitShift(x: nat, k: nat, i: nat)
    ensures Bit(Shift(x, k), i) <==> Bit(x, i + k)
    decreases k
  {
    if k > 0 {
      BitShift(x / 2, k - 1, i);
    }
  }

  lemma {:induction false} BitLow(x: nat, k: nat, i: nat)
    ensures Bit(Low(x, k), i) <==> i < k && Bit(x, i)
    decreases k
  {
    if k == 0 {
      BitOfZero(i);
    } else if i > 0 {
      assert Low(x, k) / 2 == Low(x / 2, k - 1);
      BitLow(x / 2, k - 1, i - 1);
    }
  }

  lemma {:induction false} LowestIsLowest(x: nat)
    requires x > 0
    ensures Bit(x, LowestBit(x))
    ensures forall i: nat :: i < LowestBit(x) ==> !Bit(x, i)
  {
    if x % 2 == 0 {
      LowestIsLowest(x / 2);
    }
  }

  // -------------------------------------------------------- sets out of words

  /** A word of `bpw` bits. */
  ghost predicate Fits(x: nat, bpw: nat) {
    forall i: nat :: i >= bpw ==> !Bit(x, i)
  }

  ghost predicate AllFit(ws: seq<nat>, bpw: nat) {
    forall k :: 0 <= k < |ws| ==> Fits(ws[k], bpw)
  }

  /** The signals of one word whose bit 0 stands for signal base + 1. */
  ghost function Bits(x: nat, bpw: nat, base: nat): set<int> {
    set i: nat | i < bpw && Bit(x, i) :: base + i + 1
  }

  /** The set that an array of words denotes. */
  ghost function SetOf(ws: seq<nat>, bpw: nat, base: nat): set<int> {
    if ws == [] then {} else Bits(ws[0], bpw, base) + SetOf(ws[1..], bpw, base + bpw)
  }

  lemma BitsMember(x: nat, bpw: nat, base: nat, s: int)
    ensures s in Bits(x, bpw, base) <==> base < s <= base + bpw && Bit(x, s - base - 1)
  {
    if base < s <= base + bpw && Bit(x, s - base - 1) {
      var i: nat := s - base - 1;
      assert base + i + 1 in Bits(x, bpw, base);
    }
  }

  lemma {:induction false} SetAbove(ws: seq<nat>, bpw: nat, base: nat)
    ensures forall s :: s in SetOf(ws, bpw, base) ==> s > base
  {
    if ws != [] {
      SetAbove(ws[1..], bpw, base + bpw);
    }
  }

  /** Wordwise and-not of two arrays. */
  function Ready(s: seq<nat>, m: seq<nat>): (r: seq<nat>)
    requires |s| == |m|
    ensures |r| == |s|
  {
    seq(|s|, k requires 0 <= k < |s| => AndNot(s[k], m[k]))
  }

  lemma BitsOfAndNot(x: nat, y: nat, bpw: nat, base: nat, s: int)
    ensures s in Bits(AndNot(x, y), bpw, base) <==> s in Bits(x, bpw, base) && s !in Bits(y, bpw, base)
  {
    BitsMember(x, bpw, base, s);
    BitsMember(y, bpw, base, s);
    BitsMember(AndNot(x, y), bpw, base, s);
    if base < s <= base + bpw {
      BitAndNot(x, y, s - base - 1);
    }
  }

  /** Wordwise and-not is set difference. */
  lemma {:induction false} ReadyIsDifference(s: seq<nat>, m: seq<nat>, bpw: nat, base: nat)
    requires |s| == |m|
    ensures SetOf(Ready(s, m), bpw, base) == SetOf(s, bpw, base) - SetOf(m, bpw, base)
  {
    if s != [] {
      assert Ready(s, m)[1..] == Ready(s[1..], m[1..]);
      ReadyIsDifference(s[1..], m[1..], bpw, base + bpw);
      SetAbove(s[1..], bpw, base + bpw);
      SetAbove(m[1..], bpw, base + bpw);
      forall x: int
        ensures x in SetOf(Ready(s, m), bpw, base) <==> x in SetOf(s, bpw, base) && x !in SetOf(m, bpw, base)
      {
        BitsOfAndNot(s[0], m[0], bpw, base, x);
        BitsMember(s[0], bpw, base, x);
        BitsMember(m[0], bpw, base, x);
      }
    }
  }

  /** A word that is not zero holds its lowest bit's signal, and none below it. */
  lemma LeastOfWord(x: nat, bpw: nat, base: nat)
    requires x > 0 && Fits(x, bpw)
    ensures base + LowestBit(x) + 1 in Bits(x, bpw, base)
    ensures forall s :: s in Bits(x, bpw, base) ==> base + LowestBit(x) + 1 <= s
  {
    LowestIsLowest(x);
    BitsMember(x, bpw, base, base + LowestBit(x) + 1);
  }

  lemma BitsOfZero(bpw: nat, base: nat)
    ensures Bits(0, bpw, base) == {}
  {
    forall i: nat
      ensures !Bit(0, i)
    {
      BitOfZero(i);
    }
  }

  /** Leading zero words contribute nothing. */
  lemma {:induction false} SkipZeros(ws: seq<nat>, bpw: nat, base: nat, k: nat)
    requires k <= |ws| && forall j :: 0 <= j < k ==> ws[j] == 0
    ensures SetOf(ws, bpw, base) == SetOf(ws[k..], bpw, base + k * bpw)
    decreases k
  {
    if k > 0 {
      BitsOfZero(bpw, base);
      SkipZeros(ws[1..], bpw, base + bpw, k - 1);
      assert ws[1..][k - 1..] == ws[k..];
      assert base + bpw + (k - 1) * bpw == base + k * bpw;
    }
  }

  // --------------------------------------------------------------- next_signal

  /** SYNCHRONOUS_MASK as a word. */
  const SYNCHRONOUS_WORD := 0x4D8

  lemma SynchronousBits(i: nat)
    ensures Bit(SYNCHRONOUS_WORD, i) <==> i + 1 in SYNCHRONOUS
  {
    assert Shift(SYNCHRONOUS_WORD, 11) == 0;
    if i >= 11 {
      BitShift(SYNCHRONOUS_WORD, 11, i - 11);
      BitOfZero(i - 11);
    }
  }

  /** The next signal when the first word, holding `b`, is not empty. */
  lemma NextFromFirst(b: set<int>, rest: set<int>, sig: int)
    requires forall s :: s in rest ==> s > 11 && forall y :: y in b ==> y < s
    requires if exists y :: y in b && y in SYNCHRONOUS
             then sig in b && sig in SYNCHRONOUS && forall y :: y in b && y in SYNCHRONOUS ==> sig <= y
             else sig in b && forall y :: y in b ==> sig <= y
    ensures IsNext(b + rest, sig)
  {
    assert sig in b + rest;
  }

  lemma FirstWordBits(x: nat, bpw: nat)
    requires x > 0 && bpw >= 11 && Fits(x, bpw)
    ensures var b, sync := Bits(x, bpw, 0), And(x, SYNCHRONOUS_WORD);
            var sig := LowestBit(if sync != 0 then sync else x) + 1;
            if exists y :: y in b && y in SYNCHRONOUS
            then sync != 0 && sig in b && sig in SYNCHRONOUS && forall y :: y in b && y in SYNCHRONOUS ==> sig <= y
            else sync == 0 && sig in b && forall y :: y in b ==> sig <= y
  {
    var sync := And(x, SYNCHRONOUS_WORD);
    LeastOfWord(x, bpw, 0);
    forall s: int
      ensures s in Bits(sync, bpw, 0) <==> s in Bits(x, bpw, 0) && s in SYNCHRONOUS
    {
      BitsMember(x, bpw, 0, s);
      BitsMember(sync, bpw, 0, s);
      if 0 < s <= bpw {
        BitAnd(x, SYNCHRONOUS_WORD, s - 1);
        SynchronousBits(s - 1);
      }
    }
    if sync != 0 {
      forall i: nat | i >= bpw
        ensures !Bit(sync, i)
      {
        BitAnd(x, SYNCHRONOUS_WORD, i);
      }
      LeastOfWord(sync, bpw, 0);
    } else {
      BitsOfZero(bpw, 0);
    }
  }

  /** The first word alone: synchronous signals first, then the lowest. */
  lemma FirstWordNext(ws: seq<nat>, bpw: nat)
    requires ws != [] && ws[0] > 0 && bpw >= 11 && AllFit(ws, bpw)
    ensures var sync := And(ws[0], SYNCHRONOUS_WORD);
            IsNext(SetOf(ws, bpw, 0), LowestBit(if sync != 0 then sync else ws[0]) + 1)
  {
    var sync := And(ws[0], SYNCHRONOUS_WORD);
    assert Fits(ws[0], bpw);
    FirstWordBits(ws[0], bpw);
    SetAbove(ws[1..], bpw, bpw);
    forall s, y | s in SetOf(ws[1..], bpw, bpw) && y in Bits(ws[0], bpw, 0)
      ensures y < s
    {
      BitsMember(ws[0], bpw, 0, y);
    }
    assert SetOf(ws, bpw, 0) == Bits(ws[0], bpw, 0) + SetOf(ws[1..], bpw, bpw);
    NextFromFirst(Bits(ws[0], bpw, 0), SetOf(ws[1..], bpw, bpw), LowestBit(if sync != 0 then sync else ws[0]) + 1);
  }

  lemma Multiple(k: nat, bpw: nat)
    requires k > 0
    ensures k * bpw >= bpw
  {
    assert k * bpw == bpw + (k - 1) * bpw;
  }

  /** Later words: the lowest signal of the first word that is not zero. */
  lemma LaterWordNext(ws: seq<nat>, bpw: nat, k: nat)
    requires 0 < k < |ws| && ws[k] > 0 && bpw >= 11 && AllFit(ws, bpw)
    requires forall j :: 0 <= j < k ==> ws[j] == 0
    ensures IsNext(SetOf(ws, bpw, 0), LowestBit(ws[k]) + k * bpw + 1)
  {
    var base := k * bpw;
    Multiple(k, bpw);
    SkipZeros(ws, bpw, 0, k);
    assert Fits(ws[k], bpw);
    LaterWordLeast(ws[k..], bpw, base);
  }

  lemma LaterWordLeast(ws: seq<nat>, bpw: nat, base: nat)
    requires ws != [] && ws[0] > 0 && Fits(ws[0], bpw) && base >= 11
    ensures IsNext(SetOf(ws, bpw, base), LowestBit(ws[0]) + base + 1)
  {
    var b, rest := Bits(ws[0], bpw, base), SetOf(ws[1..], bpw, base + bpw);
    LeastOfWord(ws[0], bpw, base);
    SetAbove(ws[1..], bpw, base + bpw);
    forall y | y in b
      ensures base < y <= base + bpw
    {
      BitsMember(ws[0], bpw, base, y);
    }
    NextFromFirst(b, rest, LowestBit(ws[0]) + base + 1);
  }

  lemma AllZero(ws: seq<nat>, bpw: nat)
    requires forall j :: 0 <= j < |ws| ==> ws[j] == 0
    ensures SetOf(ws, bpw, 0) == {}
  {
    SkipZeros(ws, bpw, 0, |ws|);
  }

  lemma NonZero(ws: seq<nat>, bpw: nat, base: nat, k: nat)
    requires k < |ws| && ws[k] > 0 && AllFit(ws, bpw)
    ensures SetOf(ws, bpw, base) != {}
    decreases k
  {
    if k == 0 {
      assert Fits(ws[0], bpw);
      LeastOfWord(ws[0], bpw, base);
      assert base + LowestBit(ws[0]) + 1 in SetOf(ws, bpw, base);
    } else {
      forall j | 0 <= j < |ws[1..]|
        ensures Fits(ws[1..][j], bpw)
      {
        assert Fits(ws[j + 1], bpw);
      }
      NonZero(ws[1..], bpw, base + bpw, k - 1);
    }
  }

  lemma ReadyFits(s: seq<nat>, m: seq<nat>, bpw: nat)
    requires |s| == |m| && AllFit(s, bpw)
    ensures AllFit(Ready(s, m), bpw)
  {
    forall k | 0 <= k < |s|
      ensures Fits(Ready(s, m)[k], bpw)
    {
      assert Fits(s[k], bpw);
      forall i: nat | i >= bpw
        ensures !Bit(AndNot(s[k], m[k]), i)
      {
        BitAndNot(s[k], m[k], i);
      }
    }
  }

  /** next_signal: for every number of words, the unrolled cases and the loop all
      return what is to be serviced next. */
  method NextSignalWords(s: seq<nat>, m: seq<nat>, bpw: nat) returns (sig: int)
    requires |s| == |m| > 0 && bpw >= 11 && AllFit(s, bpw)
    ensures IsNext(SetOf(s, bpw, 0) - SetOf(m, bpw, 0), sig)
  {
    ghost var r := Ready(s, m);
    ReadyIsDifference(s, m, bpw, 0);
    ReadyFits(s, m, bpw);
    sig := 0;
    var x := AndNot(s[0], m[0]);
    if x != 0 {
      FirstWordNext(r, bpw);
      if And(x, SYNCHRONOUS_WORD) != 0 {
        x := And(x, SYNCHRONOUS_WORD);
      }
      sig := LowestBit(x) + 1;
      return;
    }
    if |s| == 1 {
      AllZero(r, bpw);
    } else if |s| == 2 {
      x := AndNot(s[1], m[1]);
      if x == 0 {
        AllZero(r, bpw);
        return;
      }
      LaterWordNext(r, bpw, 1);
      sig := LowestBit(x) + bpw + 1;
    } else {
      var i := 1;
      while i < |s|
        invariant 1 <= i <= |s| && forall j :: 0 <= j < i ==> r[j] == 0
      {
        x := AndNot(s[i], m[i]);
        if x != 0 {
          LaterWordNext(r, bpw, i);
          sig := LowestBit(x) + i * bpw + 1;
          return;
        }
        i := i + 1;
      }
      AllZero(r, bpw);
    }
  }

  lemma OrIsZero(x: nat, y: nat)
    ensures Or(x, y) == 0 <==> x == 0 && y == 0
  {
  }

  /** has_pending_signals: the unrolled cases and the downward loop all tell
      whether a signal is set that is not blocked. */
  method HasPendingWords(signal: seq<nat>, blocked: seq<nat>, bpw: nat) returns (pending: bool)
    requires |signal| == |blocked| > 0 && AllFit(signal, bpw)
    ensures pending <==> SetOf(signal, bpw, 0) - SetOf(blocked, bpw, 0) != {}
  {
    ghost var r := Ready(signal, blocked);
    ReadyIsDifference(signal, blocked, bpw, 0);
    ReadyFits(signal, blocked, bpw);
    var ready := 0;
    if |signal| == 4 {
      ready := AndNot(signal[3], blocked[3]);
      OrIsZero(ready, r[2]);
      ready := Or(ready, AndNot(signal[2], blocked[2]));
      OrIsZero(ready, r[1]);
      ready := Or(ready, AndNot(signal[1], blocked[1]));
      OrIsZero(ready, r[0]);
      ready := Or(ready, AndNot(signal[0], blocked[0]));
      assert ready == 0 <==> r[0] == r[1] == r[2] == r[3] == 0;
    } else if |signal| == 2 {
      ready := AndNot(signal[1], blocked[1]);
      OrIsZero(ready, r[0]);
      ready := Or(ready, AndNot(signal[0], blocked[0]));
      assert ready == 0 <==> r[0] == r[1] == 0;
    } else if |signal| == 1 {
      ready := AndNot(signal[0], blocked[0]);
      assert ready == r[0];
    } else {
      var i := |signal|;
      while i > 0
        invariant 0 <= i <= |signal|
        invariant ready == 0 <==> forall j :: i <= j < |signal| ==> r[j] == 0
      {
        i := i - 1;
        OrIsZero(ready, AndNot(signal[i], blocked[i]));
        assert r[i] == AndNot(signal[i], blocked[i]);
        ready := Or(ready, AndNot(signal[i], blocked[i]));
      }
    }
    pending := ready != 0;
    if forall j :: 0 <= j < |r| ==> r[j] == 0 {
      AllZero(r, bpw);
    } else {
      ghost var k: nat :| k < |r| && r[k] != 0;
      NonZero(r, bpw, 0, k);
    }
  }

  // -------------------------------------------------------------------- smunch

  lemma BitsOfOr(x: nat, y: nat, bpw: nat, base: nat)
    ensures Bits(Or(x, y), bpw, base) == Bits(x, bpw, base) + Bits(y, bpw, base)
  {
    forall s: int
      ensures s in Bits(Or(x, y), bpw, base) <==> s in Bits(x, bpw, base) || s in Bits(y, bpw, base)
    {
      BitsMember(x, bpw, base, s);
      BitsMember(y, bpw, base, s);
      BitsMember(Or(x, y), bpw, base, s);
      if base < s <= base + bpw {
        BitOr(x, y, s - base - 1);
      }
    }
  }

  /** The two halves of a 64-bit pattern are the pattern. */
  lemma HalvesOfPattern(p: nat)
    ensures Bits(p, 64, 0) == Bits(Low(p, 32), 32, 0) + Bits(Shift(p, 32), 32, 32)
  {
    forall s: int
      ensures s in Bits(p, 64, 0) <==> s in Bits(Low(p, 32), 32, 0) || s in Bits(Shift(p, 32), 32, 32)
    {
      BitsMember(p, 64, 0, s);
      BitsMember(Low(p, 32), 32, 0, s);
      BitsMember(Shift(p, 32), 32, 32, s);
      if 0 < s <= 32 {
        BitLow(p, 32, s - 1);
      } else if 32 < s <= 64 {
        BitShift(p, 32, s - 33);
      }
    }
  }

  lemma SetOfOne(w: nat, bpw: nat)
    ensures SetOf([w], bpw, 0) == Bits(w, bpw, 0)
  {
    assert SetOf([w][1..], bpw, bpw) == {};
  }

  lemma SetOfTwo(v: nat, w: nat, bpw: nat)
    ensures SetOf([v, w], bpw, 0) == Bits(v, bpw, 0) + Bits(w, bpw, bpw)
  {
    assert [v, w][1..] == [w];
    assert [w][1..] == [];
    assert SetOf([], bpw, bpw + bpw) == {};
  }

  /** The one-word and the two-word write both add exactly the pattern's signals. */
  lemma SmunchWritesAgree(w: nat, lo: nat, hi: nat, p: nat)
    ensures SetOf([Or(w, p)], 64, 0) == SetOf([w], 64, 0) + Bits(p, 64, 0)
    ensures SetOf([Or(lo, Low(p, 32)), Or(hi, Shift(p, 32))], 32, 0) == SetOf([lo, hi], 32, 0) + Bits(p, 64, 0)
  {
    SetOfOne(w, 64);
    SetOfOne(Or(w, p), 64);
    BitsOfOr(w, p, 64, 0);
    SetOfTwo(lo, hi, 32);
    SetOfTwo(Or(lo, Low(p, 32)), Or(hi, Shift(p, 32)), 32);
    BitsOfOr(lo, Low(p, 32), 32, 0);
    BitsOfOr(hi, Shift(p, 32), 32, 32);
    HalvesOfPattern(p);
  }

  const SIGKILL_WORD := 0x100

  lemma KillBitOnly(i: nat)
    ensures Bit(SIGKILL_WORD, i) <==> i == 8
  {
    assert Shift(SIGKILL_WORD, 9) == 0;
    if i >= 9 {
      BitShift(SIGKILL_WORD, 9, i - 9);
      BitOfZero(i - 9);
    }
  }

  lemma KillWord(bpw: nat)
    requires bpw >= 9
    ensures Bits(SIGKILL_WORD, bpw, 0) == {SIGKILL}
  {
    forall i: nat
      ensures Bit(SIGKILL_WORD, i) <==> i == 8
    {
      KillBitOnly(i);
    }
    BitsMember(SIGKILL_WORD, bpw, 0, 9);
  }

  lemma HasKill(p: nat)
    ensures And(p, SIGKILL_WORD) != 0 <==> SIGKILL in Bits(p, 64, 0)
  {
    BitsMember(p, 64, 0, SIGKILL);
    BitAnd(p, SIGKILL_WORD, 8);
    var a := And(p, SIGKILL_WORD);
    if a == 0 {
      BitOfZero(8);
    } else {
      LowestIsLowest(a);
      BitAnd(p, SIGKILL_WORD, LowestBit(a));
      KillBitOnly(LowestBit(a));
    }
  }

  /** The part of a task that smunch touches. */
  class SmunchTarget {
    var words: array<nat>
    var tif: bool
    var woken: bool
    var released: bool

    ghost predicate Valid()
      reads this
    {
      words.Length == 1 || words.Length == 2
    }

    /** 64-bit words if there is one, 32-bit words if there are two. */
    ghost function Pending(): set<int>
      reads this, words
      requires Valid()
    {
      SetOf(words[..], if words.Length == 1 then 64 else 32, 0)
    }

    /** smunch; `found` and `locked` are the outcomes of the look-up of the task
        and of lock_task_sighand. */
    method Smunch(pattern: nat, found: bool, locked: bool, solo: bool, zombie: bool) returns (r: int)
      requires Valid()
      modifies this`tif, this`woken, this`released, words
      ensures r == if found && locked && solo then 0 else -1
      ensures Pending() == old(Pending()) +
                if r != 0 || zombie then {} else if SIGKILL in Bits(pattern, 64, 0) then {SIGKILL}
                else Bits(pattern, 64, 0)
      ensures released <==> old(released) || (r == 0 && zombie && SIGKILL in Bits(pattern, 64, 0))
      ensures woken <==> old(woken) || (r == 0 && !zombie)
      ensures tif <==> old(tif) || (r == 0 && !zombie && SIGKILL !in Bits(pattern, 64, 0))
    {
      if !found {
        return -1;
      }
      if !locked {
        return -1;
      }
      if !solo {
        return -1;
      }
      HasKill(pattern);
      var kill := And(pattern, SIGKILL_WORD) != 0;
      if zombie && kill {
        released := true;
      } else if zombie && !kill {
      } else if !zombie && kill {
        AddKill();
        woken := true;
      } else {
        AddPattern(pattern);
        tif, woken := true, true;
      }
      return 0;
    }

    /** sigaddset(SIGKILL). */
    method AddKill()
      requires Valid()
      modifies words
      ensures Pending() == old(Pending()) + {SIGKILL}
    {
      ghost var bpw := if words.Length == 1 then 64 else 32;
      ghost var old0 := words[0];
      words[0] := Or(words[0], SIGKILL_WORD);
      BitsOfOr(old0, SIGKILL_WORD, bpw, 0);
      KillWord(bpw);
      assert words[..][1..] == old(words[..])[1..];
    }

    /** The direct writes of the bit pattern. */
    method AddPattern(pattern: nat)
      requires Valid()
      modifies words
      ensures Pending() == old(Pending()) + Bits(pattern, 64, 0)
    {
      ghost var before := words[..];
      if words.Length == 1 {
        words[0] := Or(words[0], pattern);
        SmunchWritesAgree(before[0], 0, 0, pattern);
        assert before == [before[0]] && words[..] == [Or(before[0], pattern)];
      } else {
        words[0] := Or(words[0], Low(pattern, 32));
        words[1] := Or(words[1], Shift(pattern, 32));
        SmunchWritesAgree(0, before[0], before[1], pattern);
        assert before == [before[0], before[1]];
        assert words[..] == [Or(before[0], Low(pattern, 32)), Or(before[1], Shift(pattern, 32))];
      }
    }
  }
}
