/** CALC_LOAD: the fixed-point exponential average of the run-queue length. */
module LoadAverage {
  /** 1.0 with 11 fractional bits. */
  const FIXED_1 := 2048

  const EXP_1 := 1884

  /** One step: load * exp + n * (FIXED_1 - exp), shifted right by 11. */
  function CalcLoad(load: nat, exp: nat, n: nat): nat
    requires exp <= FIXED_1
  {
    MulNonNeg(load, exp);
    MulNonNeg(n, FIXED_1 - exp);
    (load * exp + n * (FIXED_1 - exp)) / FIXED_1
  }

  lemma MulNonNeg(a: nat, b: nat)
    ensures a * b >= 0
  {
  }

  function Iterate(load: nat, exp: nat, n: nat, k: nat): nat
    requires exp <= FIXED_1
  {
    if k == 0 then load else CalcLoad(Iterate(load, exp, n, k - 1), exp, n)
  }

  /** The three in-place statements of the macro in 32-bit arithmetic: with load
      and n below 2^21 no intermediate value overflows. */
  method CalcLoadInPlace(load0: nat, exp: nat, n: nat) returns (load: nat)
    requires exp <= FIXED_1 && load0 < 0x200000 && n < 0x200000
    ensures load == CalcLoad(load0, exp, n)
    ensures load < 0x200000
  {
    NoOverflow(load0, exp, n);
    load := load0;
    load := load * exp;
    assert load < 0x1_0000_0000;
    load := load + n * (FIXED_1 - exp);
    assert load < 0x1_0000_0000;
    load := load / FIXED_1;
  }

  lemma NoOverflow(load: nat, exp: nat, n: nat)
    requires exp <= FIXED_1 && load < 0x200000 && n < 0x200000
    ensures load * exp <= 0x1F_FFFF * exp
    ensures n * (FIXED_1 - exp) <= 0x1F_FFFF * (FIXED_1 - exp)
    ensures load * exp + n * (FIXED_1 - exp) <= 0x1F_FFFF * FIXED_1
  {
    MulMono(load, 0x1F_FFFF, exp);
    MulMono(n, 0x1F_FFFF, FIXED_1 - exp);
    assert 0x1F_FFFF * exp + 0x1F_FFFF * (FIXED_1 - exp) == 0x1F_FFFF * FIXED_1;
  }

  lemma MulMono(a: nat, b: nat, c: nat)
    requires a <= b
    ensures a * c <= b * c
  {
  }

  // -------------------------------------------------------- distance to n

  /** From above the excess over n shrinks to floor(excess * exp / FIXED_1). */
  lemma FromAbove(n: nat, d: nat, exp: nat)
    requires exp <= FIXED_1
    ensures CalcLoad(n + d, exp, n) == n + d * exp / FIXED_1
  {
    assert (n + d) * exp + n * (FIXED_1 - exp) == n * FIXED_1 + d * exp;
  }

  /** From below the gap to n shrinks to ceil(gap * exp / FIXED_1). */
  lemma FromBelow(load: nat, d: nat, exp: nat)
    requires exp <= FIXED_1
    ensures var gap := (d * exp + FIXED_1 - 1) / FIXED_1;
            gap <= d && CalcLoad(load, exp, load + d) == load + d - gap
  {
    var n := load + d;
    var gap := (d * exp + FIXED_1 - 1) / FIXED_1;
    MulMono(exp, FIXED_1, d);
    assert load * exp + n * (FIXED_1 - exp) == n * FIXED_1 - d * exp;
    Ceiling(n, d * exp);
  }

  lemma Ceiling(n: nat, x: nat)
    requires x <= n * FIXED_1
    ensures (n * FIXED_1 - x) / FIXED_1 == n - (x + FIXED_1 - 1) / FIXED_1
  {
  }

  /** The gap stays put exactly when it is too small to matter. */
  lemma GapShrinks(d: nat, exp: nat)
    requires exp <= FIXED_1
    ensures var gap := (d * exp + FIXED_1 - 1) / FIXED_1;
            gap <= d && (gap == d <==> d * (FIXED_1 - exp) < FIXED_1)
  {
    assert d * exp + d * (FIXED_1 - exp) == d * FIXED_1;
    var x := d * (FIXED_1 - exp);
    assert d * exp + FIXED_1 - 1 == d * FIXED_1 - x + FIXED_1 - 1;
  }

  lemma ExcessShrinks(d: nat, exp: nat)
    requires exp < FIXED_1
    ensures d * exp / FIXED_1 <= d
    ensures d > 0 ==> d * exp / FIXED_1 < d
  {
    MulMono(exp, FIXED_1 - 1, d);
    assert d * exp <= d * (FIXED_1 - 1);
  }

  /** One step never leaves the interval between the old load and n. */
  lemma StepStaysBetween(load: nat, exp: nat, n: nat)
    requires exp < FIXED_1
    ensures load <= n ==> load <= CalcLoad(load, exp, n) <= n
    ensures load >= n ==> n <= CalcLoad(load, exp, n) <= load
    ensures load > n ==> CalcLoad(load, exp, n) < load
    ensures load <= n ==> (CalcLoad(load, exp, n) == load <==> (n - load) * (FIXED_1 - exp) < FIXED_1)
  {
    if load >= n {
      FromAbove(n, load - n, exp);
      ExcessShrinks(load - n, exp);
    }
    if load <= n {
      FromBelow(load, n - load, exp);
      GapShrinks(n - load, exp);
    }
  }

  // ------------------------------------------------------------- iteration

  /** Every iterate lies between the initial load and n. */
  lemma {:induction false} IteratesStayBetween(load: nat, exp: nat, n: nat, k: nat)
    requires exp < FIXED_1
    ensures load <= n ==> load <= Iterate(load, exp, n, k) <= n
    ensures load >= n ==> n <= Iterate(load, exp, n, k) <= load
  {
    if k > 0 {
      IteratesStayBetween(load, exp, n, k - 1);
      StepStaysBetween(Iterate(load, exp, n, k - 1), exp, n);
    }
  }

  lemma {:induction false} ExcessAfter(load: nat, exp: nat, n: nat, k: nat)
    requires exp < FIXED_1 && load >= n
    ensures n <= Iterate(load, exp, n, k)
    ensures k <= load - n ==> Iterate(load, exp, n, k) <= load - k
  {
    if k > 0 {
      ExcessAfter(load, exp, n, k - 1);
      StepStaysBetween(Iterate(load, exp, n, k - 1), exp, n);
    }
  }

  /** From above the average reaches n exactly, after at most load - n steps, and
      then stays there. */
  lemma {:induction false} ReachesFromAbove(load: nat, exp: nat, n: nat, k: nat)
    requires exp < FIXED_1 && load >= n && k >= load - n
    ensures Iterate(load, exp, n, k) == n
  {
    if k == load - n {
      ExcessAfter(load, exp, n, k);
    } else {
      ReachesFromAbove(load, exp, n, k - 1);
      StepStaysBetween(n, exp, n);
    }
  }

  /** The average has come as close to n from below as its precision allows. */
  predicate Settled(load: nat, exp: nat, n: nat)
    requires exp <= FIXED_1 && load <= n
  {
    (n - load) * (FIXED_1 - exp) < FIXED_1
  }

  lemma {:induction false} SettlesOrRises(load: nat, exp: nat, n: nat, k: nat)
    requires exp < FIXED_1 && load <= n
    ensures load <= Iterate(load, exp, n, k) <= n
    ensures Settled(Iterate(load, exp, n, k), exp, n) || Iterate(load, exp, n, k) >= load + k
  {
    if k > 0 {
      SettlesOrRises(load, exp, n, k - 1);
      StepStaysBetween(Iterate(load, exp, n, k - 1), exp, n);
    }
  }

  /** The largest gap that one step leaves alone. */
  function StandingGap(exp: nat): nat
    requires exp < FIXED_1
  {
    (FIXED_1 - 1) / (FIXED_1 - exp)
  }

  function Min(a: nat, b: nat): nat {
    if a < b then a else b
  }

  lemma QuotientIsLargest(d: nat, b: nat)
    requires 0 < b <= FIXED_1
    ensures d * b < FIXED_1 <==> d <= (FIXED_1 - 1) / b
  {
    var q := (FIXED_1 - 1) / b;
    assert q * b <= FIXED_1 - 1 < (q + 1) * b;
    if d <= q {
      MulMono(d, q, b);
    } else {
      MulMono(q + 1, d, b);
    }
  }

  /** A gap too small to matter stands still exactly up to the standing gap. */
  lemma StandingGapMeaning(d: nat, exp: nat)
    requires exp < FIXED_1
    ensures d * (FIXED_1 - exp) < FIXED_1 <==> d <= StandingGap(exp)
  {
    QuotientIsLargest(d, FIXED_1 - exp);
  }

  lemma CeilingMono(a: nat, b: nat)
    requires a <= b
    ensures (a + FIXED_1 - 1) / FIXED_1 <= (b + FIXED_1 - 1) / FIXED_1
  {
  }

  /** A gap of at least m, where m would stand still, does not fall below m. */
  lemma GapStaysAbove(load: nat, exp: nat, n: nat, m: nat)
    requires exp < FIXED_1 && load <= n && m <= n - load && m <= StandingGap(exp)
    ensures CalcLoad(load, exp, n) <= n - m
  {
    var d := n - load;
    FromBelow(load, d, exp);
    StandingGapMeaning(m, exp);
    GapShrinks(m, exp);
    MulMono(m, d, exp);
    CeilingMono(m * exp, d * exp);
  }

  lemma {:induction false} GapNeverBelow(load: nat, exp: nat, n: nat, k: nat)
    requires exp < FIXED_1 && load <= n
    ensures Iterate(load, exp, n, k) <= n - Min(n - load, StandingGap(exp))
  {
    if k > 0 {
      GapNeverBelow(load, exp, n, k - 1);
      IteratesStayBetween(load, exp, n, k - 1);
      GapStaysAbove(Iterate(load, exp, n, k - 1), exp, n, Min(n - load, StandingGap(exp)));
    }
  }

  lemma {:induction false} SettledStaysSettled(load: nat, exp: nat, n: nat, k: nat)
    requires exp < FIXED_1 && load <= n && k >= n - load
    ensures load <= Iterate(load, exp, n, k) <= n && Settled(Iterate(load, exp, n, k), exp, n)
  {
    SettlesOrRises(load, exp, n, k);
  }

  /** From below the average rises, within n - load steps, to an exactly known
      gap, and moves no further: the gap it started with or (FIXED_1 - 1) /
      (FIXED_1 - exp), whichever is smaller. */
  lemma SettlesFromBelow(load: nat, exp: nat, n: nat, k: nat)
    requires exp < FIXED_1 && load <= n && k >= n - load
    ensures Iterate(load, exp, n, k) == n - Min(n - load, (FIXED_1 - 1) / (FIXED_1 - exp))
  {
    SettledStaysSettled(load, exp, n, k);
    StandingGapMeaning(n - Iterate(load, exp, n, k), exp);
    GapNeverBelow(load, exp, n, k);
  }

  /** With full weight on the old load the average never moves. */
  lemma {:induction false} FullWeightStays(load: nat, n: nat, k: nat)
    ensures Iterate(load, FIXED_1, n, k) == load
  {
    if k > 0 {
      FullWeightStays(load, n, k - 1);
    }
  }

  lemma StandingGapIsZero(exp: nat)
    requires exp < FIXED_1
    ensures StandingGap(exp) == 0 <==> exp == 0
  {
    StandingGapMeaning(1, exp);
  }

  /** From below n is never reached unless the load started there or the old load
      has no weight at all. */
  lemma StaysShort(load: nat, exp: nat, n: nat, k: nat)
    requires 0 < exp <= FIXED_1 && load < n
    ensures Iterate(load, exp, n, k) < n
  {
    if exp == FIXED_1 {
      FullWeightStays(load, n, k);
    } else {
      GapNeverBelow(load, exp, n, k);
      StandingGapIsZero(exp);
    }
  }

  ghost predicate Reaches(load: nat, exp: nat, n: nat)
    requires exp <= FIXED_1
  {
    exists k: nat :: Iterate(load, exp, n, k) == n
  }

  /** From below n is reached if and only if the load starts at n or exp is 0. */
  lemma ReachedFromBelowIff(load: nat, exp: nat, n: nat)
    requires exp <= FIXED_1 && load <= n
    ensures Reaches(load, exp, n) <==> load == n || exp == 0
  {
    if load == n {
      assert Iterate(load, exp, n, 0) == n;
    } else if exp == 0 {
      SettlesFromBelow(load, exp, n, n - load);
      assert Iterate(load, exp, n, n - load) == n;
    } else {
      forall k: nat
        ensures Iterate(load, exp, n, k) < n
      {
        StaysShort(load, exp, n, k);
      }
    }
  }

  /** For any load: n is reached exactly if the average starts there, forgets the
      old load at once, or comes from above with any weight on n. */
  lemma ReachedIff(load: nat, exp: nat, n: nat)
    requires exp <= FIXED_1
    ensures Reaches(load, exp, n) <==> load == n || exp == 0 || (load > n && exp < FIXED_1)
  {
    if load <= n {
      ReachedFromBelowIff(load, exp, n);
    } else if exp < FIXED_1 {
      ReachesFromAbove(load, exp, n, load - n);
      assert Iterate(load, exp, n, load - n) == n;
    } else {
      forall k: nat
        ensures Iterate(load, exp, n, k) == load
      {
        FullWeightStays(load, n, k);
      }
    }
  }

  /** An instance: with EXP_1 one runnable task that starts from idle ends twelve
      units of 1/2048 short. */
  lemma GapIsReal(k: nat)
    requires k >= FIXED_1
    ensures Iterate(0, EXP_1, FIXED_1, k) == FIXED_1 - 12
  {
    SettlesFromBelow(0, EXP_1, FIXED_1, k);
  }
}
