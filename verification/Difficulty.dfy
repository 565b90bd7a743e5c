/** LWMA-1 retarget and median-time-past (crates/nightfall-consensus/src/difficulty.rs). */
module Difficulty {
  import opened Words
  import opened Curve
  import opened Sorting

  const WINDOW: nat := 90
  const TARGET: nat := 15
  const MIN_SOLVETIME: int := -75
  const MAX_SOLVETIME: int := 90
  /** What the weights 1 to 90 make of a window whose blocks all took the target time. */
  const PACED: nat := 61_425
  const TWO63: int := 0x8000_0000_0000_0000

  /** One pair of timestamp and difficulty per block, lowest block first. */
  type History = seq<(u64, u64)>

  function Max(a: int, b: int): int {
    if a >= b then a else b
  }

  function Min(a: int, b: int): int {
    if a <= b then a else b
  }

  /** `x.clamp(lo, hi)`; the caller owes `lo <= hi`. */
  function Clamp(x: int, lo: int, hi: int): int {
    if x < lo then lo else if x > hi then hi else x
  }

  /** Reinterpretation of 64 bits as a signed integer, and wrapping signed subtraction. */
  function AsI64(x: int): int {
    if x >= TWO63 then x - TWO64 else if x < -TWO63 then x + TWO64 else x
  }

  function Solvetime(prev: u64, this_: u64): int {
    Clamp(AsI64(AsI64(this_) - AsI64(prev)), MIN_SOLVETIME, MAX_SOLVETIME)
  }

  /** Σ_{1 ≤ j ≤ i} j · solvetime(j). */
  function Weighted(w: History, i: nat): int
    requires i < |w|
  {
    if i == 0 then 0 else Weighted(w, i - 1) + Solvetime(w[i - 1].0, w[i].0) * i
  }

  /** Σ_{1 ≤ j ≤ i} difficulty(j). */
  function DifficultySum(w: History, i: nat): nat
    requires i < |w|
  {
    if i == 0 then 0 else DifficultySum(w, i - 1) + w[i].1
  }

  function Average(w: History): nat
    requires |w| == WINDOW + 1
  {
    DifficultySum(w, WINDOW) / WINDOW
  }

  /** The retarget from an average difficulty and a weighted solve time. */
  function Retarget(avg: nat, weighted: int, floor: u64): u64 {
    var next := avg * PACED / Max(weighted, PACED / 10);
    var clamped := Clamp(next, Max(avg / 2, 1), avg * 2);
    Max(Min(clamped, TWO64 - 1), floor)
  }

  function NextDifficulty(history: History, initial: u64, floor: u64): u64 {
    if |history| < WINDOW + 1 then Max(initial, floor)
    else
      var w := history[|history| - (WINDOW + 1)..];
      Retarget(Average(w), Weighted(w, WINDOW), floor)
  }

  /** The loop of `next_difficulty`, with its two accumulators. */
  method NextDifficultyLoop(history: History, initial: u64, floor: u64) returns (next: u64)
    ensures next == NextDifficulty(history, initial, floor)
  {
    if |history| < WINDOW + 1 {
      return Max(initial, floor);
    }
    var w := history[|history| - (WINDOW + 1)..];
    var weighted, sum := 0, 0;
    for i := 1 to WINDOW + 1
      invariant weighted == Weighted(w, i - 1) && sum == DifficultySum(w, i - 1)
    {
      weighted := weighted + Solvetime(w[i - 1].0, w[i].0) * i;
      sum := sum + w[i].1;
    }
    if weighted < PACED / 10 {
      weighted := PACED / 10;
    }
    var avg := sum / WINDOW;
    var clamped := Clamp(avg * PACED / Max(weighted, 1), Max(avg / 2, 1), avg * 2);
    next := Max(Min(clamped, TWO64 - 1), floor);
  }

  // ------------------------------------------------------- exact bounds --

  /** The result is at least the floor; floor and 64-bit ceiling aside it stays within [avg/2, 2·avg]. */
  lemma {:induction false} RetargetBounds(avg: nat, weighted: int, floor: u64)
    requires avg >= 1
    ensures Max(avg / 2, 1) <= avg * 2
    ensures var r := Retarget(avg, weighted, floor);
            && floor <= r
            && (r != floor ==> r <= avg * 2)
            && (r != TWO64 - 1 ==> avg / 2 <= r)
  {
  }

  /** A window of recorded difficulties ≥ 1 has an average ≥ 1, so the clamp's bounds are in order. */
  lemma {:induction false} AverageBounds(w: History, i: nat, lo: nat, hi: nat)
    requires i < |w| && forall j :: 0 <= j <= i ==> lo <= w[j].1 <= hi
    ensures lo * i <= DifficultySum(w, i) <= hi * i
  {
    if i > 0 {
      AverageBounds(w, i - 1, lo, hi);
      OneMoreTerm(lo, i);
      OneMoreTerm(hi, i);
    }
  }

  lemma {:induction false} OneMoreTerm(a: nat, i: nat)
    requires i > 0
    ensures a * i == a * (i - 1) + a
  {
  }

  lemma {:induction false} ClampWellFormed(w: History)
    requires |w| == WINDOW + 1 && forall j :: 0 <= j < |w| ==> w[j].1 >= 1
    ensures Average(w) >= 1 && Max(Average(w) / 2, 1) <= Average(w) * 2
  {
    AverageBounds(w, WINDOW, 1, TWO64);
  }

  lemma {:induction false} DivMonotone(a: nat, b: nat, d: nat, e: nat)
    requires a <= b && 0 < e <= d
    ensures a / d <= b / e
  {
    var q := a / d;
    assert q * d <= a;
    assert q * e <= q * d;
    assert q * e <= b;
    var p := b / e;
    assert b < (p + 1) * e;
    assert p < q ==> (p + 1) * e <= q * e;
  }

  lemma {:induction false} DivExact(a: nat, d: nat)
    requires d > 0
    ensures a * d / d == a
  {
    var n := a * d;
    var q := n / d;
    assert q * d <= n < (q + 1) * d;
    assert q < a ==> (q + 1) * d <= a * d;
    assert q > a ==> (a + 1) * d <= q * d;
  }

  lemma {:induction false} PlainSolvetime(prev: u64, this_: u64)
    requires prev < TWO63 && this_ < TWO63
    ensures Solvetime(prev, this_) == Clamp(this_ - prev, MIN_SOLVETIME, MAX_SOLVETIME)
  {
  }

  /** A timestamp of 2^63 or more is read as negative; a forward step across 2^63 still gives the plain difference. */
  lemma {:induction false} SolvetimeWraps(prev: u64, this_: u64)
    requires 0 <= this_ - prev < TWO63
    ensures Solvetime(prev, this_) == Min(this_ - prev, MAX_SOLVETIME)
  {
  }

  /** A solve time is the clamped difference of its timestamps exactly when that difference fits 64 signed bits. */
  lemma {:induction false} SolvetimeExactly(prev: u64, this_: u64)
    ensures Solvetime(prev, this_) == Clamp((this_ as int) - (prev as int), MIN_SOLVETIME, MAX_SOLVETIME)
            <==> -TWO63 <= (this_ as int) - (prev as int) < TWO63
  {
  }

  ghost function Triangular(i: nat): nat {
    if i == 0 then 0 else Triangular(i - 1) + i
  }

  lemma {:induction false} TriangularIs(i: nat)
    ensures 2 * Triangular(i) == i * (i + 1)
  {
    if i > 0 {
      TriangularIs(i - 1);
    }
  }

  lemma {:induction false} WeightWithin(s: int, i: nat)
    requires MIN_SOLVETIME <= s <= MAX_SOLVETIME
    ensures MIN_SOLVETIME * i <= s * i <= MAX_SOLVETIME * i
  {
  }

  /** The weighted sum of i solve times stays within the clamps times 1 + 2 + … + i. */
  lemma {:induction false} WeightedBounds(w: History, i: nat)
    requires i < |w|
    ensures MIN_SOLVETIME * Triangular(i) <= Weighted(w, i) <= MAX_SOLVETIME * Triangular(i)
  {
    hide Solvetime;
    if i > 0 {
      WeightedBounds(w, i - 1);
      SolvetimeInClamps(w[i - 1].0, w[i].0);
      WeightWithin(Solvetime(w[i - 1].0, w[i].0), i);
    }
  }

  lemma {:induction false} SolvetimeInClamps(prev: u64, this_: u64)
    ensures MIN_SOLVETIME <= Solvetime(prev, this_) <= MAX_SOLVETIME
  {
  }

  /** Nothing overflows: the weighted sum fits 64 signed bits, the sum of difficulties and the product 128 bits. */
  lemma {:induction false} NothingOverflows(w: History)
    requires |w| == WINDOW + 1
    ensures -307_125 <= Weighted(w, WINDOW) <= 368_550
    ensures DifficultySum(w, WINDOW) < TWO64 * TWO64 && Average(w) < TWO64 && Average(w) * PACED < TWO64 * TWO64
  {
    hide Weighted, DifficultySum, Triangular;
    WeightedBounds(w, WINDOW);
    TriangularIs(WINDOW);
    AverageBounds(w, WINDOW, 0, TWO64 - 1);
  }

  ghost predicate Paced(w: History, n: nat, d: u64)
    requires n < |w|
  {
    && (forall j :: 0 <= j <= n ==> w[j].1 == d)
    && (forall j :: 0 < j <= n ==> w[j].0 == w[j - 1].0 + TARGET)
  }

  lemma {:induction false} Triangle(n: nat)
    requires n > 0
    ensures TARGET * (n - 1) * n + 2 * (TARGET * n) == TARGET * n * (n + 1)
  {
    assert (n - 1) * n + 2 * n == n * (n + 1);
  }

  lemma {:induction false} PacedWeight(w: History, n: nat, d: u64)
    requires n < |w| && Paced(w, n, d)
    ensures 2 * Weighted(w, n) == TARGET * n * (n + 1)
    ensures DifficultySum(w, n) == n * d
  {
    hide Solvetime;
    if n > 0 {
      PacedWeight(w, n - 1, d);
      SolvetimeWraps(w[n - 1].0, w[n].0);
      assert Weighted(w, n) == Weighted(w, n - 1) + TARGET * n;
      Triangle(n);
      assert (n - 1) * d + d == n * d;
    }
  }

  /** A perfectly paced chain is an exact fixed point, at every difficulty and every start time. */
  lemma {:induction false} PacedIsFixedPoint(w: History, d: u64, floor: u64)
    requires |w| == WINDOW + 1 && Paced(w, WINDOW, d) && d >= 1
    ensures Retarget(Average(w), Weighted(w, WINDOW), floor) == Max(d, floor)
  {
    PacedWeight(w, WINDOW, d);
    DivExact(d, WINDOW);
    DivExact(d, PACED);
  }

  /** One arbitrary last block on a paced chain moves the difficulty only this far. */
  lemma {:induction false} OneBlockMovesLittle(w: History, d: u64, floor: u64)
    requires |w| == WINDOW + 1 && Paced(w, WINDOW - 1, d) && w[WINDOW].1 == d && d >= 1
    ensures Max(Max(d * PACED / 68_175, 1), floor) <= Retarget(Average(w), Weighted(w, WINDOW), floor)
    ensures Retarget(Average(w), Weighted(w, WINDOW), floor) <= Max(d * PACED / 53_325, floor)
  {
    PacedWeight(w, WINDOW - 1, d);
    DivExact(d, WINDOW);
    var weighted := Weighted(w, WINDOW);
    assert 53_325 <= weighted <= 68_175;
    DivMonotone(d * PACED, d * PACED, 68_175, weighted);
    DivMonotone(d * PACED, d * PACED, weighted, 53_325);
    DivMonotone(d * 53_325, d * PACED, 53_325, 53_325);
    DivExact(d, 53_325);
  }

  // ------------------------------------------------------- relational laws --

  ghost predicate Shifted(a: History, b: History, c: int) {
    && |a| == |b|
    && forall j :: 0 <= j < |a| ==> b[j].0 == a[j].0 + c && b[j].1 == a[j].1
  }

  lemma {:induction false} SolvetimeShift(p: u64, t: u64, p': u64, t': u64, c: int)
    requires p' == p + c && t' == t + c
    ensures Solvetime(p', t') == Solvetime(p, t)
  {
  }

  lemma {:induction false} WeightedShift(a: History, b: History, c: int, i: nat)
    requires Shifted(a, b, c) && i < |a|
    ensures Weighted(a, i) == Weighted(b, i) && DifficultySum(a, i) == DifficultySum(b, i)
  {
    if i > 0 {
      WeightedShift(a, b, c, i - 1);
      SolvetimeShift(a[i - 1].0, a[i].0, b[i - 1].0, b[i].0, c);
    }
  }

  /** Adding a constant to every timestamp never changes the retarget, even across 2^63. */
  lemma {:induction false} ShiftInvariant(a: History, b: History, c: int, initial: u64, floor: u64)
    requires Shifted(a, b, c)
    ensures NextDifficulty(a, initial, floor) == NextDifficulty(b, initial, floor)
  {
    if |a| >= WINDOW + 1 {
      var k := |a| - (WINDOW + 1);
      WeightedShift(a[k..], b[k..], c, WINDOW);
    }
  }

  /** `b` has the same difficulties as `a`, and every block of `b` took at least as long. */
  ghost predicate Slower(a: History, b: History) {
    && |a| == |b|
    && (forall j :: 0 <= j < |a| ==> b[j].1 == a[j].1)
    && (forall j :: 0 < j < |a| ==> Solvetime(a[j - 1].0, a[j].0) <= Solvetime(b[j - 1].0, b[j].0))
  }

  lemma {:induction false} WeightedMonotone(a: History, b: History, i: nat)
    requires Slower(a, b) && i < |a|
    ensures Weighted(a, i) <= Weighted(b, i) && DifficultySum(a, i) == DifficultySum(b, i)
  {
    if i > 0 {
      WeightedMonotone(a, b, i - 1);
      var s, t := Solvetime(a[i - 1].0, a[i].0), Solvetime(b[i - 1].0, b[i].0);
      assert s * i <= t * i;
    }
  }

  lemma {:induction false} RetargetMonotone(avg: nat, faster: int, slower: int, floor: u64)
    requires faster <= slower
    ensures Retarget(avg, slower, floor) <= Retarget(avg, faster, floor)
  {
    DivMonotone(avg * PACED, avg * PACED, Max(slower, PACED / 10), Max(faster, PACED / 10));
  }

  /** Slower blocks never raise the difficulty. */
  lemma {:induction false} SlowerNeverRaises(a: History, b: History, initial: u64, floor: u64)
    requires Slower(a, b)
    ensures NextDifficulty(b, initial, floor) <= NextDifficulty(a, initial, floor)
  {
    hide Solvetime, Weighted, Retarget, DifficultySum;
    if |a| >= WINDOW + 1 {
      var k := |a| - (WINDOW + 1);
      var u, v := a[k..], b[k..];
      forall j | 0 < j < |u| ensures Solvetime(u[j - 1].0, u[j].0) <= Solvetime(v[j - 1].0, v[j].0) {
        var i := k + j;
        assert 0 < i < |a| && u[j] == a[i] && v[j] == b[i] && u[j - 1] == a[i - 1] && v[j - 1] == b[i - 1];
      }
      WeightedMonotone(u, v, WINDOW);
      RetargetMonotone(Average(u), Weighted(u, WINDOW), Weighted(v, WINDOW), floor);
    }
  }

  /** `b` has the same difficulties as `a`, and no gap between timestamps is shorter; every gap fits 64 signed bits. */
  ghost predicate LongerGaps(a: History, b: History) {
    && |a| == |b|
    && (forall j :: 0 <= j < |a| ==> b[j].1 == a[j].1)
    && forall j :: 0 < j < |a| ==>
         -TWO63 <= (a[j].0 as int) - (a[j - 1].0 as int) <= (b[j].0 as int) - (b[j - 1].0 as int) < TWO63
  }

  /**
    Longer gaps between timestamps, difficulties being equal, never raise the difficulty.  Timestamps below 2^63 always
    have gaps that fit; a gap that does not is read with the wrong sign.
   */
  lemma {:induction false} LongerGapsNeverRaise(a: History, b: History, initial: u64, floor: u64)
    requires LongerGaps(a, b)
    ensures NextDifficulty(b, initial, floor) <= NextDifficulty(a, initial, floor)
  {
    hide NextDifficulty, Solvetime;
    forall j | 0 < j < |a| ensures Solvetime(a[j - 1].0, a[j].0) <= Solvetime(b[j - 1].0, b[j].0) {
      SolvetimeExactly(a[j - 1].0, a[j].0);
      SolvetimeExactly(b[j - 1].0, b[j].0);
    }
    SlowerNeverRaises(a, b, initial, floor);
  }

  /** The failing input: a gap of 2^63 seconds instead of none counts as the fastest block. */
  lemma {:induction false} HugeGapIsFast(prev: u64, this_: u64)
    requires this_ - prev >= TWO63 && this_ - prev <= TWO64 - 75
    ensures Solvetime(prev, this_) == MIN_SOLVETIME < Solvetime(prev, prev)
  {
  }

  ghost function TimestampSum(w: History, i: nat): int
    requires i <= |w|
  {
    if i == 0 then 0 else TimestampSum(w, i - 1) + w[i - 1].0
  }

  lemma {:induction false} Distribute(p: int, t: int, i: nat)
    ensures (t - p) * i == i * t - i * p && (i - 1) * p == i * p - p
  {
  }

  /** When no clamp binds the weighted sum telescopes to i·t_i − Σ_{j<i} t_j. */
  lemma {:induction false} WeightedTelescopes(w: History, i: nat)
    requires i < |w|
    requires forall j :: 0 < j <= i ==> Solvetime(w[j - 1].0, w[j].0) == (w[j].0 as int) - (w[j - 1].0 as int)
    ensures Weighted(w, i) == i * w[i].0 - TimestampSum(w, i)
  {
    hide Solvetime;
    if i > 0 {
      WeightedTelescopes(w, i - 1);
      Distribute(w[i - 1].0, w[i].0, i);
    }
  }
}
