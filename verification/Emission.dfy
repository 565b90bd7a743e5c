/** The halving schedule under a hard cap (crates/nightfall-consensus/src/lib.rs). */
module Emission {
  import opened Words
  import opened Curve

  datatype Schedule = Schedule(initial: u64, interval: u64, cap: u64)

  const MAINNET: Schedule := Schedule(600_000_000, 7_500_000, 9_000_000_000_000_000)

  /** `r >> n`. */
  function ShiftRight(r: nat, n: nat): nat {
    if n == 0 then r else ShiftRight(r, n - 1) / 2
  }

  lemma {:induction false} ShiftRightBounds(r: nat, n: nat)
    ensures ShiftRight(r, n) <= r
  {
    if n > 0 {
      ShiftRightBounds(r, n - 1);
    }
  }

  /** `theoretical_reward_at`. */
  function Theoretical(s: Schedule, height: nat): u64 {
    if s.initial == 0 || s.interval == 0 then 0
    else if height / s.interval >= 64 then 0
    else
      ShiftRightBounds(s.initial, height / s.interval);
      ShiftRight(s.initial, height / s.interval)
  }

  /** `reward_at`: clamped to the room left under the cap. */
  function RewardAt(s: Schedule, height: nat, minted: u64): u64 {
    if minted >= s.cap then 0
    else
      var theoretical := Theoretical(s, height);
      var room := s.cap - minted;
      if theoretical <= room then theoretical else room
  }

  /** What the first n blocks mint when the clamp is left out. */
  ghost function TheoreticalSum(s: Schedule, n: nat): nat {
    if n == 0 then 0 else TheoreticalSum(s, n - 1) + Theoretical(s, n - 1)
  }

  /** What the first n blocks mint under `reward_at`, each seeing the total before it. */
  ghost function Minted(s: Schedule, n: nat): (m: nat)
    ensures m <= s.cap
  {
    if n == 0 then 0 else Minted(s, n - 1) + RewardAt(s, n - 1, Minted(s, n - 1))
  }

  /** The sum of the first e era rewards. */
  ghost function EraSum(r: nat, e: nat): nat {
    if e == 0 then 0 else EraSum(r, e - 1) + ShiftRight(r, e - 1)
  }

  lemma {:induction false} EraSumBound(r: nat, e: nat)
    ensures EraSum(r, e) + 2 * ShiftRight(r, e) <= 2 * r
  {
    if e > 0 {
      EraSumBound(r, e - 1);
    }
  }

  /** The reward of every block of era e. */
  ghost function EraReward(r: nat, e: nat): nat {
    if e < 64 then ShiftRight(r, e) else 0
  }

  lemma {:induction false} BlocksOfEra(s: Schedule, e: nat, start: nat, j: nat)
    requires s.initial > 0 && s.interval > 0 && j <= s.interval && start == e * s.interval
    ensures TheoreticalSum(s, start + j) == TheoreticalSum(s, start) + j * EraReward(s.initial, e)
  {
    if j > 0 {
      BlocksOfEra(s, e, start, j - 1);
      EraOf(s.interval, e, j - 1);
      var reward := EraReward(s.initial, e);
      assert Theoretical(s, start + (j - 1)) == reward;
      assert (j - 1) * reward + reward == j * reward;
    }
  }

  lemma {:induction false} FullEras(s: Schedule, e: nat, start: nat)
    requires s.initial > 0 && s.interval > 0 && e <= 64 && start == e * s.interval
    ensures TheoreticalSum(s, start) == s.interval * EraSum(s.initial, e)
  {
    hide Theoretical, ShiftRight;
    if e > 0 {
      var before := (e - 1) * s.interval;
      assert before + s.interval == start;
      FullEras(s, e - 1, before);
      BlocksOfEra(s, e - 1, before, s.interval);
      Distribute(s.interval, EraSum(s.initial, e - 1), ShiftRight(s.initial, e - 1));
    }
  }

  lemma {:induction false} Distribute(a: nat, b: nat, c: nat)
    ensures a * b + a * c == a * (b + c)
  {
  }

  /** Closed form: n = e·H + j blocks mint e full eras and j blocks of era e. */
  lemma {:induction false} EraClosedForm(s: Schedule, e: nat, j: nat)
    requires s.initial > 0 && s.interval > 0 && j <= s.interval && e <= 64
    ensures TheoreticalSum(s, e * s.interval + j) == s.interval * EraSum(s.initial, e) + j * EraReward(s.initial, e)
  {
    FullEras(s, e, e * s.interval);
    BlocksOfEra(s, e, e * s.interval, j);
  }

  lemma {:induction false} EraOf(h: nat, e: nat, k: nat)
    requires h > 0 && k < h
    ensures (e * h + k) / h == e
  {
    var n := e * h + k;
    var q := n / h;
    assert q * h <= n < (q + 1) * h;
    assert q < e ==> (q + 1) * h <= e * h;
    assert q > e ==> (e + 1) * h <= q * h;
  }

  lemma {:induction false} NothingAfterEra64(s: Schedule, n: nat)
    requires s.interval > 0 && n >= 64 * s.interval
    ensures TheoreticalSum(s, n) == TheoreticalSum(s, 64 * s.interval)
  {
    if n > 64 * s.interval {
      NothingAfterEra64(s, n - 1);
      EraAtLeast(n - 1, s.interval, 64);
    }
  }

  lemma {:induction false} EraAtLeast(n: nat, h: nat, e: nat)
    requires h > 0 && n >= e * h
    ensures n / h >= e
  {
    var q := n / h;
    assert n < (q + 1) * h;
    assert q < e ==> (q + 1) * h <= e * h;
  }

  lemma {:induction false} ProductOfNats(a: nat, b: nat)
    ensures a * b >= 0
  {
  }

  /** Twice the first era's emission. */
  ghost function Twice(s: Schedule): nat {
    ProductOfNats(2 * s.initial, s.interval);
    2 * s.initial * s.interval
  }

  /** The theoretical rewards of any number of blocks sum to at most 2·r·H. */
  lemma {:induction false} GeometricCap(s: Schedule, n: nat)
    ensures TheoreticalSum(s, n) <= Twice(s)
  {
    hide *;
    if s.initial == 0 || s.interval == 0 {
      NoReward(s, n);
    } else if n >= 64 * s.interval {
      NothingAfterEra64(s, n);
      CapAt(s, 64, 0);
    } else {
      var e, j := EraSplit(n, s.interval);
      CapAt(s, e, j);
    }
  }

  lemma {:induction false} CapAt(s: Schedule, e: nat, j: nat)
    requires s.initial > 0 && s.interval > 0 && j <= s.interval && e <= 64
    ensures TheoreticalSum(s, e * s.interval + j) <= Twice(s)
  {
    hide *;
    EraClosedForm(s, e, j);
    EraBound(s, e, j);
  }

  lemma {:induction false} EraBound(s: Schedule, e: nat, j: nat)
    requires j <= s.interval
    ensures s.interval * EraSum(s.initial, e) + j * EraReward(s.initial, e) <= Twice(s)
  {
    EraSumBound(s.initial, e);
    hide EraSum, ShiftRight;
    EraArithmetic(s.interval, EraSum(s.initial, e), EraReward(s.initial, e), j, s.initial);
  }

  lemma {:induction false} EraArithmetic(h: nat, t: nat, r: nat, j: nat, initial: nat)
    requires j <= h && t + r <= 2 * initial
    ensures h * t + j * r <= 2 * initial * h
  {
    assert (h - j) * r >= 0;
    Distribute(h, t, r);
    assert h * (2 * initial - (t + r)) >= 0;
    Distribute(h, t + r, 2 * initial - (t + r));
  }

  lemma {:induction false} EraSplit(n: nat, h: nat) returns (e: nat, j: nat)
    requires 0 < h && n < 64 * h
    ensures e < 64 && n == e * h + j && j <= h
  {
    e, j := n / h, n % h;
    assert e * h <= n;
    assert e >= 64 ==> 64 * h <= e * h;
  }

  lemma {:induction false} NoReward(s: Schedule, n: nat)
    requires s.initial == 0 || s.interval == 0
    ensures TheoreticalSum(s, n) == 0
  {
    if n > 0 {
      NoReward(s, n - 1);
    }
  }

  /** A cap of at least 2·r·H never binds: every block mints its theoretical reward. */
  lemma {:induction false} ClampNeverBinds(s: Schedule, n: nat)
    requires s.cap >= Twice(s)
    ensures Minted(s, n) == TheoreticalSum(s, n)
    ensures RewardAt(s, n, Minted(s, n)) == Theoretical(s, n)
  {
    GeometricCap(s, n + 1);
    if n > 0 {
      ClampNeverBinds(s, n - 1);
    }
  }

  lemma {:induction false} MainnetEras()
    ensures EraSum(600_000_000, 30) == 1_199_999_990 && ShiftRight(600_000_000, 29) == 1 && ShiftRight(600_000_000, 30) == 0
  {
    var r := 600_000_000;
    assert ShiftRight(r, 0) == r && EraSum(r, 0) == 0;
    assert ShiftRight(r, 5) == 18_750_000 && EraSum(r, 5) == 1_162_500_000;
    assert ShiftRight(r, 10) == 585_937 && EraSum(r, 10) == 1_198_828_125;
    assert ShiftRight(r, 15) == 18_310 && EraSum(r, 15) == 1_199_963_377;
    assert ShiftRight(r, 20) == 572 && EraSum(r, 20) == 1_199_998_851;
    assert ShiftRight(r, 25) == 17 && EraSum(r, 25) == 1_199_999_958;
  }

  lemma {:induction false} ShiftRightMonotone(r: nat, m: nat, n: nat)
    requires m <= n
    ensures ShiftRight(r, n) <= ShiftRight(r, m)
    decreases n
  {
    if m < n {
      ShiftRightMonotone(r, m, n - 1);
    }
  }

  lemma {:induction false} SumMonotone(s: Schedule, m: nat, n: nat)
    requires m <= n
    ensures TheoreticalSum(s, m) <= TheoreticalSum(s, n)
    decreases n
  {
    if m < n {
      SumMonotone(s, m, n - 1);
    }
  }

  lemma {:induction false} MainnetReward(n: nat)
    ensures Theoretical(MAINNET, n) > 0 <==> n < 225_000_000
  {
    MainnetEras();
    var e := n / 7_500_000;
    if e < 30 {
      ShiftRightMonotone(600_000_000, e, 29);
    } else {
      ShiftRightMonotone(600_000_000, 30, e);
    }
  }

  lemma {:induction false} MainnetTail(n: nat)
    requires n >= 225_000_000
    ensures TheoreticalSum(MAINNET, n) == 8_999_999_925_000_000
  {
    hide Theoretical, EraSum, ShiftRight, EraReward;
    if n > 225_000_000 {
      MainnetTail(n - 1);
      MainnetReward(n - 1);
    } else {
      hide TheoreticalSum;
      EraClosedForm(MAINNET, 30, 0);
      MainnetEras();
    }
  }

  /** The mainnet schedule mints to height 225,000,000 and then never again, 75,000,000 darks short of the cap. */
  lemma {:induction false} MainnetSupply(n: nat)
    ensures n >= 225_000_000 ==> Theoretical(MAINNET, n) == 0 && Minted(MAINNET, n) == 8_999_999_925_000_000
    ensures n < 225_000_000 ==> Theoretical(MAINNET, n) > 0 && Minted(MAINNET, n) < 8_999_999_925_000_000
  {
    hide Theoretical, TheoreticalSum, Minted, ShiftRight;
    ClampNeverBinds(MAINNET, n);
    MainnetReward(n);
    if n >= 225_000_000 {
      MainnetTail(n);
    } else {
      MainnetTail(225_000_000);
      SumStep(n);
      SumMonotone(MAINNET, n + 1, 225_000_000);
    }
  }

  lemma {:induction false} SumStep(n: nat)
    ensures TheoreticalSum(MAINNET, n + 1) == TheoreticalSum(MAINNET, n) + Theoretical(MAINNET, n)
  {
  }
}
