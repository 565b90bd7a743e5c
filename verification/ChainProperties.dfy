/**
  What holds along every chain of validated blocks: no inflation, the emission schedule, the median
  time past and the difficulty floor.
 */
module ChainProperties {
  import opened Wrappers
  import opened Words
  import opened Curve
  import opened Utxos
  import opened Transactions
  import opened Ledgers
  import opened LedgerProofs
  import opened SupplyProofs
  import opened Blocks
  import opened Consensus
  import opened StepProofs
  import opened ChainInvariant
  import opened Emission
  import Difficulty
  import MedianTime

  // -------------------------------------------------------- no inflation --

  lemma {:induction false} CheckedApply(cfg: Config, x: seq<Step>, i: nat)
    requires i < |x| && CheckedAt(cfg, x, i)
    ensures var l, b := LedgerAt(cfg, x, i), x[i].block;
            var subsidy := Subsidy(l, b.header.height);
            Apply(l, b.body, b.header.height, subsidy, cfg.network) == Success(x[i].ledger)
  {
    hide Accept, RootOfBody, Normal, CheckHeader, CaptureUndo, Apply, Subsidy, RootsMatch;
    var now: u64 :| AcceptedAt(cfg, x, i, now);
    AcceptSteps(cfg, Compacts(x[..i]), LedgerAt(cfg, x, i), x[i].block, now, true);
  }

  /**
    No inflation.  After any number of validated blocks the hidden values of all unspent outputs are in
    range and sum, over the integers, to exactly what was minted less what was burned.
   */
  lemma {:induction false} NoInflation(cfg: Config, x: seq<Step>, i: nat)
    requires Verified(cfg, x) && i <= |x|
    ensures Sound(LedgerAt(cfg, x, i))
    ensures Value(LedgerAt(cfg, x, i)) == LedgerAt(cfg, x, i).minted - LedgerAt(cfg, x, i).burned
    ensures VerifySupply(LedgerAt(cfg, x, i)).Pass?
    decreases i
  {
    hide Sound, Value, VerifySupply, CheckedAt, Apply, Subsidy, CheckBody, Judged;
    if i == 0 {
      assert x[..0] == [];
      GenesisSound(cfg.network);
      assert LedgerAt(cfg, x, 0) == ForNetwork(cfg.network);
    } else {
      NoInflation(cfg, x, i - 1);
      var l, b := LedgerAt(cfg, x, i - 1), x[i - 1].block;
      CheckedApply(cfg, x, i - 1);
      AcceptedExactlyWhenChecked(l, b.body, b.header.height, Subsidy(l, b.header.height), cfg.network);
      LedgerAfter(cfg, x, i - 1);
    }
    SoundSupply(LedgerAt(cfg, x, i));
    SoundValue(LedgerAt(cfg, x, i));
  }

  lemma {:induction false} SoundValue(l: Ledger)
    requires Sound(l)
    ensures Value(l) == l.minted - l.burned
  {
    hide Congruent, SetSum;
  }

  // ------------------------------------------------------------ emission --

  lemma {:induction false} CommitMints(l: Ledger, b: Body, height: nat, subsidy: u64)
    requires ApplyStateOnly(l, b, height, subsidy).Success?
    ensures ApplyStateOnly(l, b, height, subsidy).value.minted == l.minted + subsidy
    ensures ApplyStateOnly(l, b, height, subsidy).value.burned == l.burned + if subsidy > 0 then TotalFee(b.kernels) else 0
  {
    hide CheckSpends, NextKernelSum, DecodeOffset, CoinbaseKernels, InsertOutputs, TotalFee, BindingActive, NextSupply;
    if NextSupply(l, TotalFee(b.kernels), subsidy).Success? {
      SupplyStep(l, TotalFee(b.kernels), subsidy);
    }
  }

  /** Any chain, however validated, has minted exactly what the schedule gives its height. */
  lemma {:induction false} MintedFollowsSchedule(cfg: Config, x: seq<Step>, i: nat)
    requires History(cfg, x) && i <= |x|
    ensures LedgerAt(cfg, x, i).minted == Minted(MAINNET, i) == TheoreticalSum(MAINNET, i)
    decreases i
  {
    hide History, ApplyStateOnly, CaptureUndo, RewardAt, TheoreticalSum, Theoretical, Normal;
    ClampNeverBinds(MAINNET, i);
    if i == 0 {
      assert x[..0] == [];
    } else {
      MintedFollowsSchedule(cfg, x, i - 1);
      HistoryLinks(cfg, x, i - 1);
      var l := LedgerAt(cfg, x, i - 1);
      CommitMints(l, x[i - 1].block.body, i - 1, Subsidy(l, i - 1));
      LedgerAfter(cfg, x, i - 1);
    }
  }

  /** The fees that the bodies of a list of blocks declare while there is a subsidy; the first block has this height. */
  ghost function DeclaredFees(height: nat, blocks: seq<Block>): nat {
    if blocks == [] then 0
    else
      var n := |blocks| - 1;
      DeclaredFees(height, blocks[..n]) + if Theoretical(MAINNET, height + n) > 0 then TotalFee(blocks[n].body.kernels) else 0
  }

  lemma {:induction false} DeclaredConcat(height: nat, a: seq<Block>, b: seq<Block>)
    ensures DeclaredFees(height, a + b) == DeclaredFees(height, a) + DeclaredFees(height + |a|, b)
    decreases |b|
  {
    hide Theoretical, TotalFee;
    if b == [] {
      assert a + b == a;
    } else {
      var n := |b| - 1;
      DeclaredConcat(height, a, b[..n]);
      assert (a + b)[..|a| + n] == a + b[..n];
    }
  }

  /** The burned total is what the bodies declare, true or not: nothing else moves it. */
  lemma {:induction false} BurnedIsDeclared(cfg: Config, x: seq<Step>, i: nat)
    requires History(cfg, x) && i <= |x|
    ensures LedgerAt(cfg, x, i).burned == DeclaredFees(0, StepBlocks(x[..i]))
    decreases i
  {
    hide History, ApplyStateOnly, CaptureUndo, RewardAt, TheoreticalSum, Theoretical, Normal, TotalFee, Minted, CheckpointAt;
    if i == 0 {
      assert x[..0] == [];
    } else {
      var n := i - 1;
      BurnedIsDeclared(cfg, x, n);
      HistoryLinks(cfg, x, n);
      MintedFollowsSchedule(cfg, x, n);
      ClampNeverBinds(MAINNET, n);
      var l := LedgerAt(cfg, x, n);
      CommitMints(l, x[n].block.body, n, Subsidy(l, n));
      LedgerAfter(cfg, x, n);
      assert StepBlocks(x[..i])[..n] == StepBlocks(x[..n]);
    }
  }

  /** After the last subsidy nothing is minted and nothing is burned: the circulating value stands still. */
  lemma {:induction false} FeesCirculate(cfg: Config, x: seq<Step>, i: nat, j: nat)
    requires Verified(cfg, x) && 225_000_000 <= i <= j <= |x|
    ensures LedgerAt(cfg, x, j).minted == 8_999_999_925_000_000
    ensures LedgerAt(cfg, x, j).burned == LedgerAt(cfg, x, i).burned
    ensures Value(LedgerAt(cfg, x, j)) == Value(LedgerAt(cfg, x, i))
    decreases j
  {
    hide Verified, History, ApplyStateOnly, CaptureUndo, RewardAt, TheoreticalSum, Theoretical, Normal, Minted, LedgerAt, Value;
    VerifiedIsHistory(cfg, x);
    NoInflation(cfg, x, i);
    NoInflation(cfg, x, j);
    MintedFollowsSchedule(cfg, x, i);
    MintedFollowsSchedule(cfg, x, j);
    MainnetSupply(i);
    MainnetSupply(j);
    if i < j {
      FeesCirculate(cfg, x, i, j - 1);
      HistoryLinks(cfg, x, j - 1);
      MintedFollowsSchedule(cfg, x, j - 1);
      MainnetSupply(j - 1);
      var l := LedgerAt(cfg, x, j - 1);
      CommitMints(l, x[j - 1].block.body, j - 1, Subsidy(l, j - 1));
      LedgerAfter(cfg, x, j - 1);
    }
  }

  // ---------------------------------------------------- median time past --

  lemma {:induction false} TimestampsOf(x: seq<Step>, i: nat)
    requires i <= |x|
    ensures Timestamps(Compacts(x[..i])) == Timestamps(Compacts(x))[..i]
  {
  }

  /** Every validated block is newer than the median of the blocks before it. */
  lemma {:induction false} VerifiedBeatsMedian(cfg: Config, x: seq<Step>)
    requires Verified(cfg, x)
    ensures MedianTime.BeatsMedian(MedianTime.MTP_WINDOW, Timestamps(Compacts(x)))
  {
    hide CheckedAt, StepAt, MedianTime.MedianTimePast, RootsMatch, NextDifficulty;
    var ts := Timestamps(Compacts(x));
    forall i | 0 < i < |ts| ensures ts[i] > MedianTime.MedianTimePast(MedianTime.MTP_WINDOW, ts[..i]) {
      CheckedFacts(cfg, x, i);
      TimestampsOf(x, i);
    }
  }

  /** The median time past never goes back, and once the window is full it advances within six blocks. */
  lemma {:induction false} MedianNeverGoesBack(cfg: Config, x: seq<Step>, i: nat, j: nat)
    requires Verified(cfg, x) && i <= j <= |x|
    ensures MedianTimePast(Compacts(x[..i])) <= MedianTimePast(Compacts(x[..j]))
    ensures MedianTime.MTP_WINDOW <= i && i + 6 <= j ==> MedianTimePast(Compacts(x[..i])) < MedianTimePast(Compacts(x[..j]))
  {
    hide Verified, MedianTime.MedianTimePast, MedianTime.BeatsMedian;
    var w, ts := MedianTime.MTP_WINDOW, Timestamps(Compacts(x));
    VerifiedBeatsMedian(cfg, x);
    TimestampsOf(x, i);
    TimestampsOf(x, j);
    MedianTime.MedianMonotone(w, ts, i, j);
    if w <= i && i + 6 <= j {
      MedianTime.MedianAdvances(w, ts, i);
      MedianTime.MedianMonotone(w, ts, i + 6, j);
    }
  }

  // ---------------------------------------------------------- difficulty --

  /** Every recorded difficulty is at least the network's floor, hence at least 1. */
  lemma {:induction false} DifficultyFloor(cfg: Config, x: seq<Step>, i: nat)
    requires Verified(cfg, x) && i < |x|
    ensures 1 <= MinDifficulty(cfg.network) <= x[i].block.header.difficulty
  {
    hide CheckedAt, StepAt, MedianTimePast, RootsMatch, Difficulty.Retarget, Difficulty.Weighted, Difficulty.Average;
    CheckedFacts(cfg, x, i);
    NextAtLeastFloor(cfg, Compacts(x[..i]));
  }

  lemma {:induction false} NextAtLeastFloor(cfg: Config, hs: Headers)
    ensures NextDifficulty(cfg, hs) >= MinDifficulty(cfg.network) >= 1
  {
    hide Difficulty.Weighted, Difficulty.Average;
  }

  /** On a validated chain the retarget's clamp always has its bounds in order, and moves by at most a factor of two. */
  lemma {:induction false} RetargetWellFormed(cfg: Config, x: seq<Step>)
    requires Verified(cfg, x) && |x| > Difficulty.WINDOW
    ensures var w := DifficultyHistory(Compacts(x))[|x| - (Difficulty.WINDOW + 1)..];
            var avg, next := Difficulty.Average(w), NextDifficulty(cfg, Compacts(x));
            && 1 <= avg && Difficulty.Max(avg / 2, 1) <= avg * 2
            && MinDifficulty(cfg.network) <= next
            && (next != MinDifficulty(cfg.network) ==> next <= avg * 2)
            && (next != TWO64 - 1 ==> avg / 2 <= next)
  {
    hide Verified, Difficulty.Retarget, Difficulty.Weighted, Difficulty.Average, Difficulty.Max;
    var w := DifficultyHistory(Compacts(x))[|x| - (Difficulty.WINDOW + 1)..];
    forall j | 0 <= j < |w| ensures w[j].1 >= 1 {
      DifficultyFloor(cfg, x, |x| - (Difficulty.WINDOW + 1) + j);
    }
    Difficulty.ClampWellFormed(w);
    Difficulty.RetargetBounds(Difficulty.Average(w), Difficulty.Weighted(w, Difficulty.WINDOW), MinDifficulty(cfg.network));
  }
}
