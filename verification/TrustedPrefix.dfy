/**
  What a trusted prefix settles about the supply.  Blocks below a pin, or shared with our own chain, are
  replayed without validation, and their bodies may not be the real ones.  The roots at the end of the prefix and
  the closing supply check settle the money all the same.
 */
module TrustedPrefix {
  import opened Wrappers
  import opened Words
  import opened Curve
  import opened Utxos
  import opened Transactions
  import opened Ledgers
  import opened LedgerProofs
  import opened SupplyProofs
  import opened Blocks
  import opened Consensus
  import opened StepProofs
  import opened ChainInvariant
  import opened FastReorg
  import opened ForkChoice
  import opened Agreement
  import opened ChainProperties
  import Emission

  /** The ledger with another burned total. */
  function Burning(l: Ledger, burned: u64): Ledger {
    l.(burned := burned)
  }

  // -------------------------------------- validation never reads the burned total --

  lemma {:induction false} InputsIgnoreBurned(inputs: seq<Input>, spent: set<Bytes32>, l: Ledger, height: nat, burned: u64)
    ensures CheckInputs(inputs, spent, Burning(l, burned), height) == CheckInputs(inputs, spent, l, height)
  {
    if inputs != [] {
      InputsIgnoreBurned(inputs[1..], spent + {inputs[0].commit}, l, height, burned);
    }
  }

  lemma {:induction false} BodyIgnoresBurned(l: Ledger, b: Body, height: nat, subsidy: u64, ctx: Network, burned: u64)
    ensures CheckBody(Burning(l, burned), b, height, subsidy, ctx) == CheckBody(l, b, height, subsidy, ctx)
    ensures Judged(Burning(l, burned), b, height) == Judged(l, b, height)
  {
    hide CheckInputs, CheckOutputs, CheckKernels, KeyBalance, ValueBalance, CheckCoinbaseOutput, IsCanonical, ExceedsSizeLimits,
         CoinbaseKernels, TotalFee, CheckedFeeSum, HasAnyBinding, StripBinding;
    InputsIgnoreBurned(b.inputs, {}, l, height, burned);
  }

  /** Two ledgers that differ in the burned total take a block alike, and still differ by as much. */
  lemma {:induction false} BurnedApart(l: Ledger, body: Body, height: nat, subsidy: u64, ctx: Network, burned: u64)
    requires Apply(l, body, height, subsidy, ctx).Success? && Sound(Burning(l, burned))
    ensures var next := Apply(l, body, height, subsidy, ctx).value;
            var mended := Apply(Burning(l, burned), body, height, subsidy, ctx);
            && mended.Success? && Sound(mended.value)
            && mended.value == Burning(next, mended.value.burned)
            && next.burned - mended.value.burned == l.burned - burned
  {
    hide Apply, Sound, CheckBody, Judged, VerifySupply, CheckSpends, NextKernelSum, DecodeOffset, TotalFee, InsertOutputs, InputCommits;
    var b := Judged(l, body, height);
    var m := Burning(l, burned);
    ApplySteps(l, body, height, subsidy, ctx);
    BodyIgnoresBurned(l, b, height, subsidy, ctx, burned);
    BodyIgnoresBurned(l, body, height, subsidy, ctx, burned);
    AcceptedExactlyWhenChecked(m, body, height, subsidy, ctx);
    ApplySteps(m, body, height, subsidy, ctx);
    KernelSumIgnoresBurned(l, b, burned);
  }

  lemma {:induction false} KernelSumIgnoresBurned(l: Ledger, b: Body, burned: u64)
    ensures forall offset :: NextKernelSum(Burning(l, burned), b, offset) == NextKernelSum(l, b, offset)
  {
    hide Sum, Plus, TimesH, Excesses;
  }

  // ------------------------------------------------- from the trusted end on --

  /** Up to the burned total, the ledger after i blocks is sound. */
  ghost predicate SoundButBurned(cfg: Config, z: seq<Step>, i: nat)
    requires i <= |z|
  {
    exists burned: u64 :: Sound(Burning(LedgerAt(cfg, z, i), burned))
  }

  lemma {:induction false} CheckedKeepsSoundness(cfg: Config, z: seq<Step>, t: nat, i: nat)
    requires t <= i <= |z| && SoundButBurned(cfg, z, t) && forall k :: t <= k < |z| ==> CheckedAt(cfg, z, k)
    ensures SoundButBurned(cfg, z, i)
    decreases i
  {
    hide CheckedAt, LedgerAt, Sound, Apply, Subsidy, Burning;
    if t < i {
      CheckedKeepsSoundness(cfg, z, t, i - 1);
      var l, b := LedgerAt(cfg, z, i - 1), z[i - 1].block;
      var burned: u64 :| Sound(Burning(l, burned));
      CheckedApply(cfg, z, i - 1);
      BurnedApart(l, b.body, b.header.height, Subsidy(l, b.header.height), cfg.network, burned);
      LedgerAfter(cfg, z, i - 1);
      var mended := Apply(Burning(l, burned), b.body, b.header.height, Subsidy(l, b.header.height), cfg.network).value;
      assert Sound(Burning(LedgerAt(cfg, z, i), mended.burned));
    }
  }

  /** The closing supply check leaves one way for the burned total to be wrong: above everything minted. */
  lemma {:induction false} SupplyCheckDecides(l: Ledger, burned: u64)
    requires Sound(Burning(l, burned)) && VerifySupply(l).Pass?
    ensures Sound(l) <==> l.burned <= l.minted
    ensures l.burned <= l.minted ==> l.burned == burned
    ensures l.burned > l.minted ==> Value(l) == 0
  {
    hide SetSum, Walk, Congruent, Minus, Value;
    BurnedWithinMinted(Burning(l, burned));
    SoundSupply(Burning(l, burned));
    SameValue(l, burned);
  }

  lemma {:induction false} SameValue(l: Ledger, burned: u64)
    ensures Value(Burning(l, burned)) == Value(l)
  {
  }

  lemma {:induction false} RootsAgree(a: Ledger, b: Ledger, h: BlockHeader)
    requires RootsMatch(a, h).Pass? && RootsMatch(b, h).Pass?
    ensures a.utxos.Keys == b.utxos.Keys && a.kernelSum == b.kernelSum
    ensures forall c :: c in a.utxos ==> a.utxos[c].outputPk == b.utxos[c].outputPk && a.utxos[c].height == b.utxos[c].height
  {
    RootDeterminesOutputs(a.utxos, b.utxos);
  }

  lemma {:induction false} SoundByKeys(a: Ledger, b: Ledger)
    requires Sound(b) && a.utxos.Keys == b.utxos.Keys && a.kernelSum == b.kernelSum && a.minted == b.minted
    ensures Sound(Burning(a, b.burned))
  {
    hide SetSum, Congruent;
    forall c | c in a.utxos ensures InRange(c) {
      assert c in b.utxos.Keys;
    }
  }

  /**
    Two chains that share the header of block t - 1, one of them fully validated, the other only known to have
    matching roots there, hold the same commitments with the same keys and heights, the same kernel sum and the
    same minted total.
   */
  lemma {:induction false} TrustedEndSettlesOutputs(cfg: Config, z: seq<Step>, v: seq<Step>, t: nat)
    requires History(cfg, z) && Verified(cfg, v) && 0 < t <= |z| && t <= |v|
    requires HashOf(z[t - 1].block) == HashOf(v[t - 1].block) && RootsMatch(z[t - 1].ledger, z[t - 1].block.header).Pass?
    ensures var a, b := LedgerAt(cfg, z, t), LedgerAt(cfg, v, t);
            && a.utxos.Keys == b.utxos.Keys && a.kernelSum == b.kernelSum && a.minted == b.minted
            && forall c :: c in a.utxos ==> a.utxos[c].outputPk == b.utxos[c].outputPk && a.utxos[c].height == b.utxos[c].height
    ensures SoundButBurned(cfg, z, t)
  {
    hide History, Verified, Sound, RootsMatch, Value, VerifySupply, Emission.Minted, Emission.TheoreticalSum, CheckedAt, StepAt, FreshAt,
         NextDifficulty, MedianTimePast, Burning, LedgerAt;
    LedgerAfter(cfg, z, t - 1);
    LedgerAfter(cfg, v, t - 1);
    VerifiedRootsAt(cfg, v, t - 1);
    RootsAgree(z[t - 1].ledger, v[t - 1].ledger, z[t - 1].block.header);
    VerifiedIsHistory(cfg, v);
    MintedFollowsSchedule(cfg, z, t);
    MintedFollowsSchedule(cfg, v, t);
    NoInflation(cfg, v, t);
    SoundByKeys(LedgerAt(cfg, z, t), LedgerAt(cfg, v, t));
  }

  lemma {:induction false} VerifiedRootsAt(cfg: Config, v: seq<Step>, i: nat)
    requires Verified(cfg, v) && i < |v|
    ensures RootsMatch(v[i].ledger, v[i].block.header).Pass?
  {
    hide CheckedAt, StepAt, FreshAt, RootsMatch, NextDifficulty, MedianTimePast;
    CheckedFacts(cfg, v, i);
  }

  /** What a candidate on this base declares as burned, all told. */
  ghost function DeclaredBurned(cfg: Config, base: Option<PrunedBase>, blocks: seq<Block>): nat {
    StartOf(cfg, base).ledger.burned + DeclaredFees(StartOf(cfg, base).firstHeight, blocks)
  }

  /** What the schedule mints up to the end of a candidate on this base. */
  ghost function ScheduledMint(cfg: Config, base: Option<PrunedBase>, blocks: seq<Block>): nat {
    Emission.Minted(Emission.MAINNET, StartOf(cfg, base).firstHeight + |blocks|)
  }

  lemma {:induction false} FeesOfNormal(cfg: Config, height: nat, blocks: seq<Block>, z: seq<Step>)
    requires |z| == |blocks| && forall i :: 0 <= i < |z| ==> z[i].block == Normal(cfg, blocks[i])
    ensures DeclaredFees(height, StepBlocks(z)) == DeclaredFees(height, blocks)
    decreases |blocks|
  {
    hide Emission.Theoretical, TotalFee, StripBinding;
    if blocks != [] {
      var n := |blocks| - 1;
      FeesOfNormal(cfg, height, blocks[..n], z[..n]);
      assert StepBlocks(z)[..n] == StepBlocks(z[..n]);
      StripKeepsState(blocks[n].body);
    }
  }

  /** The burned and the minted total of a returned candidate are known before it is judged. */
  lemma {:induction false} TotalsOfCandidate(cfg: Config, x: seq<Step>, z: seq<Step>, base: Option<PrunedBase>, blocks: seq<Block>, c: ChainState)
    requires Inv(cfg, StartOf(cfg, base), x) && |x| == StartOf(cfg, base).firstHeight && Inv(cfg, c, x + z)
    requires |z| == |blocks| && forall i :: 0 <= i < |z| ==> z[i].block == Normal(cfg, blocks[i])
    ensures c.ledger.burned == DeclaredBurned(cfg, base, blocks) && c.ledger.minted == ScheduledMint(cfg, base, blocks)
  {
    hide Inv, StartOf, History, LedgerAt, DeclaredFees, Emission.Minted, Emission.TheoreticalSum, Normal;
    var all := x + z;
    InvLedger(cfg, StartOf(cfg, base), x);
    InvLedger(cfg, c, all);
    BurnedIsDeclared(cfg, x, |x|);
    BurnedIsDeclared(cfg, all, |all|);
    MintedFollowsSchedule(cfg, all, |all|);
    assert x[..|x|] == x && all[..|all|] == all && StepBlocks(all) == StepBlocks(x) + StepBlocks(z);
    DeclaredConcat(0, StepBlocks(x), StepBlocks(z));
    FeesOfNormal(cfg, |x|, blocks, z);
  }

  /** The trusted part of a candidate is not empty and ends on a header of the validated chain v. */
  ghost predicate EndsOnValidated(cfg: Config, ours: seq<Hash>, base: Option<PrunedBase>, blocks: seq<Block>, v: seq<Step>) {
    var f := StartOf(cfg, base).firstHeight;
    f <= |ours|
    && var trusted := TrustedOf(cfg, base, CommonPrefix(ours[f..], blocks), |blocks|);
       && Verified(cfg, v) && 0 < trusted <= |blocks| && f + trusted <= |v|
       && HashOf(blocks[trusted - 1]) == HashOf(v[f + trusted - 1].block)
  }

  /** What is known of a returned candidate whose trusted part ends on a validated header. */
  lemma {:induction false} SettledCandidate(cfg: Config, x: seq<Step>, ourWork: nat, ours: seq<Hash>, base: Option<PrunedBase>, blocks: seq<Block>,
                                            now: u64, v: seq<Step>) returns (c: ChainState, all: seq<Step>, t: nat)
    requires Inv(cfg, StartOf(cfg, base), x) && |x| == StartOf(cfg, base).firstHeight
    requires EvaluateReorg(cfg, ourWork, ours, base, blocks, now).Success?
    requires EvaluateReorg(cfg, ourWork, ours, base, blocks, now).value.Some?
    requires EndsOnValidated(cfg, ours, base, blocks, v)
    ensures c == EvaluateReorg(cfg, ourWork, ours, base, blocks, now).value.value && VerifySupply(c.ledger).Pass?
    ensures |all| == |x| + |blocks| && Inv(cfg, c, all) && History(cfg, all) && c.ledger == LedgerAt(cfg, all, |all|)
    ensures forall i :: 0 <= i < |blocks| ==> all[|x| + i].block == Normal(cfg, blocks[i])
    ensures t == |x| + TrustedOf(cfg, base, CommonPrefix(ours[|x|..], blocks), |blocks|) <= |all|
    ensures SoundButBurned(cfg, all, t) && forall i :: t <= i < |all| ==> CheckedAt(cfg, all, i)
    ensures c.ledger.burned == DeclaredBurned(cfg, base, blocks) && c.ledger.minted == ScheduledMint(cfg, base, blocks)
  {
    hide EvaluateReorg, CommonPrefix, TrustedOf, RebuiltSteps, StartOf, Inv, CheckedCandidate, VerifySupply, Sound, CheckedAt, History,
         Verified, RootsMatch, Normal, SoundButBurned, DeclaredBurned, ScheduledMint, LedgerAt;
    AdoptableIsChecked(cfg, x, ourWork, ours, base, blocks, now);
    var trusted := TrustedOf(cfg, base, CommonPrefix(ours[|x|..], blocks), |blocks|);
    c := EvaluateReorg(cfg, ourWork, ours, base, blocks, now).value.value;
    var z := CandidateSteps(cfg, ours, base, blocks, now).value;
    all := x + z;
    t := |x| + trusted;
    CandidateShape(cfg, x, ours, base, blocks, now);
    CandidateEnds(cfg, x, z, ours, |x| + CommonPrefix(ours[|x|..], blocks), trusted);
    NormalIdempotent(cfg, blocks[trusted - 1]);
    TrustedEndSettlesOutputs(cfg, all, v, t);
    InvLedger(cfg, c, all);
    TotalsOfCandidate(cfg, x, z, base, blocks, c);
  }

  /**
    No inflation through a trusted prefix.  When the trusted part of a returned candidate ends on a header that some
    fully validated chain also has, its own blocks or a pin, the candidate's hidden value is minted less burned if and
    only if the fees its bodies declare, with what was burned below its base, stay within what the schedule mints.
    Otherwise nothing is left unspent.
   */
  lemma {:induction false} TrustedPrefixIsSound(cfg: Config, x: seq<Step>, ourWork: nat, ours: seq<Hash>, base: Option<PrunedBase>, blocks: seq<Block>,
                                                now: u64, v: seq<Step>)
    requires Inv(cfg, StartOf(cfg, base), x) && |x| == StartOf(cfg, base).firstHeight
    requires EvaluateReorg(cfg, ourWork, ours, base, blocks, now).Success?
    requires EvaluateReorg(cfg, ourWork, ours, base, blocks, now).value.Some?
    requires EndsOnValidated(cfg, ours, base, blocks, v)
    ensures var l := EvaluateReorg(cfg, ourWork, ours, base, blocks, now).value.value.ledger;
            && l.burned == DeclaredBurned(cfg, base, blocks) && l.minted == ScheduledMint(cfg, base, blocks)
            && (Sound(l) <==> DeclaredBurned(cfg, base, blocks) <= ScheduledMint(cfg, base, blocks))
            && (DeclaredBurned(cfg, base, blocks) > ScheduledMint(cfg, base, blocks) ==> Value(l) == 0)
  {
    hide EvaluateReorg, StartOf, Inv, VerifySupply, Sound, Value, CheckedAt, History, EndsOnValidated, DeclaredBurned, ScheduledMint,
         LedgerAt, TrustedOf, CommonPrefix, Burning;
    var c, all, t := SettledCandidate(cfg, x, ourWork, ours, base, blocks, now, v);
    CheckedKeepsSoundness(cfg, all, t, |all|);
    var burned: u64 :| Sound(Burning(LedgerAt(cfg, all, |all|), burned));
    SupplyCheckDecides(c.ledger, burned);
  }

  // ------------------------------------------------- when it cannot happen --

  lemma {:induction false} CoinbaseOpens(l: Ledger, b: Body, height: nat, subsidy: u64, ctx: Network)
    requires CheckBody(l, b, height, subsidy, ctx).Pass? && BindingActive(l, height)
    ensures CoinbaseKernels(b.kernels) == 1 && CheckCoinbaseOutput(b, FirstCoinbase(b.kernels), true).Pass?
    ensures FirstCoinbase(b.kernels).reward == (if subsidy > 0 then subsidy else TotalFee(b.kernels))
    ensures FirstCoinbase(b.kernels).VerifySignature()
  {
    hide IsCanonical, ExceedsSizeLimits, CheckKernels, CheckOutputs, CheckInputs, KeyBalance, ValueBalance, CheckCoinbaseOutput, TotalFee,
         CheckedFeeSum, CoinbaseKernels, FirstCoinbase;
    KernelsChecked(b.kernels, height);
  }

  lemma {:induction false} FlaggedAreOutputs(outputs: seq<Output>)
    ensures forall o :: o in CoinbaseOutputs(outputs) ==> o in outputs
  {
    if outputs != [] {
      FlaggedAreOutputs(outputs[1..]);
    }
  }

  lemma {:induction false} CreatesAt(outputs: seq<Output>, i: nat)
    requires i < |outputs|
    ensures Creates(outputs, outputs[i].commit)
  {
  }

  /** From the binding fork on a checked block with a positive reward leaves a coin of at least that reward. */
  lemma {:induction false} RewardIsUnspent(l: Ledger, body: Body, height: nat, subsidy: u64, ctx: Network)
    requires Apply(l, body, height, subsidy, ctx).Success? && BindingActive(l, height)
    requires subsidy > 0 || TotalFee(body.kernels) > 0
    ensures exists c :: c in Apply(l, body, height, subsidy, ctx).value.utxos && GOf(c) > 0
  {
    hide Apply, CheckBody, VerifySupply, CheckSpends, NextKernelSum, NextSupply, DecodeOffset, TotalFee, InsertOutputs, InputCommits, ToSet,
         Creates, CoinbaseKernels, FirstCoinbase, CheckKernels, CheckInputs, ValueBalance, IsCanonical, ExceedsSizeLimits, CheckOutputs;
    ApplySteps(l, body, height, subsidy, ctx);
    CoinbaseOpens(l, body, height, subsidy, ctx);
    FlaggedAreOutputs(body.outputs);
    var o := CoinbaseOutputs(body.outputs)[0];
    assert o in body.outputs;
    var i :| 0 <= i < |body.outputs| && body.outputs[i] == o;
    Inserted(l.utxos - ToSet(InputCommits(body)), body.outputs, height);
    CreatesAt(body.outputs, i);
  }

  lemma {:induction false} CoinHasValue(l: Ledger, c: Bytes32)
    requires c in l.utxos && GOf(c) > 0
    ensures Value(l) > 0
  {
    hide SetSum;
    SetSumRemove(l.utxos.Keys, c, GOf);
    SetSumNonNegative(l.utxos.Keys - {c});
  }

  /** Once sound, validated blocks keep it so. */
  lemma {:induction false} SoundOnwards(cfg: Config, z: seq<Step>, t: nat, i: nat)
    requires t <= i <= |z| && Sound(LedgerAt(cfg, z, t)) && forall k :: t <= k < |z| ==> CheckedAt(cfg, z, k)
    ensures Sound(LedgerAt(cfg, z, i))
    decreases i
  {
    hide CheckedAt, LedgerAt, Sound, Apply, Subsidy, CheckBody, Judged;
    if t < i {
      SoundOnwards(cfg, z, t, i - 1);
      var l, b := LedgerAt(cfg, z, i - 1), z[i - 1].block;
      CheckedApply(cfg, z, i - 1);
      AcceptedExactlyWhenChecked(l, b.body, b.header.height, Subsidy(l, b.header.height), cfg.network);
      LedgerAfter(cfg, z, i - 1);
    }
  }

  /** The reward in a checked header is what its coinbase pays. */
  lemma {:induction false} RewardOfChecked(cfg: Config, z: seq<Step>, k: nat)
    requires k < |z| && CheckedAt(cfg, z, k)
    ensures var l, b := LedgerAt(cfg, z, k), z[k].block;
            b.header.reward == CoinbaseDue(Subsidy(l, b.header.height), TotalFee(b.body.kernels))
  {
    hide Accept, RootOfBody, CheckHeader, CaptureUndo, Apply, Subsidy, RootsMatch, TotalFee, StripBinding;
    var now: u64 :| AcceptedAt(cfg, z, k, now);
    AcceptSteps(cfg, Compacts(z[..k]), LedgerAt(cfg, z, k), z[k].block, now, true);
    StripKeepsState(z[k].block.body);
  }

  /** A checked block that pays something, at or above the fork, settles the burned total for good. */
  lemma {:induction false} PaidBlockSettles(cfg: Config, z: seq<Step>, t: nat, k: nat)
    requires History(cfg, z) && t <= k < |z| && SoundButBurned(cfg, z, t) && forall i :: t <= i < |z| ==> CheckedAt(cfg, z, i)
    requires z[k].block.header.height >= BindingForkHeight(cfg.network) && z[k].block.header.reward > 0
    ensures Sound(LedgerAt(cfg, z, |z|))
  {
    hide CheckedAt, LedgerAt, Sound, Apply, Subsidy, History, Burning, Value, VerifySupply, TotalFee, GOf, SoundButBurned;
    var l, b := LedgerAt(cfg, z, k), z[k].block;
    var subsidy := Subsidy(l, b.header.height);
    CheckedKeepsSoundness(cfg, z, t, k + 1);
    CheckedApply(cfg, z, k);
    LedgerAfter(cfg, z, k);
    LedgerParameters(cfg, z, k);
    RewardOfChecked(cfg, z, k);
    RewardIsUnspent(l, b.body, b.header.height, subsidy, cfg.network);
    var next := Apply(l, b.body, b.header.height, subsidy, cfg.network).value;
    var c :| c in next.utxos && GOf(c) > 0;
    CoinHasValue(next, c);
    SupplyHolds(l, b.body, b.header.height, subsidy, cfg.network);
    BurnedSomehow(cfg, z, k + 1);
    var burned: u64 :| Sound(Burning(LedgerAt(cfg, z, k + 1), burned));
    SupplyCheckDecides(next, burned);
    SoundOnwards(cfg, z, k + 1, |z|);
  }

  lemma {:induction false} BurnedSomehow(cfg: Config, z: seq<Step>, i: nat)
    requires i <= |z| && SoundButBurned(cfg, z, i)
    ensures exists burned: u64 :: Sound(Burning(LedgerAt(cfg, z, i), burned))
  {
    hide Sound, Burning, LedgerAt;
  }

  lemma {:induction false} SupplyHolds(l: Ledger, body: Body, height: nat, subsidy: u64, ctx: Network)
    requires Apply(l, body, height, subsidy, ctx).Success?
    ensures VerifySupply(Apply(l, body, height, subsidy, ctx).value).Pass?
  {
    hide Apply, VerifySupply, CheckBody, CheckSpends, NextKernelSum, NextSupply, DecodeOffset, TotalFee, Commit, Judged;
    ApplySteps(l, body, height, subsidy, ctx);
  }

  /**
    Where the exception cannot happen: a candidate with one block beyond its trusted part, at or above the binding fork, whose
    header pays any reward at all, is sound.
   */
  lemma {:induction false} RewardSettlesBurned(cfg: Config, x: seq<Step>, ourWork: nat, ours: seq<Hash>, base: Option<PrunedBase>, blocks: seq<Block>,
                                               now: u64, v: seq<Step>, k: nat)
    requires Inv(cfg, StartOf(cfg, base), x) && |x| == StartOf(cfg, base).firstHeight
    requires EvaluateReorg(cfg, ourWork, ours, base, blocks, now).Success?
    requires EvaluateReorg(cfg, ourWork, ours, base, blocks, now).value.Some?
    requires EndsOnValidated(cfg, ours, base, blocks, v)
    requires TrustedOf(cfg, base, CommonPrefix(ours[|x|..], blocks), |blocks|) <= k < |blocks|
    requires blocks[k].header.height >= BindingForkHeight(cfg.network) && blocks[k].header.reward > 0
    ensures Sound(EvaluateReorg(cfg, ourWork, ours, base, blocks, now).value.value.ledger)
    ensures DeclaredBurned(cfg, base, blocks) <= ScheduledMint(cfg, base, blocks)
  {
    hide EvaluateReorg, StartOf, Inv, VerifySupply, Sound, Value, CheckedAt, History, DeclaredBurned, ScheduledMint,
         LedgerAt, TrustedOf, CommonPrefix, Burning, SoundButBurned, Normal, Verified;
    var c, all, t := SettledCandidate(cfg, x, ourWork, ours, base, blocks, now, v);
    NormalIdempotent(cfg, blocks[k]);
    PaidBlockSettles(cfg, all, t, |x| + k);
    BurnedWithinMinted(c.ledger);
  }

  lemma {:induction false} CandidateEnds(cfg: Config, x: seq<Step>, z: seq<Step>, ours: seq<Hash>, common: nat, trusted: nat)
    requires CheckedCandidate(cfg, x, z, ours, common, trusted) && 0 < trusted <= |z|
    ensures History(cfg, x + z) && forall i :: |x| + trusted <= i < |x + z| ==> CheckedAt(cfg, x + z, i)
    ensures (x + z)[|x| + trusted - 1] == z[trusted - 1] && RootsMatch(z[trusted - 1].ledger, z[trusted - 1].block.header).Pass?
  {
    hide History, CheckedAt, RootsMatch;
  }

  lemma {:induction false} CandidateShape(cfg: Config, x: seq<Step>, ours: seq<Hash>, base: Option<PrunedBase>, blocks: seq<Block>, now: u64)
    requires Inv(cfg, StartOf(cfg, base), x) && |x| == StartOf(cfg, base).firstHeight <= |ours|
    requires CandidateSteps(cfg, ours, base, blocks, now).Success?
    ensures var z := CandidateSteps(cfg, ours, base, blocks, now).value;
            |z| == |blocks| && forall i :: 0 <= i < |z| ==> z[i].block == Normal(cfg, blocks[i])
  {
    hide CommonPrefix, TrustedOf, RebuiltSteps, StartOf, Normal, UndoWork, WorkOf, PrefixRoots, Window, TailUndos, History;
    RebuiltShape(cfg, x, blocks, TrustedOf(cfg, base, CommonPrefix(ours[|x|..], blocks), |blocks|), now);
  }
}
