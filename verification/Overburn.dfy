/**
  The one thing a trusted prefix can get wrong about the money, on a chain of two blocks.  All that is minted is burned:
  every block pays a coinbase of value zero and gives its subsidy away as a fee.  Raising a fee in a body taken on trust
  then makes the burned total exceed the minted one, and no check sees it.
 */
module Overburn {
  import opened Wrappers
  import opened Words
  import opened Curve
  import opened Sorting
  import opened Utxos
  import opened Transactions
  import opened Ledgers
  import opened LedgerProofs
  import opened SupplyProofs
  import opened Blocks
  import opened Consensus
  import opened StepProofs
  import opened ChainInvariant
  import opened FastReorg
  import opened ForkChoice
  import opened ChainProperties
  import opened TrustedPrefix
  import opened Templates
  import opened Mining
  import Emission

  const SUBSIDY: u64 := 600_000_000

  /** A coinbase output of value zero under the blinding factor r, signed by its sender. */
  function EmptyCoinbase(r: Scalar, ctx: Network): Output {
    var zeros, commit := Encoding(Identity()), Encoding(TimesH(r));
    Output(true, commit, zeros, zeros, ctx, 0, Signature(zeros, OutputMessage(true, commit, zeros, zeros, ctx, 0), 0))
  }

  /** The body that mints a subsidy and burns it: a coinbase of value zero, and a kernel that pays all as a fee. */
  function BurnBody(height: nat, r: Scalar, s: Scalar, fee: u64, ctx: Network): Body {
    Body([], [EmptyCoinbase(Fold(r + s), ctx)],
         [BuildKernel(Coinbase, 0, SUBSIDY, height, r, 0), BuildKernel(Plain, fee, 0, 0, s, 0)], None, None)
  }

  // ------------------------------------------------ the body passes the checks --

  lemma {:induction false} TwoKernels(a: Kernel, b: Kernel)
    ensures TotalFee([a, b]) == WrappingAdd(a.fee, b.fee) && TotalReward([a, b]) == WrappingAdd(a.reward, b.reward)
    ensures CoinbaseKernels([a, b]) == (if a.feature.Coinbase? then 1 else 0) + if b.feature.Coinbase? then 1 else 0
    ensures a.feature.Coinbase? ==> FirstCoinbase([a, b]) == a
  {
    assert [a, b][1..] == [b];
    OneKernel(b);
  }

  lemma {:induction false} BurnLists(height: nat, r: Scalar, s: Scalar, fee: u64, ctx: Network)
    ensures var b := BurnBody(height, r, s, fee, ctx);
            && InputCommits(b) == [] && OutputCommits(b) == [Encoding(TimesH(Fold(r + s)))]
            && Excesses(b) == [Encoding(TimesH(r)), Encoding(TimesH(s))]
            && TotalFee(b.kernels) == fee && TotalReward(b.kernels) == SUBSIDY
            && CoinbaseKernels(b.kernels) == 1 && FirstCoinbase(b.kernels) == b.kernels[0]
  {
    var b := BurnBody(height, r, s, fee, ctx);
    TwoKernels(b.kernels[0], b.kernels[1]);
  }

  lemma {:induction false} BurnIsCanonical(height: nat, r: Scalar, s: Scalar, fee: u64, ctx: Network)
    requires r < s
    ensures IsCanonical(BurnBody(height, r, s, fee, ctx)) && !HasAnyBinding(BurnBody(height, r, s, fee, ctx))
  {
    var b := BurnBody(height, r, s, fee, ctx);
    assert KernelLe(b.kernels[0], b.kernels[1]);
    SortFixesOrdered(InputLe, b.inputs);
    SortFixesOrdered(OutputLe, b.outputs);
    SortFixesOrdered(KernelLe, b.kernels);
  }

  lemma {:induction false} BurnBalances(height: nat, r: Scalar, s: Scalar, ctx: Network)
    ensures ValueBalance(BurnBody(height, r, s, SUBSIDY, ctx)).Pass?
  {
    hide InputCommits, OutputCommits, Excesses, Sum, TotalFee, TotalReward, BurnBody;
    BurnLists(height, r, s, SUBSIDY, ctx);
    SumOfOne(Encoding(TimesH(Fold(r + s))));
    SumOfTwo(Encoding(TimesH(r)), Encoding(TimesH(s)));
    assert BurnBody(height, r, s, SUBSIDY, ctx).kernelOffset == None by { NoOffset(height, r, s, SUBSIDY, ctx); }
  }

  lemma {:induction false} NoOffset(height: nat, r: Scalar, s: Scalar, fee: u64, ctx: Network)
    ensures BurnBody(height, r, s, fee, ctx).kernelOffset == None
  {
  }

  lemma {:induction false} BurnKernelsPass(height: nat, r: Scalar, s: Scalar, fee: u64, ctx: Network)
    requires r > 0 && s > 0
    ensures CheckKernels(BurnBody(height, r, s, fee, ctx).kernels, height).Pass?
  {
    var kernels := BurnBody(height, r, s, fee, ctx).kernels;
    assert kernels[1..] == [kernels[1]] && [kernels[1]][1..] == [];
    BuiltKernelVerifies(Coinbase, 0, SUBSIDY, height, r, 0, 0, 0, 0);
    BuiltKernelVerifies(Plain, fee, 0, 0, s, 0, 0, 0, 0);
    assert CheckKernels([], height).Pass?;
    assert CheckKernels([kernels[1]], height).Pass?;
  }

  lemma {:induction false} BurnOutputsPass(l: Ledger, height: nat, r: Scalar, s: Scalar, fee: u64, ctx: Network)
    requires Encoding(TimesH(Fold(r + s))) !in l.utxos
    ensures CheckOutputs(BurnBody(height, r, s, fee, ctx).outputs, {}, l.utxos, ctx).Pass?
    ensures CheckCoinbaseOutput(BurnBody(height, r, s, fee, ctx), FirstCoinbase(BurnBody(height, r, s, fee, ctx).kernels), false).Pass?
  {
    var outputs := BurnBody(height, r, s, fee, ctx).outputs;
    assert outputs == [outputs[0]] && outputs[1..] == [];
    assert CoinbaseOutputs([]) == [] && CoinbaseOutputs(outputs) == outputs;
    assert CheckOutputs([], {outputs[0].commit}, l.utxos, ctx).Pass?;
  }

  /** Below the binding fork the body passes on any ledger that does not hold its output. */
  lemma {:induction false} BurnPasses(l: Ledger, height: nat, r: Scalar, s: Scalar, ctx: Network)
    requires 0 < r < s && Encoding(TimesH(Fold(r + s))) !in l.utxos
    requires !BindingActive(l, height) && l.minted + SUBSIDY <= MAX_SUPPLY_DARKS
    ensures CheckBody(l, BurnBody(height, r, s, SUBSIDY, ctx), height, SUBSIDY, ctx).Pass?
    ensures Judged(l, BurnBody(height, r, s, SUBSIDY, ctx), height) == BurnBody(height, r, s, SUBSIDY, ctx)
  {
    hide CheckKernels, CheckOutputs, ValueBalance, CheckCoinbaseOutput, IsCanonical, CoinbaseKernels, FirstCoinbase, TotalFee, HasAnyBinding;
    BurnLists(height, r, s, SUBSIDY, ctx);
    BurnIsCanonical(height, r, s, SUBSIDY, ctx);
    BurnBalances(height, r, s, ctx);
    BurnKernelsPass(height, r, s, SUBSIDY, ctx);
    BurnOutputsPass(l, height, r, s, SUBSIDY, ctx);
  }

  /** On a sound ledger on which everything minted is burned it leaves another such ledger. */
  lemma {:induction false} BurnApplies(l: Ledger, height: nat, r: Scalar, s: Scalar, ctx: Network)
    requires Sound(l) && l.minted == l.burned
    requires 0 < r < s && Encoding(TimesH(Fold(r + s))) !in l.utxos
    requires !BindingActive(l, height) && l.minted + SUBSIDY <= MAX_SUPPLY_DARKS
    ensures var next := Apply(l, BurnBody(height, r, s, SUBSIDY, ctx), height, SUBSIDY, ctx);
            && next.Success? && Sound(next.value) && next.value.minted == next.value.burned == l.minted + SUBSIDY
            && next.value.utxos.Keys == l.utxos.Keys + {Encoding(TimesH(Fold(r + s)))}
            && next.value.bindingHeight == l.bindingHeight
  {
    hide Apply, Sound, CheckBody, Judged, VerifySupply, CheckSpends, NextKernelSum, TotalFee, BindingActive, BurnBody, CoinbaseKernels, FirstCoinbase,
         TotalReward, Excesses, InputCommits, OutputCommits, InsertOutputs, DecodeOffset;
    var b := BurnBody(height, r, s, SUBSIDY, ctx);
    BurnPasses(l, height, r, s, ctx);
    AcceptedExactlyWhenChecked(l, b, height, SUBSIDY, ctx);
    ApplySteps(l, b, height, SUBSIDY, ctx);
    BurnLists(height, r, s, SUBSIDY, ctx);
    CommittedKeys(l, b, height);
    assert ToSet(InputCommits(b)) == {} && ToSet(OutputCommits(b)) == {Encoding(TimesH(Fold(r + s)))};
  }

  lemma {:induction false} CommittedKeys(l: Ledger, b: Body, height: nat)
    ensures InsertOutputs(l.utxos - ToSet(InputCommits(b)), b.outputs, height).Keys
            == l.utxos.Keys - ToSet(InputCommits(b)) + ToSet(OutputCommits(b))
  {
    hide InsertOutputs, InputCommits, OutputCommits, ToSet, Creates;
    Inserted(l.utxos - ToSet(InputCommits(b)), b.outputs, height);
    CommitSets(b);
  }

  // -------------------------------------------- nothing sees the raised fee --

  lemma {:induction false} ProjectionIgnoresBurned(l: Ledger, b: Body, burned: u64)
    ensures SumAfter(Burning(l, burned), b) == SumAfter(l, b)
  {
    hide Walk, Sum, InputCommits, OutputCommits, Plus, Minus;
  }

  /** The projected sum of an accepted block satisfied the supply equation. */
  lemma {:induction false} ProjectionPassed(l: Ledger, body: Body, height: nat, subsidy: u64, ctx: Network)
    requires Apply(l, body, height, subsidy, ctx).Success?
    ensures var b := Judged(l, body, height);
            && DecodeOffset(b.kernelOffset).Success? && NextKernelSum(l, b, DecodeOffset(b.kernelOffset).value).Success?
            && NextSupply(l, TotalFee(b.kernels), subsidy).Success? && SumAfter(l, b).Some?
            && var supply := NextSupply(l, TotalFee(b.kernels), subsidy).value;
               SupplyEquation(SumAfter(l, b).value, NextKernelSum(l, b, DecodeOffset(b.kernelOffset).value).value, supply.0, supply.1).Pass?
  {
    hide CheckBody, Judged, NextKernelSum, NextSupply, DecodeOffset, TotalFee, SumAfter, SupplyEquation, CheckSpends, Commit, VerifySupply;
  }

  lemma {:induction false} NothingCirculates(sum: Point, kernelSum: Bytes32, minted: u64, burned: u64, more: u64)
    requires SupplyEquation(sum, kernelSum, minted, burned).Pass? && minted <= burned <= more
    ensures SupplyEquation(sum, kernelSum, minted, more).Pass?
  {
  }

  /** While everything minted is burned, a burned total that is too high passes every check of a block. */
  lemma {:induction false} OverburnedTakes(l: Ledger, body: Body, height: nat, subsidy: u64, ctx: Network, more: nat)
    requires Apply(l, body, height, subsidy, ctx).Success? && l.burned + more < TWO64
    requires var next := Apply(l, body, height, subsidy, ctx).value; next.minted <= next.burned && next.burned + more < TWO64
    ensures var next := Apply(l, body, height, subsidy, ctx).value;
            Apply(Burning(l, l.burned + more), body, height, subsidy, ctx) == Success(Burning(next, next.burned + more))
  {
    hide CheckBody, Judged, NextKernelSum, DecodeOffset, TotalFee, SumAfter, SupplyEquation, CheckSpends, InsertOutputs, InputCommits, Walk;
    var m, b := Burning(l, l.burned + more), Judged(l, body, height);
    assert Judged(m, body, height) == b by { BodyIgnoresBurned(l, body, height, subsidy, ctx, l.burned + more); }
    ApplySteps(l, body, height, subsidy, ctx);
    ProjectionPassed(l, body, height, subsidy, ctx);
    BodyIgnoresBurned(l, b, height, subsidy, ctx, l.burned + more);
    KernelSumIgnoresBurned(l, b, l.burned + more);
    ProjectionIgnoresBurned(l, b, l.burned + more);
    var next := Apply(l, body, height, subsidy, ctx).value;
    NothingCirculates(SumAfter(l, b).value, next.kernelSum, next.minted, next.burned, next.burned + more);
    NothingCirculates(Walk(next.utxos.Keys).value, next.kernelSum, next.minted, next.burned, next.burned + more);
  }

  /** The first body with its fee raised by one replays, to the same ledger but for the burned total. */
  lemma {:induction false} RaisedReplays(l: Ledger, height: nat, r: Scalar, s: Scalar, ctx: Network)
    requires Apply(l, BurnBody(height, r, s, SUBSIDY, ctx), height, SUBSIDY, ctx).Success?
    requires l.burned + SUBSIDY + 1 < TWO64
    ensures var next := Apply(l, BurnBody(height, r, s, SUBSIDY, ctx), height, SUBSIDY, ctx).value;
            && next.burned == l.burned + SUBSIDY
            && ApplyStateOnly(l, BurnBody(height, r, s, SUBSIDY + 1, ctx), height, SUBSIDY) == Success(Burning(next, next.burned + 1))
    ensures CaptureUndo(l, BurnBody(height, r, s, SUBSIDY + 1, ctx)) == CaptureUndo(l, BurnBody(height, r, s, SUBSIDY, ctx))
    ensures CaptureUndo(l, BurnBody(height, r, s, SUBSIDY, ctx)).Success?
  {
    hide Apply, TotalFee, CoinbaseKernels, FirstCoinbase, TotalReward, Excesses, InputCommits, OutputCommits, InsertOutputs, Sum, DecodeOffset;
    var b, c := BurnBody(height, r, s, SUBSIDY, ctx), BurnBody(height, r, s, SUBSIDY + 1, ctx);
    ApplyRefinesReplay(l, b, height, SUBSIDY, ctx);
    BurnLists(height, r, s, SUBSIDY, ctx);
    BurnLists(height, r, s, SUBSIDY + 1, ctx);
    forall offset ensures NextKernelSum(l, c, offset) == NextKernelSum(l, b, offset) {
    }
  }

  // ---------------------------------------------------------- the two blocks --

  lemma {:induction false} EarlySubsidy(l: Ledger, height: nat)
    requires height < 2 && l.minted <= SUBSIDY
    ensures Subsidy(l, height) == SUBSIDY && Emission.Theoretical(Emission.MAINNET, height) == SUBSIDY
  {
    assert Emission.ShiftRight(SUBSIDY, 0) == SUBSIDY;
  }

  lemma {:induction false} ForkIsLater(network: Network)
    requires network != Testnet
    ensures BindingForkHeight(network) >= 2 && ForNetwork(network).bindingHeight == BindingForkHeight(network)
  {
  }

  ghost function FirstBody(cfg: Config): Body {
    BurnBody(0, 1, 2, SUBSIDY, cfg.network)
  }

  ghost function SecondBody(cfg: Config): Body {
    BurnBody(1, 3, 4, SUBSIDY, cfg.network)
  }

  ghost function FirstLedger(cfg: Config): Ledger
    requires cfg.network != Testnet
  {
    FirstApplies(cfg);
    LedgerWith(cfg, [], ForNetwork(cfg.network), FirstBody(cfg)).value
  }

  lemma {:induction false} FirstApplies(cfg: Config)
    requires cfg.network != Testnet
    ensures NextHeight([]) == 0 && Subsidy(ForNetwork(cfg.network), 0) == SUBSIDY
    ensures var next := LedgerWith(cfg, [], ForNetwork(cfg.network), FirstBody(cfg));
            && next.Success? && Sound(next.value) && next.value.minted == next.value.burned == SUBSIDY
            && next.value.utxos.Keys == {Encoding(TimesH(3))} && next.value.bindingHeight == BindingForkHeight(cfg.network)
  {
    hide Apply, Sound, BurnBody, VerifySupply, BindingForkHeight, Subsidy;
    var g := ForNetwork(cfg.network);
    GenesisSound(cfg.network);
    ForkIsLater(cfg.network);
    EarlySubsidy(g, 0);
    BurnApplies(g, 0, 1, 2, cfg.network);
  }

  ghost function FirstBlock(cfg: Config, timestamp: u64, nonce: u64): (b: Block)
    requires cfg.network != Testnet
    ensures b.header.height == 0 && b.body == FirstBody(cfg)
  {
    FirstApplies(cfg);
    Mined(cfg, [], ForNetwork(cfg.network), FirstBody(cfg), timestamp, nonce)
  }

  lemma {:induction false} SecondApplies(cfg: Config, first: Block)
    requires cfg.network != Testnet && first.header.height == 0
    ensures NextHeight([Compact(first)]) == 1 && Subsidy(FirstLedger(cfg), 1) == SUBSIDY
    ensures var next := LedgerWith(cfg, [Compact(first)], FirstLedger(cfg), SecondBody(cfg));
            && next.Success? && Sound(next.value) && next.value.minted == next.value.burned == 2 * SUBSIDY
  {
    hide Apply, Sound, BurnBody, VerifySupply, BindingForkHeight, Subsidy;
    FirstApplies(cfg);
    ForkIsLater(cfg.network);
    var l := FirstLedger(cfg);
    EarlySubsidy(l, 1);
    assert Encoding(TimesH(7)) != Encoding(TimesH(3)) && Encoding(TimesH(7)) !in l.utxos.Keys;
    BurnApplies(l, 1, 3, 4, cfg.network);
  }

  ghost function SecondBlock(cfg: Config, first: Block, timestamp: u64, nonce: u64): (b: Block)
    requires cfg.network != Testnet && first.header.height == 0
    ensures b.header.height == 1 && b.body == SecondBody(cfg)
  {
    SecondApplies(cfg, first);
    Mined(cfg, [Compact(first)], FirstLedger(cfg), SecondBody(cfg), timestamp, nonce)
  }

  /** The first block with its fee raised by one dark. */
  ghost function RaisedBlock(cfg: Config, first: Block): Block {
    first.(body := BurnBody(0, 1, 2, SUBSIDY + 1, cfg.network))
  }

  ghost function FirstStep(cfg: Config, first: Block): Step
    requires cfg.network != Testnet
  {
    var undo := CaptureUndo(ForNetwork(cfg.network), FirstBody(cfg));
    Step(first, FirstLedger(cfg), TipUndo(Work(first.header.difficulty), if undo.Success? then undo.value else StateUndo([], [], ZERO_BYTES, 0, 0, 0, 0, 0)))
  }

  /** The first block is a validated chain of its own. */
  lemma {:induction false} FirstIsVerified(cfg: Config, timestamp: u64, nonce: u64, now: u64)
    requires cfg.network != Testnet && SealFits(cfg, [], FirstBlock(cfg, timestamp, nonce), now)
    ensures var first := FirstBlock(cfg, timestamp, nonce);
            && first.header.height == 0 && Normal(cfg, first) == first && first.header.reward == SUBSIDY
            && Verified(cfg, [FirstStep(cfg, first)]) && RootsMatch(FirstLedger(cfg), first.header).Pass?
            && CaptureUndo(ForNetwork(cfg.network), FirstBody(cfg)).Success?
  {
    hide Accept, SealFits, Apply, Sound, BurnBody, BindingForkHeight, Subsidy, CaptureUndo, History, StepAt, CheckedAt, Normal, HasAnyBinding, RootsMatch,
         NextDifficulty, MedianTimePast, FreshAt;
    var g := ForNetwork(cfg.network);
    var first := FirstBlock(cfg, timestamp, nonce);
    FirstApplies(cfg);
    ForkIsLater(cfg.network);
    BurnIsCanonical(0, 1, 2, SUBSIDY, cfg.network);
    FirstNotEmpty(cfg);
    MinedIsAccepted(cfg, [], g, FirstBody(cfg), timestamp, nonce, now);
    var step := FirstStep(cfg, first);
    NoHistory(cfg);
    assert Compacts([]) == [] && LedgerAt(cfg, [], 0) == g;
    OneMore(cfg, Full(now), [], first);
    assert [] + [step] == [step];
    CheckedFacts(cfg, [step], 0);
    SubsidyPaid(cfg);
  }

  lemma {:induction false} FirstNotEmpty(cfg: Config)
    ensures TotalFee(FirstBody(cfg).kernels) == SUBSIDY == TotalFee(SecondBody(cfg).kernels)
  {
    hide BurnBody;
    BurnLists(0, 1, 2, SUBSIDY, cfg.network);
    BurnLists(1, 3, 4, SUBSIDY, cfg.network);
  }

  lemma {:induction false} SubsidyPaid(cfg: Config)
    ensures CoinbaseDue(SUBSIDY, SUBSIDY) == SUBSIDY
  {
  }

  /** Own-disk replay takes the raised block, and its roots match. */
  lemma {:induction false} RaisedIsTrusted(cfg: Config, timestamp: u64, nonce: u64, now: u64)
    requires cfg.network != Testnet && SealFits(cfg, [], FirstBlock(cfg, timestamp, nonce), now)
    ensures var first := FirstBlock(cfg, timestamp, nonce);
            var l := FirstLedger(cfg);
            && l.burned == SUBSIDY
            && Trust(cfg, [], ForNetwork(cfg.network), RaisedBlock(cfg, first))
               == Success(Step(RaisedBlock(cfg, first), Burning(l, SUBSIDY + 1), FirstStep(cfg, first).undo))
            && RootsMatch(Burning(l, SUBSIDY + 1), first.header).Pass?
  {
    hide Apply, Sound, BurnBody, BindingForkHeight, Subsidy, CaptureUndo, History, Verified, Normal, HasAnyBinding, SealFits, ApplyStateOnly, CheckLink,
         StripBinding;
    var g, first := ForNetwork(cfg.network), FirstBlock(cfg, timestamp, nonce);
    var raised := RaisedBlock(cfg, first);
    FirstApplies(cfg);
    FirstIsVerified(cfg, timestamp, nonce, now);
    BurnIsCanonical(0, 1, 2, SUBSIDY + 1, cfg.network);
    StripRemovesBinding(raised.body);
    assert Normal(cfg, raised) == raised by { UnboundIsNormal(cfg, raised); }
    RaisedReplays(g, 0, 1, 2, cfg.network);
    TrustSteps(cfg, [], g, raised);
    var step := FirstStep(cfg, first);
    VerifiedIsHistory(cfg, [step]);
    ReplayOne(cfg, [step], 0);
    assert [step][..0] == [] && Compacts([]) == [];
    TrustSteps(cfg, [], g, first);
    LinkByHeader(cfg, [], first, raised);
  }

  lemma {:induction false} UnboundIsNormal(cfg: Config, b: Block)
    requires StripBinding(b.body) == b.body
    ensures Normal(cfg, b) == b
  {
    hide StripBinding;
  }

  /** The second block is accepted on the ledger that the raised first block leaves, as on the one the first block leaves. */
  lemma {:induction false} SecondOnRaised(cfg: Config, first: Block, timestamp: u64, nonce: u64, now: u64)
    requires cfg.network != Testnet && first.header.height == 0
    requires SealFits(cfg, [Compact(first)], SecondBlock(cfg, first, timestamp, nonce), now)
    ensures FirstLedger(cfg).burned == SUBSIDY
    ensures var r := Accept(cfg, [Compact(first)], Burning(FirstLedger(cfg), SUBSIDY + 1), SecondBlock(cfg, first, timestamp, nonce), now, true);
            && r.Success? && r.value.ledger.minted == 2 * SUBSIDY && r.value.ledger.burned == 2 * SUBSIDY + 1
            && r.value.block == SecondBlock(cfg, first, timestamp, nonce)
            && VerifySupply(r.value.ledger).Pass?
  {
    hide Accept, Apply, Sound, BurnBody, BindingForkHeight, CaptureUndo, Normal, HasAnyBinding, SealFits, VerifySupply, RootOf, RootOfBody, TipHash,
         NextDifficulty, MedianTimePast, LaterOf, SaturatingAdd, TotalFee, CoinbaseDue, Emission.RewardAt;
    var hs, l, body := [Compact(first)], FirstLedger(cfg), SecondBody(cfg);
    var m := Burning(l, SUBSIDY + 1);
    FirstApplies(cfg);
    SecondApplies(cfg, first);
    ForkIsLater(cfg.network);
    assert Subsidy(m, 1) == SUBSIDY;
    OverburnedTakes(l, body, 1, SUBSIDY, cfg.network, 1);
    assert LedgerWith(cfg, hs, m, body) == Success(Burning(LedgerWith(cfg, hs, l, body).value, 2 * SUBSIDY + 1));
    BurnIsCanonical(1, 3, 4, SUBSIDY, cfg.network);
    assert Mined(cfg, hs, m, body, timestamp, nonce) == Mined(cfg, hs, l, body, timestamp, nonce);
    MinedIsAccepted(cfg, hs, m, body, timestamp, nonce, now);
    SupplyHolds(m, body, 1, SUBSIDY, cfg.network);
  }

  // --------------------------------------------------------- the candidate --

  lemma {:induction false} OneTrusted(cfg: Config, l: Ledger, b: Block)
    requires Trust(cfg, [], l, b).Success?
    ensures StepsOf(cfg, OwnDisk, [], l, [b]) == Success([Trust(cfg, [], l, b).value])
  {
    hide Trust;
    assert [b][..0] == [] && StepsOf(cfg, OwnDisk, [], l, []) == Success([]);
    assert Compacts([]) == [] && [] + Compacts([]) == [] && EndLedger(l, []) == l;
    var step := Trust(cfg, [], l, b).value;
    assert [] + [step] == [step];
  }

  /** A trusted block that matches its roots, and one accepted on it. */
  lemma {:induction false} TwoSteps(cfg: Config, l: Ledger, a: Block, b: Block, now: u64)
    requires Trust(cfg, [], l, a).Success?
    requires var s := Trust(cfg, [], l, a).value;
             && RootsMatch(s.ledger, s.block.header).Pass?
             && Accept(cfg, [Compact(s.block)], s.ledger, b, now, true).Success?
    ensures var s := Trust(cfg, [], l, a).value;
            RebuiltSteps(cfg, [], l, [a, b], 1, now) == Success([s, Accept(cfg, [Compact(s.block)], s.ledger, b, now, true).value])
  {
    hide Trust, Accept, RootsMatch, StepsOf;
    var s := Trust(cfg, [], l, a).value;
    var t := Accept(cfg, [Compact(s.block)], s.ledger, b, now, true).value;
    assert [a, b][..1] == [a] && [a, b][1..] == [b];
    OneTrusted(cfg, l, a);
    assert [] + Compacts([s]) == [Compact(s.block)] && EndLedger(l, [s]) == s.ledger;
    OneStep(cfg, [Compact(s.block)], s.ledger, b, now);
    assert [s] + [t] == [s, t];
  }

  lemma {:induction false} WorkOfTwo(a: Block, b: Block)
    ensures WorkOf([a, b]) == Work(a.header.difficulty) + Work(b.header.difficulty) && Work(b.header.difficulty) > 0
  {
    assert [a, b][..1] == [a] && [a][..0] == [];
    assert WorkOf([]) == 0 && WorkOf([a]) == Work(a.header.difficulty);
  }

  lemma {:induction false} OwnTip(cfg: Config, s: Step, b: Block)
    requires s.undo.work == Work(s.block.header.difficulty)
    ensures UndoWork(Undos([s])) == Work(s.block.header.difficulty)
    ensures var ours := Hashes(Compacts([s]));
            |ours| == 1 && forall a: Block :: a.header == s.block.header ==> CommonPrefix(ours[0..], [a, b]) == 1
  {
    assert Undos([s])[..0] == [];
    var ours := Hashes(Compacts([s]));
    assert ours[0..] == ours && ours[1..] == [];
    forall a: Block | a.header == s.block.header ensures CommonPrefix(ours[0..], [a, b]) == 1 {
      assert [a, b][1..] == [b];
      assert CommonPrefix([], [b]) == 0;
    }
  }

  lemma {:induction false} TwoPushed(cfg: Config, s: Step, t: Step)
    ensures ArchiveOf(cfg, [s, t]).ledger == t.ledger && ArchiveOf(cfg, [s, t]).totalWork == s.undo.work + t.undo.work
  {
    hide Push;
    assert [s, t][..1] == [s] && [s][..0] == [];
    PushAllFields(NewFair(cfg), [s, t]);
    assert Undos([s, t]) == [s.undo, t.undo];
    assert [s.undo, t.undo][..1] == [s.undo] && [s.undo][..0] == [];
    assert UndoWork([]) == 0 && UndoWork([s.undo]) == s.undo.work;
    assert UndoWork([s.undo, t.undo]) == s.undo.work + t.undo.work;
  }

  /** What two blocks declare to have burned, and what the schedule mints with them. */
  lemma {:induction false} RaisedTotals(cfg: Config, first: Block, second: Block)
    requires second.body == SecondBody(cfg)
    ensures DeclaredBurned(cfg, None, [RaisedBlock(cfg, first), second]) == 2 * SUBSIDY + 1
    ensures ScheduledMint(cfg, None, [RaisedBlock(cfg, first), second]) == 2 * SUBSIDY
  {
    hide TotalFee, BurnBody, Emission.RewardAt, Emission.Theoretical, ForNetwork;
    var raised := RaisedBlock(cfg, first);
    var g := ForNetwork(cfg.network);
    GenesisFields(cfg.network);
    BurnLists(0, 1, 2, SUBSIDY + 1, cfg.network);
    BurnLists(1, 3, 4, SUBSIDY, cfg.network);
    EarlySubsidy(g, 0);
    EarlySubsidy(g.(minted := SUBSIDY), 1);
    assert [raised, second][..1] == [raised] && [raised][..0] == [];
    assert DeclaredFees(0, []) == 0;
    assert DeclaredFees(0, [raised]) == SUBSIDY + 1;
    assert Emission.Minted(Emission.MAINNET, 1) == SUBSIDY;
  }

  /**
    The failing input.  On any network but the one that has the binding fork from genesis, a node holds a first block that
    mints a subsidy and burns it all.  Offered that block with its fee raised by one dark, and a valid second block, it
    returns a chain that has burned more than was ever minted.
   */
  lemma {:induction false} OverburnedIsReturned(cfg: Config, t0: u64, n0: u64, t1: u64, n1: u64, now: u64)
    requires cfg.network != Testnet && AssumeValidTo(cfg, 2) <= 1
    requires SealFits(cfg, [], FirstBlock(cfg, t0, n0), now)
    requires SealFits(cfg, [Compact(FirstBlock(cfg, t0, n0))], SecondBlock(cfg, FirstBlock(cfg, t0, n0), t1, n1), now)
    ensures var first := FirstBlock(cfg, t0, n0);
            var x := [FirstStep(cfg, first)];
            var ours, blocks := Hashes(Compacts(x)), [RaisedBlock(cfg, first), SecondBlock(cfg, first, t1, n1)];
            var verdict := EvaluateReorg(cfg, UndoWork(Undos(x)), ours, None, blocks, now);
            && Verified(cfg, x) && EndsOnValidated(cfg, ours, None, blocks, x)
            && verdict.Success? && verdict.value.Some? && !Sound(verdict.value.value.ledger)
            && DeclaredBurned(cfg, None, blocks) == ScheduledMint(cfg, None, blocks) + 1
  {
    hide Accept, Trust, SealFits, BurnBody, Verified, RebuiltSteps, EvaluateReorg, WorkOf, UndoWork, Hashes, Compacts, CommonPrefix, PushAll, Sound,
         RootsMatch, VerifySupply, DeclaredBurned, ScheduledMint, AssumeValidTo, Mined, FirstLedger, CaptureUndo, Undos, Work, BindingForkHeight;
    var first := FirstBlock(cfg, t0, n0);
    var second, raised := SecondBlock(cfg, first, t1, n1), RaisedBlock(cfg, first);
    var g := ForNetwork(cfg.network);
    var s0 := FirstStep(cfg, first);
    FirstIsVerified(cfg, t0, n0, now);
    RaisedIsTrusted(cfg, t0, n0, now);
    SecondOnRaised(cfg, first, t1, n1, now);
    TwoSteps(cfg, g, raised, second, now);
    var s := Trust(cfg, [], g, raised).value;
    var t := Accept(cfg, [Compact(s.block)], s.ledger, second, now, true).value;
    NextStores(cfg, Full(now), [Compact(s.block)], s.ledger, second);
    OwnTip(cfg, s0, second);
    WorkOfTwo(raised, second);
    TwoPushed(cfg, s, t);
    StartShape(cfg, None);
    EvaluateSteps(cfg, UndoWork(Undos([s0])), Hashes(Compacts([s0])), None, [raised, second], now);
    RaisedTotals(cfg, first, second);
    NotSound(t.ledger);
  }

  lemma {:induction false} NotSound(l: Ledger)
    requires l.burned > l.minted
    ensures !Sound(l)
  {
    hide Sound;
    if Sound(l) {
      BurnedWithinMinted(l);
      assert false;
    }
  }
}
