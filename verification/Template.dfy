/**
  Building a block to mine: the coinbase, the aggregate of the chosen transactions, and the template
  (crates/nightfall-consensus/src/lib.rs, crates/nightfall-ledger/src/builder.rs and aggregate.rs).

  Randomness is a parameter: the secrets drawn for the coinbase.
 */
module Templates {
  import opened Wrappers
  import opened Words
  import opened Curve
  import opened Sorting
  import opened Utxos
  import opened Transactions
  import opened Ledgers
  import opened LedgerProofs
  import opened Aggregation
  import opened Admission
  import opened SupplyProofs
  import opened Blocks
  import opened Consensus
  import opened StepProofs
  import Emission

  // ------------------------------------------------------- in block shape --

  function StripAll(txs: seq<Transaction>): seq<Transaction> {
    MapSeq(StripTransaction, txs)
  }

  // ------------------------------------------------------------- coinbase --

  datatype Address = Address(scanPk: Bytes32, spendPk: Bytes32)

  datatype Secrets = Secrets(blind: Scalar, ephemeral: Scalar, offset: Scalar, oneTimePk: Point, payload: nat, nonce: nat)

  function Negate(s: Scalar): Scalar {
    if s == 0 then 0 else L - s
  }

  function TimesG(s: Scalar): Bytes32 {
    Encoding(Point(s, 0))
  }

  function CoinbaseOutput(reward: u64, ctx: Network, r: Secrets): Output {
    var commit, ephemeral, oneTime := Pedersen(reward, r.blind), TimesG(r.ephemeral), Encoding(r.oneTimePk);
    Output(true, commit, ephemeral, oneTime, ctx, r.payload,
           Signature(ephemeral, OutputMessage(true, commit, ephemeral, oneTime, ctx, r.payload), r.nonce))
  }

  /** `attach_stealth`. */
  function AttachStealth(k: Kernel, x: Scalar, nonce: nat): Kernel {
    k.(stealthExcess := Some(TimesG(x)), stealthSig := Some(Signature(TimesG(x), StealthMessage(k.SigningMessage(), TimesG(x)), nonce)))
  }

  function StealthSecret(r: Secrets): Scalar {
    Fold(Negate(r.ephemeral) + Negate(r.offset))
  }

  function CoinbaseKernel(reward: u64, height: nat, r: Secrets): Kernel {
    AttachStealth(BuildKernel(Coinbase, 0, reward, height, r.blind, r.nonce), StealthSecret(r), r.nonce)
  }

  /** `build_coinbase`: one flagged output, a kernel whose excess opens it, and the key balance closed by an offset. */
  function BuildCoinbase(miner: Address, reward: u64, height: nat, ctx: Network, r: Secrets): Result<Transaction, ConsensusError> {
    var decodes := miner.scanPk.Encoding? && miner.spendPk.Encoding?;
    :- Need(decodes, BadAddress);
    Success(Transaction([], [CoinbaseOutput(reward, ctx, r)], [CoinbaseKernel(reward, height, r)], Some(r.offset), None))
  }

  // ------------------------------------------------------------- template --

  datatype Template = Template(header: BlockHeader, body: Body, builtOn: Hash)

  /** Fees of the chosen transactions: checked from the fork on, wrapping below it. */
  function CollectedFees(txs: seq<Transaction>, binding: bool): Option<u64> {
    if txs == [] then Some(0)
    else
      var n := |txs| - 1;
      match CollectedFees(txs[..n], binding)
      case None => None
      case Some(acc) =>
        if !binding then Some(WrappingAdd(acc, TotalFee(txs[n].kernels)))
        else
          match CheckedFeeSum(txs[n].kernels)
          case None => None
          case Some(fee) => if acc + fee >= TWO64 then None else Some(acc + fee)
  }

  function BindingAt(cfg: Config, height: nat): bool {
    height >= BindingForkHeight(cfg.network)
  }

  /** The transactions as they go into a block at a height: at most 511, below the fork in the 1.0.x shape. */
  function Shaped(cfg: Config, height: nat, txs: seq<Transaction>): seq<Transaction> {
    var taken := if |txs| > MAX_TXS_PER_BLOCK - 1 then txs[..MAX_TXS_PER_BLOCK - 1] else txs;
    if BindingAt(cfg, height) then taken else StripAll(taken)
  }

  function BodyOf(cfg: Config, height: nat, coinbase: Transaction, shaped: seq<Transaction>): Body {
    Aggregate([if BindingAt(cfg, height) then coinbase else StripTransaction(coinbase)] + shaped)
  }

  function LaterOf(a: u64, b: u64): u64 {
    if a >= b then a else b
  }

  /** `build_template`. */
  function BuildTemplate(cfg: Config, hs: Headers, l: Ledger, miner: Address, r: Secrets, txs: seq<Transaction>, timestamp: u64)
    : Result<Template, ConsensusError>
  {
    var height := NextHeight(hs);
    var subsidy := Subsidy(l, height);
    var shaped := Shaped(cfg, height, txs);
    var fees := CollectedFees(shaped, BindingAt(cfg, height));
    :- Need(fees.Some?, TxFeeOutOfRange);
    var due := CoinbaseDue(subsidy, fees.value);
    var coinbase :- BuildCoinbase(miner, due, height, cfg.network, r);
    var body := BodyOf(cfg, height, coinbase, shaped);
    var next :- Lift(Apply(l, body, height, subsidy, cfg.network));
    var later := LaterOf(timestamp, SaturatingAdd(MedianTimePast(hs), 1));
    Success(Template(BlockHeader(PROTOCOL_VERSION, height, TipHash(cfg, hs), RootOf(next.utxos), next.kernelSum, RootOfBody(body),
                                 later, NextDifficulty(cfg, hs), 0, due),
                     body, TipHash(cfg, hs)))
  }

  function Seal(t: Template, nonce: u64): Block {
    Block(t.header.(nonce := nonce), t.body)
  }

  // ------------------------------------------------- sealing is accepting --

  /** What a successful build has established. */
  lemma {:induction false} TemplateSteps(cfg: Config, hs: Headers, l: Ledger, miner: Address, r: Secrets, txs: seq<Transaction>, timestamp: u64)
    requires BuildTemplate(cfg, hs, l, miner, r, txs, timestamp).Success?
    ensures var height := NextHeight(hs);
            var shaped := Shaped(cfg, height, txs);
            var fees := CollectedFees(shaped, BindingAt(cfg, height));
            && fees.Some?
            && var due := CoinbaseDue(Subsidy(l, height), fees.value);
               && BuildCoinbase(miner, due, height, cfg.network, r).Success?
               && var body := BodyOf(cfg, height, BuildCoinbase(miner, due, height, cfg.network, r).value, shaped);
                  var next := Apply(l, body, height, Subsidy(l, height), cfg.network);
                  && next.Success?
                  && BuildTemplate(cfg, hs, l, miner, r, txs, timestamp).value
                     == Template(BlockHeader(PROTOCOL_VERSION, height, TipHash(cfg, hs), RootOf(next.value.utxos), next.value.kernelSum,
                                             RootOfBody(body), LaterOf(timestamp, SaturatingAdd(MedianTimePast(hs), 1)),
                                             NextDifficulty(cfg, hs), 0, due),
                                 body, TipHash(cfg, hs))
  {
    hide Apply, BodyOf, Subsidy, CollectedFees, Shaped, RootOf, RootOfBody, MedianTimePast, NextDifficulty, NextHeight, TipHash,
         CoinbaseDue, BuildCoinbase, SaturatingAdd;
  }

  /** Nothing is lost or invented by merging. */
  lemma {:induction false} MergeElements(txs: seq<Transaction>)
    ensures forall i :: i in Merge(txs).inputs <==> exists n :: 0 <= n < |txs| && i in txs[n].inputs
    ensures forall k :: k in Merge(txs).kernels <==> exists n :: 0 <= n < |txs| && k in txs[n].kernels
  {
    if txs != [] {
      var last := |txs| - 1;
      MergeElements(txs[..last]);
      forall i ensures i in Merge(txs).inputs <==> exists n :: 0 <= n < |txs| && i in txs[n].inputs {
        if exists n :: 0 <= n < |txs| && i in txs[n].inputs {
          var n :| 0 <= n < |txs| && i in txs[n].inputs;
          assert n < last ==> txs[..last][n] == txs[n];
        }
      }
      forall k ensures k in Merge(txs).kernels <==> exists n :: 0 <= n < |txs| && k in txs[n].kernels {
        if exists n :: 0 <= n < |txs| && k in txs[n].kernels {
          var n :| 0 <= n < |txs| && k in txs[n].kernels;
          assert n < last ==> txs[..last][n] == txs[n];
        }
      }
    }
  }

  ghost predicate Unbound(tx: Transaction) {
    && tx.stealthOffset.None? && tx.kernelOffset.None?
    && (forall i :: i in tx.inputs ==> !i.HasBinding())
    && (forall k :: k in tx.kernels ==> k.stealthExcess.None? && k.stealthSig.None?)
  }

  lemma {:induction false} StrippedIsUnbound(tx: Transaction)
    ensures Unbound(StripTransaction(tx))
  {
    var s := StripTransaction(tx);
    forall i | i in s.inputs ensures !i.HasBinding() {
      var n :| 0 <= n < |s.inputs| && s.inputs[n] == i;
      assert s.inputs[n] == tx.inputs[n].StripBinding();
    }
    forall k | k in s.kernels ensures k.stealthExcess.None? && k.stealthSig.None? {
      var n :| 0 <= n < |s.kernels| && s.kernels[n] == k;
      assert s.kernels[n] == tx.kernels[n].StripBinding();
    }
  }

  lemma {:induction false} MergeOffsets(txs: seq<Transaction>)
    requires forall n :: 0 <= n < |txs| ==> txs[n].stealthOffset.None? && txs[n].kernelOffset.None?
    ensures Merge(txs).stealthOffset.None? && Merge(txs).kernelOffset.None?
  {
    if txs != [] {
      MergeOffsets(txs[..|txs| - 1]);
    }
  }

  /** Transactions in the 1.0.x shape aggregate to a body in the 1.0.x shape. */
  lemma {:induction false} AggregateUnbound(txs: seq<Transaction>)
    requires forall n :: 0 <= n < |txs| ==> Unbound(txs[n])
    ensures !HasAnyBinding(Aggregate(txs))
  {
    hide Sort, Merge;
    MergeOffsets(txs);
    MergeElements(txs);
    var m := Merge(txs);
    SortElements(InputLe, m.inputs);
    SortElements(KernelLe, m.kernels);
    var b := Aggregate(txs);
    forall i | 0 <= i < |b.inputs| ensures !b.inputs[i].HasBinding() {
      assert b.inputs[i] in m.inputs;
    }
    forall i | 0 <= i < |b.kernels| ensures b.kernels[i].stealthExcess.None? && b.kernels[i].stealthSig.None? {
      assert b.kernels[i] in m.kernels;
    }
  }

  lemma {:induction false} BodyUnbound(cfg: Config, height: nat, coinbase: Transaction, txs: seq<Transaction>)
    requires !BindingAt(cfg, height)
    ensures StripBinding(BodyOf(cfg, height, coinbase, Shaped(cfg, height, txs))) == BodyOf(cfg, height, coinbase, Shaped(cfg, height, txs))
  {
    hide StripTransaction, Aggregate, StripBinding, HasAnyBinding;
    var shaped := Shaped(cfg, height, txs);
    var all := [StripTransaction(coinbase)] + shaped;
    StrippedIsUnbound(coinbase);
    forall n | 0 <= n < |all| ensures Unbound(all[n]) {
      if n > 0 {
        StrippedIsUnbound(if |txs| > MAX_TXS_PER_BLOCK - 1 then txs[..MAX_TXS_PER_BLOCK - 1][n - 1] else txs[n - 1]);
      }
    }
    AggregateUnbound(all);
    StripRemovesBinding(Aggregate(all));
  }

  lemma {:induction false} StripKeepsCoinbase(tx: Transaction)
    requires tx.kernels != []
    ensures StripTransaction(tx).kernels != []
    ensures StripTransaction(tx).kernels[0].feature == tx.kernels[0].feature && StripTransaction(tx).kernels[0].reward == tx.kernels[0].reward
  {
  }

  /** The coinbase kernel that was built is in the body. */
  lemma {:induction false} CoinbaseInBody(cfg: Config, height: nat, coinbase: Transaction, shaped: seq<Transaction>)
    requires coinbase.kernels != []
    ensures exists k :: k in BodyOf(cfg, height, coinbase, shaped).kernels
                        && k.feature == coinbase.kernels[0].feature && k.reward == coinbase.kernels[0].reward
  {
    hide StripTransaction, Sort, Merge;
    StripKeepsCoinbase(coinbase);
    var first := if BindingAt(cfg, height) then coinbase else StripTransaction(coinbase);
    var all := [first] + shaped;
    MergeElements(all);
    SortElements(KernelLe, Merge(all).kernels);
    assert first.kernels[0] in all[0].kernels;
    assert first.kernels[0] in Merge(all).kernels;
  }

  /** A block body the ledger accepts pays exactly what the built coinbase says. */
  lemma {:induction false} RewardIsDue(l: Ledger, b: Body, height: nat, subsidy: u64, ctx: Network, k: Kernel)
    requires Apply(l, b, height, subsidy, ctx).Success? && (BindingActive(l, height) || StripBinding(b) == b)
    requires k in b.kernels && k.feature.Coinbase?
    ensures k.reward == CoinbaseDue(subsidy, TotalFee(b.kernels))
    ensures b.outputs != [] && b.kernels != [] && !ExceedsSizeLimits(b) && CheckSpends(b.inputs, {}, l.utxos).Pass?
  {
    hide Apply, CheckBody, CheckCoinbaseKernel, HasAnyBinding, StripBinding, TotalFee, CheckSpends, FirstCoinbase, CoinbaseKernels,
         IsCanonical, ExceedsSizeLimits, CheckKernels, CheckOutputs, CheckInputs, ValueBalance, VerifySupply;
    ApplySteps(l, b, height, subsidy, ctx);
    BodySteps(l, b, height, subsidy, ctx);
    OneCoinbase(l, b, height, subsidy);
    OneCoinbaseOnly(b.kernels, k);
  }

  /** The only ways in which a sealed template can still be refused: work, clock drift, a pin, an exhausted clock. */
  predicate SealFits(cfg: Config, hs: Headers, b: Block, now: u64) {
    && cfg.pow(b.header)
    && b.header.timestamp <= SaturatingAdd(now, MAX_FUTURE_DRIFT)
    && (CheckpointAt(cfg.checkpoints, b.header.height).Some? ==> CheckpointAt(cfg.checkpoints, b.header.height).value == HashOf(b))
    && (hs != [] ==> MedianTimePast(hs) < TWO64 - 1)
  }

  /** Every header check a sealed template passes by construction. */
  lemma {:induction false} SealedHeader(cfg: Config, hs: Headers, b: Block, now: u64, timestamp: u64)
    requires b.header.version == PROTOCOL_VERSION && b.body.outputs != [] && b.body.kernels != [] && !ExceedsSizeLimits(b.body)
    requires b.header.height == NextHeight(hs) && b.header.prevHash == TipHash(cfg, hs)
    requires b.header.difficulty == NextDifficulty(cfg, hs)
    requires b.header.timestamp == LaterOf(timestamp, SaturatingAdd(MedianTimePast(hs), 1))
    ensures CheckHeader(cfg, hs, b, now, true).Pass? <==> SealFits(cfg, hs, b, now)
  {
    hide NextHeight, TipHash, NextDifficulty, MedianTimePast, ExceedsSizeLimits, CheckpointAt;
  }

  /**
    A template is always acceptable.  Sealed with any nonce, what `build_template` returned is accepted on the
    same tip exactly when its nonce meets the difficulty, its timestamp is within the drift, no other block is
    pinned at its height, and the median time past is not the last representable second.
   */
  lemma {:induction false} SealedIsAccepted(cfg: Config, hs: Headers, l: Ledger, miner: Address, r: Secrets, txs: seq<Transaction>, timestamp: u64,
                         nonce: u64, now: u64)
    requires l.bindingHeight == BindingForkHeight(cfg.network)
    requires BuildTemplate(cfg, hs, l, miner, r, txs, timestamp).Success?
    ensures var b := Seal(BuildTemplate(cfg, hs, l, miner, r, txs, timestamp).value, nonce);
            Accept(cfg, hs, l, b, now, true).Success? <==> SealFits(cfg, hs, b, now)
  {
    hide BuildTemplate, Apply, BodyOf, Subsidy, CollectedFees, Shaped, RootOf, RootOfBody, MedianTimePast, NextDifficulty, NextHeight,
         TipHash, CoinbaseDue, SaturatingAdd, SealFits, CheckHeader, CaptureUndo, TotalFee, StripBinding, CheckSpends,
         ExceedsSizeLimits, SpentEntries, OutputCommits, CoinbaseKernel, CoinbaseOutput;
    TemplateSteps(cfg, hs, l, miner, r, txs, timestamp);
    var t := BuildTemplate(cfg, hs, l, miner, r, txs, timestamp).value;
    var b := Seal(t, nonce);
    var height := NextHeight(hs);
    var shaped := Shaped(cfg, height, txs);
    var due := t.header.reward;
    var coinbase := BuildCoinbase(miner, due, height, cfg.network, r).value;
    CoinbaseOfBuild(miner, due, height, cfg.network, r);
    CoinbaseInBody(cfg, height, coinbase, shaped);
    var k :| k in t.body.kernels && k.feature == coinbase.kernels[0].feature && k.reward == coinbase.kernels[0].reward;
    if !BindingAt(cfg, height) {
      BodyUnbound(cfg, height, coinbase, txs);
    }
    assert Normal(cfg, b) == b;
    RewardIsDue(l, t.body, height, Subsidy(l, height), cfg.network, k);
    CaptureWhenSpendable(l, t.body);
    SealedHeader(cfg, hs, b, now, timestamp);
  }

  lemma {:induction false} CoinbaseOfBuild(miner: Address, reward: u64, height: nat, ctx: Network, r: Secrets)
    requires BuildCoinbase(miner, reward, height, ctx, r).Success?
    ensures var tx := BuildCoinbase(miner, reward, height, ctx, r).value;
            tx.kernels != [] && tx.kernels[0].feature.Coinbase? && tx.kernels[0].reward == reward
  {
  }

  lemma {:induction false} CaptureWhenSpendable(l: Ledger, b: Body)
    requires CheckSpends(b.inputs, {}, l.utxos).Pass?
    ensures CaptureUndo(l, b).Success?
  {
    hide CheckSpends, SpentEntries, OutputCommits;
  }

  // ------------------------------------------------- which templates build --

  /** What the program draws and is given for the coinbase, short of astronomically unlikely draws. */
  ghost predicate GoodSecrets(l: Ledger, miner: Address, r: Secrets, due: u64) {
    && miner.scanPk.Encoding? && miner.spendPk.Encoding?
    && r.blind != 0
    && Pedersen(due, r.blind) !in l.utxos
  }

  ghost function CoinbaseInShape(l: Ledger, due: u64, height: nat, ctx: Network, r: Secrets): Transaction {
    InShape(l, Transaction([], [CoinbaseOutput(due, ctx, r)], [CoinbaseKernel(due, height, r)], Some(r.offset), None), height)
  }

  lemma {:induction false} NegateCancels(r: Secrets)
    ensures var e: int, x: int, o: int := r.ephemeral, StealthSecret(r), r.offset; Congruent(-e - x - o, 0)
  {
    var e: int, o: int := r.ephemeral, r.offset;
    var k := (if e == 0 then 0 else 1) + (if o == 0 then 0 else 1) - (if Negate(e) + Negate(o) >= L then 1 else 0);
    assert -e - StealthSecret(r) - o == 0 + Multiple(-k);
  }

  lemma {:induction false} SingleSum<T>(f: T -> int, x: T)
    ensures SumOver(f, [x]) == f(x)
  {
    assert [x][1..] == [];
  }

  /** The built coinbase balances on its own, in keys as in value. */
  lemma {:induction false} CoinbaseBalances(due: u64, height: nat, ctx: Network, r: Secrets)
    ensures var b := Body([], [CoinbaseOutput(due, ctx, r)], [CoinbaseKernel(due, height, r)], Some(r.offset), None);
            Balanced(b) && KeyBalanced(b)
  {
    hide SumOver, Congruent, StealthSecret;
    var o, k := CoinbaseOutput(due, ctx, r), CoinbaseKernel(due, height, r);
    SingleSum(OutG, o);
    SingleSum(OutH, o);
    SingleSum(EphemeralG, o);
    SingleSum(EphemeralH, o);
    SingleSum(FeeOf, k);
    SingleSum(RewardOf, k);
    SingleSum(ExcessG, k);
    SingleSum(ExcessH, k);
    SingleSum(StealthG, k);
    SingleSum(StealthH, k);
    EmptyMeasures();
    CongruentRefl(0);
    NegateCancels(r);
  }

  lemma {:induction false} EmptyMeasures()
    ensures SumOver(InG, []) == 0 && SumOver(InH, []) == 0 && SumOver(KeyG, []) == 0 && SumOver(KeyH, []) == 0
  {
  }

  lemma {:induction false} CoinbaseKernelFits(due: u64, height: nat, r: Secrets)
    requires r.blind != 0
    ensures KernelFits(CoinbaseKernel(due, height, r), height) && KernelFits(CoinbaseKernel(due, height, r).StripBinding(), height)
  {
    BuiltKernelVerifies(Coinbase, 0, due, height, r.blind, r.nonce, 0, due, height);
  }

  lemma {:induction false} CoinbaseFits(l: Ledger, miner: Address, due: u64, height: nat, ctx: Network, r: Secrets)
    requires GoodSecrets(l, miner, r, due)
    ensures Fits(l, AsBody(CoinbaseInShape(l, due, height, ctx, r)), height, ctx)
  {
    hide Balanced, KeyBalanced, KernelFits, SumOver;
    CoinbaseBalances(due, height, ctx, r);
    CoinbaseKernelFits(due, height, r);
    var tx := Transaction([], [CoinbaseOutput(due, ctx, r)], [CoinbaseKernel(due, height, r)], Some(r.offset), None);
    StripKeepsBalance(tx.(stealthOffset := None));
    StripElements(tx);
    BalanceIgnoresStealth(AsBody(tx), None);
    CoinbaseOutputFits(l, miner, due, ctx, r);
  }

  lemma {:induction false} CoinbaseOutputFits(l: Ledger, miner: Address, due: u64, ctx: Network, r: Secrets)
    requires GoodSecrets(l, miner, r, due)
    ensures OutputFits(l, CoinbaseOutput(due, ctx, r), ctx)
  {
  }

  lemma {:induction false} BalanceIgnoresStealth(b: Body, o: Offset)
    ensures Balanced(b.(stealthOffset := o)) == Balanced(b)
  {
    hide SumOver, Congruent;
  }

  /** A merged list, read from the front. */
  lemma {:induction false} MergeCons(first: Transaction, rest: seq<Transaction>)
    ensures var m, n := Merge([first] + rest), Merge(rest);
            && m.inputs == first.inputs + n.inputs && m.outputs == first.outputs + n.outputs && m.kernels == first.kernels + n.kernels
  {
    if rest == [] {
      assert [first][..0] == [];
      assert [first] + rest == [first];
    } else {
      var k := |rest| - 1;
      assert ([first] + rest)[..|[first] + rest| - 1] == [first] + rest[..k];
      MergeCons(first, rest[..k]);
    }
  }

  /** The collected fees are the exact total, when that fits 64 bits. */
  lemma {:induction false} CollectedExact(txs: seq<Transaction>, binding: bool)
    requires forall n :: 0 <= n < |txs| ==> CheckedFeeSum(txs[n].kernels).Some?
    requires SumOver(FeeOf, Merge(txs).kernels) < TWO64
    ensures CollectedFees(txs, binding) == Some(SumOver(FeeOf, Merge(txs).kernels))
  {
    hide CheckedFeeSum, TotalFee;
    if txs != [] {
      var n := |txs| - 1;
      assert forall k :: 0 <= k < n ==> txs[..n][k] == txs[k];
      TotalAppend(FeeOf, Merge(txs[..n]).kernels, txs[n].kernels);
      CheckedFeeSumExact(txs[n].kernels);
      FeesBounded(Merge(txs[..n]).kernels);
      CollectedExact(txs[..n], binding);
    } else {
      assert Merge(txs).kernels == [];
    }
  }

  /** The measures of the coinbase are those of its one kernel and its one output. */
  lemma {:induction false} CoinbaseOfMerge(l: Ledger, due: u64, height: nat, ctx: Network, r: Secrets, shaped: seq<Transaction>)
    requires forall n :: 0 <= n < |shaped| ==> SumOver(IsCoinbaseKernel, shaped[n].kernels) == 0 && SumOver(IsFlagged, shaped[n].outputs) == 0
    ensures var k := CoinbaseInShape(l, due, height, ctx, r).kernels;
            |k| == 1 && HasCoinbase(Merge([CoinbaseInShape(l, due, height, ctx, r)] + shaped), k[0], CoinbaseOutput(due, ctx, r), height, due)
    ensures SumOver(FeeOf, Merge([CoinbaseInShape(l, due, height, ctx, r)] + shaped).kernels) == SumOver(FeeOf, Merge(shaped).kernels)
  {
    hide SumOver;
    var cb := CoinbaseInShape(l, due, height, ctx, r);
    var m := Merge([cb] + shaped);
    ShapeOfCoinbase(l, due, height, ctx, r);
    MergeCons(cb, shaped);
    SingleSum(IsCoinbaseKernel, cb.kernels[0]);
    SingleSum(IsFlagged, cb.outputs[0]);
    SingleSum(FeeOf, cb.kernels[0]);
    NoCoinbaseMerged(shaped);
    TotalAppend(IsCoinbaseKernel, cb.kernels, Merge(shaped).kernels);
    TotalAppend(IsFlagged, cb.outputs, Merge(shaped).outputs);
    TotalAppend(FeeOf, cb.kernels, Merge(shaped).kernels);
    assert cb.kernels[0] in m.kernels && cb.outputs[0] in m.outputs;
  }

  lemma {:induction false} ShapeOfCoinbase(l: Ledger, due: u64, height: nat, ctx: Network, r: Secrets)
    ensures var cb := CoinbaseInShape(l, due, height, ctx, r);
            && cb.inputs == [] && cb.outputs == [CoinbaseOutput(due, ctx, r)]
            && |cb.kernels| == 1 && cb.kernels == [cb.kernels[0]]
            && (cb.kernels[0] == CoinbaseKernel(due, height, r) || cb.kernels[0] == CoinbaseKernel(due, height, r).StripBinding())
    ensures var k := CoinbaseKernel(due, height, r);
            k.feature.Coinbase? && k.fee == 0 && k.reward == due && k.lockHeight == height && k.excess == Encoding(TimesH(r.blind))
    ensures Minus(Pedersen(due, r.blind).point, PublicValue(due)) == TimesH(r.blind)
  {
  }

  lemma {:induction false} NoCoinbaseMerged(txs: seq<Transaction>)
    requires forall n :: 0 <= n < |txs| ==> SumOver(IsCoinbaseKernel, txs[n].kernels) == 0 && SumOver(IsFlagged, txs[n].outputs) == 0
    ensures SumOver(IsCoinbaseKernel, Merge(txs).kernels) == 0 && SumOver(IsFlagged, Merge(txs).outputs) == 0
  {
    if txs != [] {
      hide SumOver, AddOffsets;
      var n := |txs| - 1;
      NoCoinbaseMerged(txs[..n]);
      TotalAppend(IsCoinbaseKernel, Merge(txs[..n]).kernels, txs[n].kernels);
      TotalAppend(IsFlagged, Merge(txs[..n]).outputs, txs[n].outputs);
    }
  }

  lemma {:induction false} StripKeepsCount(kernels: seq<Kernel>)
    ensures SumOver(IsCoinbaseKernel, StripKernels(kernels)) == SumOver(IsCoinbaseKernel, kernels)
  {
    if kernels != [] {
      StripKeepsCount(kernels[1..]);
      var s := StripKernels(kernels);
      assert s[0] == kernels[0].StripBinding() && s[1..] == StripKernels(kernels[1..]);
    }
  }

  lemma {:induction false} NoneFlagged(outputs: seq<Output>)
    requires forall o :: o in outputs ==> !o.coinbase
    ensures SumOver(IsFlagged, outputs) == 0
  {
    if outputs != [] {
      assert outputs[0] in outputs;
      NoneFlagged(outputs[1..]);
    }
  }

  lemma {:induction false} AcceptableIsPlain(l: Ledger, tx: Transaction, height: nat, ctx: Network)
    requires Acceptable(l, tx, height, ctx)
    ensures var t := InShape(l, tx, height);
            && SumOver(IsCoinbaseKernel, t.kernels) == 0 && SumOver(IsFlagged, t.outputs) == 0
            && CheckedFeeSum(t.kernels).Some? && SumOver(FeeOf, t.kernels) == SumOver(FeeOf, tx.kernels)
  {
    hide SumOver, CheckedFeeSum, ValueBalance, KeyBalance, StripTransaction;
    CoinbaseCount(tx.kernels);
    StripKeepsCount(tx.kernels);
    StripKeepsRewards(tx.kernels);
    StripFields(tx);
    CheckedFeeSumExact(tx.kernels);
    CheckedFeeSumExact(StripKernels(tx.kernels));
    NoneFlagged(tx.outputs);
    forall i | 0 <= i < |StripKernels(tx.kernels)| ensures StripKernels(tx.kernels)[i].fee <= MAX_SUPPLY_DARKS {
      assert StripKernels(tx.kernels)[i] == tx.kernels[i].StripBinding();
    }
  }

  /** The transactions a template takes from those it is offered. */
  function Taken(txs: seq<Transaction>): seq<Transaction> {
    if |txs| > MAX_TXS_PER_BLOCK - 1 then txs[..MAX_TXS_PER_BLOCK - 1] else txs
  }

  /** Transactions that fit together: distinct spends and outputs, within the size limits. */
  ghost predicate Compatible(m: Body) {
    DistinctInputs(m.inputs) && DistinctOutputs(m.outputs) && !ExceedsSizeLimits(m)
  }

  ghost predicate AllUnlocked(txs: seq<Transaction>, height: nat) {
    forall n :: 0 <= n < |txs| ==> Unlocked(txs[n], height)
  }

  lemma {:induction false} SubsidyFits(l: Ledger, height: nat)
    requires l.minted <= MAX_SUPPLY_DARKS
    ensures l.minted + Subsidy(l, height) <= MAX_SUPPLY_DARKS
  {
    hide Emission.Theoretical;
  }

  lemma {:induction false} ShapedIs(cfg: Config, l: Ledger, height: nat, txs: seq<Transaction>)
    requires l.bindingHeight == BindingForkHeight(cfg.network)
    ensures var shaped := Shaped(cfg, height, txs);
            |shaped| == |Taken(txs)| && forall n :: 0 <= n < |shaped| ==> shaped[n] == InShape(l, Taken(txs)[n], height)
  {
    hide StripTransaction;
  }

  /** The coinbase and the taken transactions, as they go into the block. */
  ghost function Parts(cfg: Config, l: Ledger, height: nat, r: Secrets, due: u64, txs: seq<Transaction>): seq<Transaction> {
    [CoinbaseInShape(l, due, height, cfg.network, r)] + Shaped(cfg, height, txs)
  }

  ghost predicate AllAcceptable(cfg: Config, l: Ledger, height: nat, txs: seq<Transaction>) {
    forall n :: 0 <= n < |txs| ==> Acceptable(l, txs[n], height, cfg.network)
  }

  lemma {:induction false} PartsFit(cfg: Config, l: Ledger, miner: Address, r: Secrets, txs: seq<Transaction>, height: nat, due: u64)
    requires l.bindingHeight == BindingForkHeight(cfg.network) && GoodSecrets(l, miner, r, due)
    requires AllAcceptable(cfg, l, height, Taken(txs)) && AllUnlocked(Taken(txs), height)
    ensures Fits(l, Merge(Parts(cfg, l, height, r, due, txs)), height, cfg.network)
  {
    hide Acceptable, Fits, Shaped, CoinbaseInShape, InShape, Merge, GoodSecrets, Unlocked, Taken;
    var all := Parts(cfg, l, height, r, due, txs);
    ShapedIs(cfg, l, height, txs);
    CoinbaseFits(l, miner, due, height, cfg.network, r);
    forall n | 0 <= n < |all| ensures Fits(l, AsBody(all[n]), height, cfg.network) {
      if n > 0 {
        AcceptableFits(l, Taken(txs)[n - 1], height, cfg.network);
      }
    }
    MergeFits(l, all, height, cfg.network);
  }

  lemma {:induction false} PartsPlain(cfg: Config, l: Ledger, txs: seq<Transaction>, height: nat)
    requires l.bindingHeight == BindingForkHeight(cfg.network) && AllAcceptable(cfg, l, height, Taken(txs))
    ensures forall n :: 0 <= n < |Shaped(cfg, height, txs)| ==>
              && SumOver(IsCoinbaseKernel, Shaped(cfg, height, txs)[n].kernels) == 0
              && SumOver(IsFlagged, Shaped(cfg, height, txs)[n].outputs) == 0
              && CheckedFeeSum(Shaped(cfg, height, txs)[n].kernels).Some?
  {
    hide Acceptable, Shaped, InShape, Taken, SumOver, CheckedFeeSum;
    ShapedIs(cfg, l, height, txs);
    var shaped := Shaped(cfg, height, txs);
    forall n | 0 <= n < |shaped|
      ensures SumOver(IsCoinbaseKernel, shaped[n].kernels) == 0 && SumOver(IsFlagged, shaped[n].outputs) == 0
      ensures CheckedFeeSum(shaped[n].kernels).Some?
    {
      AcceptableIsPlain(l, Taken(txs)[n], height, cfg.network);
    }
  }

  // -------------------------------------------- fees come out of the money there is --

  /** What admission settles about the money in a body: it balances, spends what exists, and creates amounts in range. */
  ghost predicate Pays(l: Ledger, b: Body) {
    && Balanced(b)
    && (forall i :: i in b.inputs ==> i.commit in l.utxos)
    && (forall o :: o in b.outputs ==> InRange(o.commit))
    && (forall k :: k in b.kernels ==> ExcessG(k) == 0 && k.reward == 0)
  }

  lemma {:induction false} AcceptablePays(l: Ledger, tx: Transaction, height: nat, ctx: Network)
    requires Acceptable(l, tx, height, ctx)
    ensures Pays(l, AsBody(InShape(l, tx, height)))
  {
    hide SumOver, Congruent, ValueBalance, KeyBalance, Decodes, ValueG, ValueH, StripTransaction, TotalFee, TotalReward, CoinbaseKernels,
         CheckedFeeSum;
    PlainHasNoReward(tx.kernels);
    FeeWithinSupply(tx.kernels);
    BalancedAlone(AsBody(tx));
    StripElements(tx);
    if !BindingActive(l, height) {
      StripKeepsBalance(tx);
    }
  }

  lemma {:induction false} MergePays(l: Ledger, txs: seq<Transaction>)
    requires forall n :: 0 <= n < |txs| ==> Pays(l, AsBody(txs[n]))
    ensures Pays(l, Merge(txs))
  {
    hide Balanced;
    if txs == [] {
      EmptyBalances();
    } else {
      var n := |txs| - 1;
      assert forall k :: 0 <= k < n ==> txs[..n][k] == txs[k];
      MergePays(l, txs[..n]);
      JoinBalances(Merge(txs[..n]), AsBody(txs[n]));
    }
  }

  lemma {:induction false} NoExcessValue(kernels: seq<Kernel>)
    requires forall k :: k in kernels ==> ExcessG(k) == 0 && k.reward == 0
    ensures SumOver(ExcessG, kernels) == 0 && SumOver(RewardOf, kernels) == 0
  {
    if kernels != [] {
      assert kernels[0] in kernels;
      NoExcessValue(kernels[1..]);
    }
  }

  lemma {:induction false} OutputsInRange(outputs: seq<Output>)
    requires forall o :: o in outputs ==> InRange(o.commit)
    ensures 0 <= SumOver(OutG, outputs) <= |outputs| * TWO64
  {
    if outputs != [] {
      assert outputs[0] in outputs;
      OutputsInRange(outputs[1..]);
    }
  }

  /** Distinct inputs that exist hide no more than there is. */
  lemma {:induction false} InputsWithinValue(l: Ledger, inputs: seq<Input>)
    requires DistinctInputs(inputs) && forall i :: i in inputs ==> i.commit in l.utxos
    ensures 0 <= SumOver(InG, inputs) <= Value(l)
  {
    hide SumOver, SetSum;
    var list := MapSeq(InputCommit, inputs);
    MapSum(GOf, InputCommit, InG, inputs);
    forall c | c in list ensures c in l.utxos.Keys {
      var i :| 0 <= i < |inputs| && list[i] == c;
      assert inputs[i] in inputs;
    }
    RemoveAll(l.utxos.Keys, list, GOf);
    SetSumNonNegative(l.utxos.Keys - ToSet(list));
    InputsNonNegative(inputs);
  }

  lemma {:induction false} InputsNonNegative(inputs: seq<Input>)
    ensures SumOver(InG, inputs) >= 0
  {
    if inputs != [] {
      InputsNonNegative(inputs[1..]);
    }
  }

  /** The fees of spendable transactions are part of the money there is: on a sound ledger they cannot wrap. */
  lemma {:induction false} FeesWithinValue(l: Ledger, m: Body)
    requires Sound(l) && Pays(l, m) && DistinctInputs(m.inputs) && !ExceedsSizeLimits(m)
    ensures 0 <= SumOver(FeeOf, m.kernels) <= Value(l) <= MAX_SUPPLY_DARKS
  {
    hide SumOver, SetSum, ValueH, Decodes, Congruent, Value;
    InputsWithinValue(l, m.inputs);
    OutputsInRange(m.outputs);
    NoExcessValue(m.kernels);
    FeesBounded(m.kernels);
    CapOfValue(l);
    CongruentClose(ValueG(m), 0);
  }

  lemma {:induction false} CapOfValue(l: Ledger)
    requires Sound(l)
    ensures Value(l) <= MAX_SUPPLY_DARKS
  {
    hide Value, Congruent, SetSum;
  }

  /** The total fee of what a template takes, whatever is locked. */
  lemma {:induction false} TemplateFees(cfg: Config, l: Ledger, r: Secrets, txs: seq<Transaction>, height: nat, due: u64)
    requires Sound(l) && l.bindingHeight == BindingForkHeight(cfg.network) && AllAcceptable(cfg, l, height, Taken(txs))
    requires Compatible(Merge(Parts(cfg, l, height, r, due, txs)))
    ensures 0 <= SumOver(FeeOf, Merge(Shaped(cfg, height, txs)).kernels) <= Value(l) < TWO64
    ensures SumOver(FeeOf, Merge(Parts(cfg, l, height, r, due, txs)).kernels) == SumOver(FeeOf, Merge(Shaped(cfg, height, txs)).kernels)
  {
    hide Acceptable, Pays, Shaped, CoinbaseInShape, InShape, Merge, Taken, SumOver, Value, Sound, CheckedFeeSum;
    ShapedIs(cfg, l, height, txs);
    var shaped := Shaped(cfg, height, txs);
    forall n | 0 <= n < |shaped| ensures Pays(l, AsBody(shaped[n])) {
      AcceptablePays(l, Taken(txs)[n], height, cfg.network);
    }
    MergePays(l, shaped);
    PartsPlain(cfg, l, txs, height);
    CoinbaseOfMerge(l, due, height, cfg.network, r, shaped);
    ShapeOfCoinbase(l, due, height, cfg.network, r);
    MergeCons(CoinbaseInShape(l, due, height, cfg.network, r), shaped);
    assert [] + Merge(shaped).inputs == Merge(shaped).inputs;
    FeesWithinValue(l, Merge(shaped));
  }

  /** The body of an unlocked, compatible template passes every check of the ledger. */
  lemma {:induction false} UnlockedBodyPasses(cfg: Config, l: Ledger, miner: Address, r: Secrets, txs: seq<Transaction>, height: nat, fees: u64, due: u64)
    requires Sound(l) && l.bindingHeight == BindingForkHeight(cfg.network) && GoodSecrets(l, miner, r, due)
    requires AllAcceptable(cfg, l, height, Taken(txs)) && AllUnlocked(Taken(txs), height)
    requires Compatible(Merge(Parts(cfg, l, height, r, due, txs)))
    requires fees == SumOver(FeeOf, Merge(Shaped(cfg, height, txs)).kernels) && due == CoinbaseDue(Subsidy(l, height), fees)
    ensures CheckBody(l, Aggregate(Parts(cfg, l, height, r, due, txs)), height, Subsidy(l, height), cfg.network).Pass?
  {
    hide Sound, AllAcceptable, AllUnlocked, Fits, HasCoinbase, SumOver, Shaped, CoinbaseInShape, CheckBody, Subsidy, Merge, GoodSecrets,
         CoinbaseOutput, Canonicalise, DistinctInputs, DistinctOutputs, ExceedsSizeLimits, Taken, CheckedFeeSum;
    PartsFit(cfg, l, miner, r, txs, height, due);
    PartsPlain(cfg, l, txs, height);
    CoinbaseOfMerge(l, due, height, cfg.network, r, Shaped(cfg, height, txs));
    CapOfSound(l, height);
    TemplateFees(cfg, l, r, txs, height, due);
    AssembledPasses(l, Merge(Parts(cfg, l, height, r, due, txs)), CoinbaseInShape(l, due, height, cfg.network, r).kernels[0],
                    CoinbaseOutput(due, cfg.network, r), height, Subsidy(l, height), due, cfg.network);
  }

  lemma {:induction false} CapOfSound(l: Ledger, height: nat)
    requires Sound(l)
    ensures l.minted + Subsidy(l, height) <= MAX_SUPPLY_DARKS
  {
    hide Subsidy, Value, Congruent;
    SubsidyFits(l, height);
  }

  /** The body a build attempts, in the words above. */
  lemma {:induction false} BodyIsParts(cfg: Config, l: Ledger, miner: Address, r: Secrets, txs: seq<Transaction>, height: nat, due: u64)
    requires l.bindingHeight == BindingForkHeight(cfg.network) && miner.scanPk.Encoding? && miner.spendPk.Encoding?
    ensures BuildCoinbase(miner, due, height, cfg.network, r).Success?
    ensures var body := BodyOf(cfg, height, BuildCoinbase(miner, due, height, cfg.network, r).value, Shaped(cfg, height, txs));
            body == Aggregate(Parts(cfg, l, height, r, due, txs)) && Judged(l, body, height) == body
  {
    hide Shaped, Aggregate, StripTransaction, StripBinding, HasAnyBinding, CoinbaseOutput, CoinbaseKernel;
    var coinbase := BuildCoinbase(miner, due, height, cfg.network, r).value;
    if !BindingAt(cfg, height) {
      BodyUnbound(cfg, height, coinbase, txs);
      StripRemovesBinding(BodyOf(cfg, height, coinbase, Shaped(cfg, height, txs)));
    }
  }

  /** A build succeeds exactly when fees add up and the ledger accepts the body. */
  lemma {:induction false} BuildDecides(cfg: Config, hs: Headers, l: Ledger, miner: Address, r: Secrets, txs: seq<Transaction>, timestamp: u64,
                     fees: u64, due: u64)
    requires Sound(l) && l.bindingHeight == BindingForkHeight(cfg.network) && miner.scanPk.Encoding? && miner.spendPk.Encoding?
    requires CollectedFees(Shaped(cfg, NextHeight(hs), txs), BindingAt(cfg, NextHeight(hs))) == Some(fees)
    requires due == CoinbaseDue(Subsidy(l, NextHeight(hs)), fees)
    ensures BuildTemplate(cfg, hs, l, miner, r, txs, timestamp).Success?
            <==> CheckBody(l, Aggregate(Parts(cfg, l, NextHeight(hs), r, due, txs)), NextHeight(hs), Subsidy(l, NextHeight(hs)), cfg.network).Pass?
  {
    hide Sound, Shaped, Aggregate, Parts, BodyOf, CheckBody, Apply, Subsidy, CollectedFees, BuildCoinbase, RootOf, RootOfBody, MedianTimePast,
         NextDifficulty, TipHash, Judged, CoinbaseDue, NextHeight;
    var height := NextHeight(hs);
    BodyIsParts(cfg, l, miner, r, txs, height, due);
    AcceptedExactlyWhenChecked(l, Aggregate(Parts(cfg, l, height, r, due, txs)), height, Subsidy(l, height), cfg.network);
  }

  lemma {:induction false} KernelsUnlocked(kernels: seq<Kernel>, height: nat)
    requires CheckKernels(kernels, height).Pass?
    ensures forall k :: k in kernels && k.feature.Plain? ==> k.lockHeight <= height
  {
    if kernels != [] {
      KernelsUnlocked(kernels[1..], height);
      assert forall k :: k in kernels <==> k == kernels[0] || k in kernels[1..];
    }
  }

  lemma {:induction false} LockedInShape(l: Ledger, tx: Transaction, height: nat, ctx: Network) returns (k: Kernel)
    requires Acceptable(l, tx, height, ctx) && !Unlocked(tx, height)
    ensures k in InShape(l, tx, height).kernels && k.feature.Plain? && k.lockHeight > height
  {
    hide ValueBalance, KeyBalance, CheckedFeeSum, SumOver, TotalReward, StripTransaction;
    var i :| 0 <= i < |tx.kernels| && tx.kernels[i].lockHeight > height;
    assert tx.kernels[i] in tx.kernels;
    PlainHasNoReward(tx.kernels);
    StripFields(tx);
    k := if BindingActive(l, height) then tx.kernels[i] else tx.kernels[i].StripBinding();
    assert InShape(l, tx, height).kernels[i] == k;
  }

  lemma {:induction false} KernelInBody(parts: seq<Transaction>, n: nat, k: Kernel)
    requires n < |parts| && k in parts[n].kernels
    ensures k in Aggregate(parts).kernels
  {
    hide Sort, Merge;
    MergeElements(parts);
    SortElements(KernelLe, Merge(parts).kernels);
  }

  /** A locked kernel among the parts is a locked kernel in the body. */
  lemma {:induction false} LockedReachesBody(cfg: Config, l: Ledger, r: Secrets, txs: seq<Transaction>, height: nat, due: u64)
    requires l.bindingHeight == BindingForkHeight(cfg.network) && AllAcceptable(cfg, l, height, Taken(txs))
    requires !AllUnlocked(Taken(txs), height)
    ensures exists k :: k in Aggregate(Parts(cfg, l, height, r, due, txs)).kernels && k.feature.Plain? && k.lockHeight > height
  {
    hide Shaped, Aggregate, Taken, CoinbaseInShape, InShape, Acceptable, Unlocked;
    ShapedIs(cfg, l, height, txs);
    var n :| 0 <= n < |Taken(txs)| && !Unlocked(Taken(txs)[n], height);
    var k := LockedInShape(l, Taken(txs)[n], height, cfg.network);
    KernelInBody(Parts(cfg, l, height, r, due, txs), n + 1, k);
  }

  /**
    Which templates build.  Offered transactions that each pass admission and that fit together, the build
    succeeds exactly when none of them is locked beyond the next height: admission does not look at locks.
   */
  lemma {:induction false} AdmittedBuildsIffUnlocked(cfg: Config, hs: Headers, l: Ledger, miner: Address, r: Secrets, txs: seq<Transaction>, timestamp: u64,
                                  fees: u64, due: u64)
    requires Sound(l) && l.bindingHeight == BindingForkHeight(cfg.network) && GoodSecrets(l, miner, r, due)
    requires AllAcceptable(cfg, l, NextHeight(hs), Taken(txs))
    requires Compatible(Merge(Parts(cfg, l, NextHeight(hs), r, due, txs)))
    requires fees == SumOver(FeeOf, Merge(Shaped(cfg, NextHeight(hs), txs)).kernels)
    requires due == CoinbaseDue(Subsidy(l, NextHeight(hs)), fees)
    ensures BuildTemplate(cfg, hs, l, miner, r, txs, timestamp).Success? <==> AllUnlocked(Taken(txs), NextHeight(hs))
  {
    hide Sound, AllAcceptable, AllUnlocked, Compatible, SumOver, Shaped, Parts, CheckBody, Subsidy, Merge, Aggregate, BuildTemplate,
         CollectedFees, Taken, CoinbaseDue, CheckedFeeSum, NextHeight, CheckKernels, IsCanonical, ExceedsSizeLimits, CheckCoinbaseKernel,
         CheckOutputs, CheckInputs, ValueBalance;
    var height := NextHeight(hs);
    PartsPlain(cfg, l, txs, height);
    TemplateFees(cfg, l, r, txs, height, due);
    CollectedExact(Shaped(cfg, height, txs), BindingAt(cfg, height));
    BuildDecides(cfg, hs, l, miner, r, txs, timestamp, fees, due);
    var body := Aggregate(Parts(cfg, l, height, r, due, txs));
    if AllUnlocked(Taken(txs), height) {
      UnlockedBodyPasses(cfg, l, miner, r, txs, height, fees, due);
    } else {
      LockedReachesBody(cfg, l, r, txs, height, due);
      if CheckBody(l, body, height, Subsidy(l, height), cfg.network).Pass? {
        BodySteps(l, body, height, Subsidy(l, height), cfg.network);
        KernelsUnlocked(body.kernels, height);
        assert false;
      }
    }
  }

  /** The template without transactions always builds: the miner never has to stop. */
  lemma {:induction false} EmptyTemplateBuilds(cfg: Config, hs: Headers, l: Ledger, miner: Address, r: Secrets, timestamp: u64)
    requires Sound(l) && l.bindingHeight == BindingForkHeight(cfg.network)
    requires GoodSecrets(l, miner, r, Subsidy(l, NextHeight(hs)))
    ensures BuildTemplate(cfg, hs, l, miner, r, [], timestamp).Success?
  {
    hide Sound, GoodSecrets, Subsidy, BuildTemplate, NextHeight, CoinbaseInShape, Compatible, Merge, SumOver, Parts, Shaped, Taken,
         AllAcceptable, AllUnlocked;
    var height := NextHeight(hs);
    var due := Subsidy(l, height);
    NothingTaken(cfg, l, height);
    CoinbaseIsCompatible(cfg, l, r, height, due);
    AdmittedBuildsIffUnlocked(cfg, hs, l, miner, r, [], timestamp, 0, due);
  }

  lemma {:induction false} NothingTaken(cfg: Config, l: Ledger, height: nat)
    ensures Taken([]) == [] && Shaped(cfg, height, []) == [] && Merge([]) == EMPTY && SumOver(FeeOf, EMPTY.kernels) == 0
    ensures AllAcceptable(cfg, l, height, []) && AllUnlocked([], height)
  {
  }

  /** The coinbase alone fits together. */
  lemma {:induction false} CoinbaseIsCompatible(cfg: Config, l: Ledger, r: Secrets, height: nat, due: u64)
    ensures Compatible(Merge(Parts(cfg, l, height, r, due, [])))
  {
    hide SumOver, CoinbaseInShape, Merge, CoinbaseOutput, CoinbaseKernel;
    var cb := CoinbaseInShape(l, due, height, cfg.network, r);
    NothingTaken(cfg, l, height);
    assert Parts(cfg, l, height, r, due, []) == [cb] + [];
    CoinbaseOfMerge(l, due, height, cfg.network, r, []);
    ShapeOfCoinbase(l, due, height, cfg.network, r);
    MergeCons(cb, []);
  }

  // ------------------------------------------------------------- filtering --

  /** The transactions admission still takes, in order. */
  function Keep(cfg: Config, l: Ledger, height: nat, txs: seq<Transaction>): seq<Transaction> {
    if txs == [] then []
    else Keep(cfg, l, height, txs[..|txs| - 1]) + if Acceptable(l, txs[|txs| - 1], height, cfg.network) then [txs[|txs| - 1]] else []
  }

  function Dropped(cfg: Config, l: Ledger, height: nat, txs: seq<Transaction>): seq<Transaction> {
    if txs == [] then []
    else Dropped(cfg, l, height, txs[..|txs| - 1]) + if Acceptable(l, txs[|txs| - 1], height, cfg.network) then [] else [txs[|txs| - 1]]
  }

  ghost predicate NoneAcceptable(cfg: Config, l: Ledger, height: nat, txs: seq<Transaction>) {
    forall n :: 0 <= n < |txs| ==> !Acceptable(l, txs[n], height, cfg.network)
  }

  /** `build_template_filtering`; the three attempts draw their own secrets. */
  method BuildTemplateFiltering(cfg: Config, hs: Headers, l: Ledger, miner: Address, first: Secrets, second: Secrets, third: Secrets,
                                txs: seq<Transaction>, timestamp: u64)
    returns (r: Result<(Template, seq<Transaction>), ConsensusError>)
    requires Sound(l) && l.bindingHeight == BindingForkHeight(cfg.network)
    ensures GoodSecrets(l, miner, third, Subsidy(l, NextHeight(hs))) ==> r.Success?
    ensures var height := NextHeight(hs);
            var whole := BuildTemplate(cfg, hs, l, miner, first, txs, timestamp);
            var kept := BuildTemplate(cfg, hs, l, miner, second, Keep(cfg, l, height, txs), timestamp);
            r == if whole.Success? then Success((whole.value, []))
                 else if kept.Success? then Success((kept.value, Dropped(cfg, l, height, txs)))
                 else match BuildTemplate(cfg, hs, l, miner, third, [], timestamp)
                      case Success(t) => Success((t, Dropped(cfg, l, height, txs)))
                      case Failure(e) => Failure(e)
    ensures AllAcceptable(cfg, l, NextHeight(hs), Keep(cfg, l, NextHeight(hs), txs))
    ensures r.Success? ==> NoneAcceptable(cfg, l, NextHeight(hs), r.value.1)
  {
    hide BuildTemplate, Acceptable, Sound, GoodSecrets, Subsidy, NextHeight;
    var height := NextHeight(hs);
    KeptIsAcceptable(cfg, l, height, txs);
    DroppedIsRefused(cfg, l, height, txs);
    var whole := BuildTemplate(cfg, hs, l, miner, first, txs, timestamp);
    if whole.Success? {
      return Success((whole.value, []));
    }
    var keep, dropped := [], [];
    assert txs[..|txs|] == txs;
    for i := 0 to |txs|
      invariant keep == Keep(cfg, l, height, txs[..i]) && dropped == Dropped(cfg, l, height, txs[..i])
    {
      assert txs[..i + 1][..i] == txs[..i];
      if Acceptable(l, txs[i], height, cfg.network) {
        keep := keep + [txs[i]];
      } else {
        dropped := dropped + [txs[i]];
      }
    }
    var kept := BuildTemplate(cfg, hs, l, miner, second, keep, timestamp);
    if kept.Success? {
      return Success((kept.value, dropped));
    }
    if GoodSecrets(l, miner, third, Subsidy(l, height)) {
      EmptyTemplateBuilds(cfg, hs, l, miner, third, timestamp);
    }
    var empty := BuildTemplate(cfg, hs, l, miner, third, [], timestamp);
    if empty.Success? {
      return Success((empty.value, dropped));
    }
    return Failure(empty.error);
  }

  lemma {:induction false} FilteringLosesNothing(cfg: Config, l: Ledger, height: nat, txs: seq<Transaction>)
    ensures multiset(Keep(cfg, l, height, txs)) + multiset(Dropped(cfg, l, height, txs)) == multiset(txs)
    decreases |txs|
  {
    hide Acceptable;
    if txs != [] {
      var before, last := txs[..|txs| - 1], txs[|txs| - 1];
      FilteringLosesNothing(cfg, l, height, before);
      assert txs == before + [last];
    }
  }

  lemma {:induction false} KeptIsAcceptable(cfg: Config, l: Ledger, height: nat, txs: seq<Transaction>)
    ensures AllAcceptable(cfg, l, height, Keep(cfg, l, height, txs))
    decreases |txs|
  {
    hide Acceptable;
    if txs != [] {
      KeptIsAcceptable(cfg, l, height, txs[..|txs| - 1]);
    }
  }

  lemma {:induction false} DroppedIsRefused(cfg: Config, l: Ledger, height: nat, txs: seq<Transaction>)
    ensures NoneAcceptable(cfg, l, height, Dropped(cfg, l, height, txs))
    decreases |txs|
  {
    hide Acceptable;
    if txs != [] {
      DroppedIsRefused(cfg, l, height, txs[..|txs| - 1]);
    }
  }
}
