/**
  Mempool admission (`check_tx_acceptable` in crates/nightfall-ledger/src/lib.rs, the transaction checks in
  tx.rs), and what it guarantees for a block made of admitted transactions.
 */
module Admission {
  import opened Wrappers
  import opened Words
  import opened Curve
  import opened Sorting
  import opened Utxos
  import opened Transactions
  import opened Ledgers
  import opened LedgerProofs
  import opened SupplyProofs
  import opened Aggregation

  const MAX_INPUTS: nat := 512
  const MAX_OUTPUTS: nat := 512
  const MAX_KERNELS: nat := 64

  // ------------------------------------------------------- the admission rules --

  predicate DistinctInputs(s: seq<Input>) {
    forall i, j :: 0 <= i < j < |s| ==> s[i].commit != s[j].commit
  }

  predicate DistinctOutputs(s: seq<Output>) {
    forall i, j :: 0 <= i < j < |s| ==> s[i].commit != s[j].commit
  }

  /** `Transaction::check_shape`. */
  predicate ShapeOk(tx: Transaction) {
    && |tx.inputs| <= MAX_INPUTS && |tx.outputs| <= MAX_OUTPUTS
    && tx.kernels != [] && |tx.kernels| <= MAX_KERNELS && tx.outputs != []
    && DistinctInputs(tx.inputs) && DistinctOutputs(tx.outputs)
    && (forall o :: o in tx.outputs ==> o.commit.Encoding? && o.outputPk.Encoding?)
    && CoinbaseKernels(tx.kernels) <= 1
    && (CoinbaseKernels(tx.kernels) == 1 ==> tx.inputs == [])
    && (CoinbaseKernels(tx.kernels) == 0 ==> forall o :: o in tx.outputs ==> !o.coinbase)
    && (forall k :: k in tx.kernels ==> k.CheckShape().Pass?)
  }

  predicate HasFullBinding(tx: Transaction) {
    && (forall i :: i in tx.inputs ==> i.inputKey.Some? && i.keySig.Some?)
    && (forall k :: k in tx.kernels ==> k.stealthExcess.Some? && k.stealthSig.Some?)
  }

  /** `verify_stateless_rules`. */
  predicate Stateless(tx: Transaction, ctx: Network, binding: bool) {
    && ShapeOk(tx)
    && CheckedFeeSum(tx.kernels).Some?
    && (!binding ==> tx.kernelOffset.None?)
    && (binding ==> HasFullBinding(tx))
    && (binding || HasFullBinding(tx) ==> KeyBalance(AsBody(tx)).Pass?)
    && (forall o :: o in tx.outputs ==> o.VerifyRange(ctx) && o.VerifySenderSig())
    && (forall k :: k in tx.kernels ==> k.VerifySignature())
    && ValueBalance(AsBody(tx)).Pass?
  }

  /** An input that the ledger lets a block at this height spend. */
  predicate Spendable(l: Ledger, i: Input, height: nat, checkKeys: bool) {
    && i.commit in l.utxos
    && IsMature(l.utxos[i.commit], height, l.maturity)
    && VerifyInputSignature(i, l.utxos[i.commit].outputPk)
    && (checkKeys ==> VerifyInputKey(i, l.utxos[i.commit].outputPk))
  }

  /** `check_tx_acceptable`; no clause looks at a kernel's lock height. */
  predicate Acceptable(l: Ledger, tx: Transaction, height: nat, ctx: Network) {
    var binding := BindingActive(l, height);
    && CoinbaseKernels(tx.kernels) == 0
    && Stateless(tx, ctx, binding)
    && (forall i :: i in tx.inputs ==> Spendable(l, i, height, binding || HasFullBinding(tx)))
    && (forall o :: o in tx.outputs ==> o.commit !in l.utxos)
  }

  // ---------------------------------------------- what a block asks of its parts --

  ghost predicate KernelFits(k: Kernel, height: nat) {
    && k.CheckShape().Pass? && k.VerifySignature()
    && (k.feature.Plain? ==> k.lockHeight <= height)
    && k.fee <= MAX_SUPPLY_DARKS
  }

  ghost predicate OutputFits(l: Ledger, o: Output, ctx: Network) {
    o.commit.Encoding? && o.outputPk.Encoding? && o.VerifyRange(ctx) && o.VerifySenderSig() && o.commit !in l.utxos
  }

  ghost predicate Fits(l: Ledger, b: Body, height: nat, ctx: Network) {
    && (forall k :: k in b.kernels ==> KernelFits(k, height))
    && (forall o :: o in b.outputs ==> OutputFits(l, o, ctx))
    && (forall i :: i in b.inputs ==> Spendable(l, i, height, BindingActive(l, height)))
    && Balanced(b)
    && (BindingActive(l, height) ==> KeyBalanced(b))
  }

  /** The transaction as it goes into a block at this height. */
  function InShape(l: Ledger, tx: Transaction, height: nat): Transaction {
    if BindingActive(l, height) then tx else StripTransaction(tx)
  }

  ghost predicate Unlocked(tx: Transaction, height: nat) {
    forall k :: k in tx.kernels ==> k.lockHeight <= height
  }

  lemma {:induction false} PlainHasNoReward(kernels: seq<Kernel>)
    requires forall k :: k in kernels ==> k.CheckShape().Pass?
    requires CoinbaseKernels(kernels) == 0
    ensures SumOver(RewardOf, kernels) == 0 && TotalReward(kernels) == 0
    ensures forall k :: k in kernels ==> k.feature.Plain?
  {
    if kernels != [] {
      assert kernels[0] in kernels;
      PlainHasNoReward(kernels[1..]);
      assert forall k :: k in kernels <==> k == kernels[0] || k in kernels[1..];
    }
  }

  lemma {:induction false} FeeWithinSupply(kernels: seq<Kernel>)
    requires CheckedFeeSum(kernels).Some?
    ensures TotalFee(kernels) == SumOver(FeeOf, kernels)
    ensures forall k :: k in kernels ==> k.fee <= MAX_SUPPLY_DARKS
  {
    CheckedFeeSumExact(kernels);
  }

  lemma {:induction false} StripKeepsRewards(kernels: seq<Kernel>)
    ensures SumOver(RewardOf, StripKernels(kernels)) == SumOver(RewardOf, kernels)
    ensures SumOver(FeeOf, StripKernels(kernels)) == SumOver(FeeOf, kernels)
    ensures SumOver(ExcessG, StripKernels(kernels)) == SumOver(ExcessG, kernels)
    ensures SumOver(ExcessH, StripKernels(kernels)) == SumOver(ExcessH, kernels)
  {
    if kernels != [] {
      StripKeepsRewards(kernels[1..]);
      var s := StripKernels(kernels);
      assert s[0] == kernels[0].StripBinding() && s[1..] == StripKernels(kernels[1..]);
    }
  }

  lemma {:induction false} StripKeepsInputs(inputs: seq<Input>)
    ensures SumOver(InG, StripInputs(inputs)) == SumOver(InG, inputs)
    ensures SumOver(InH, StripInputs(inputs)) == SumOver(InH, inputs)
  {
    if inputs != [] {
      StripKeepsInputs(inputs[1..]);
      var s := StripInputs(inputs);
      assert s[0] == inputs[0].StripBinding() && s[1..] == StripInputs(inputs[1..]);
    }
  }

  lemma {:induction false} StripElements(tx: Transaction)
    ensures var s := StripTransaction(tx);
            && s.outputs == tx.outputs
            && (forall k :: k in s.kernels ==> exists o :: o in tx.kernels && k == o.StripBinding())
            && (forall i :: i in s.inputs ==> exists o :: o in tx.inputs && i == o.StripBinding())
  {
    var s := StripTransaction(tx);
    forall k | k in s.kernels ensures exists o :: o in tx.kernels && k == o.StripBinding() {
      var n :| 0 <= n < |s.kernels| && s.kernels[n] == k;
      assert tx.kernels[n] in tx.kernels && k == tx.kernels[n].StripBinding();
    }
    forall i | i in s.inputs ensures exists o :: o in tx.inputs && i == o.StripBinding() {
      var n :| 0 <= n < |s.inputs| && s.inputs[n] == i;
      assert tx.inputs[n] in tx.inputs && i == tx.inputs[n].StripBinding();
    }
  }

  /** Stripping the binding fields leaves the balance equation as it was, unless it carried a kernel offset. */
  lemma {:induction false} StripKeepsBalance(tx: Transaction)
    requires tx.kernelOffset.None?
    ensures Balanced(AsBody(tx)) ==> Balanced(AsBody(StripTransaction(tx)))
  {
    hide SumOver, Congruent, StripTransaction;
    StripKeepsRewards(tx.kernels);
    StripKeepsInputs(tx.inputs);
    StripElements(tx);
    StripFields(tx);
  }

  lemma {:induction false} StripFields(tx: Transaction)
    ensures StripTransaction(tx) == Transaction(StripInputs(tx.inputs), tx.outputs, StripKernels(tx.kernels), None, None)
  {
  }

  /** An admitted transaction whose kernels are not locked beyond the height meets everything a block asks of it. */
  lemma {:induction false} AcceptableFits(l: Ledger, tx: Transaction, height: nat, ctx: Network)
    requires Acceptable(l, tx, height, ctx) && Unlocked(tx, height)
    ensures Fits(l, AsBody(InShape(l, tx, height)), height, ctx)
    ensures ExactSums(AsBody(tx)) && SumOver(RewardOf, tx.kernels) == 0
  {
    hide SumOver, Congruent, ValueBalance, KeyBalance, Decodes, ValueG, ValueH, KeysG, KeysH, KeysDecode, StripTransaction, TotalFee, TotalReward,
         CoinbaseKernels, CheckedFeeSum;
    PlainHasNoReward(tx.kernels);
    FeeWithinSupply(tx.kernels);
    BalancedAlone(AsBody(tx));
    if BindingActive(l, height) {
      KeyBalanceIff(AsBody(tx));
    } else {
      StripKeepsBalance(tx);
      StripElements(tx);
    }
  }

  // ------------------------------------------------------- assembling a block --

  lemma {:induction false} JoinFits(l: Ledger, a: Body, b: Body, height: nat, ctx: Network)
    requires Fits(l, a, height, ctx) && Fits(l, b, height, ctx)
    ensures Fits(l, Join(a, b), height, ctx)
  {
    hide Balanced, KeyBalanced, KernelFits, OutputFits, Spendable;
    JoinBalances(a, b);
  }

  lemma {:induction false} MergeFits(l: Ledger, txs: seq<Transaction>, height: nat, ctx: Network)
    requires forall n :: 0 <= n < |txs| ==> Fits(l, AsBody(txs[n]), height, ctx)
    ensures Fits(l, Merge(txs), height, ctx)
  {
    hide Fits, Join;
    if txs == [] {
      EmptyFits(l, height, ctx);
    } else {
      var n := |txs| - 1;
      assert forall k :: 0 <= k < n ==> txs[..n][k] == txs[k];
      MergeFits(l, txs[..n], height, ctx);
      JoinFits(l, Merge(txs[..n]), AsBody(txs[n]), height, ctx);
    }
  }

  lemma {:induction false} EmptyFits(l: Ledger, height: nat, ctx: Network)
    ensures Fits(l, EMPTY, height, ctx)
  {
    hide Balanced, KeyBalanced;
    EmptyBalances();
  }

  lemma {:induction false} SortFits(l: Ledger, m: Body, height: nat, ctx: Network)
    requires Fits(l, m, height, ctx)
    ensures Fits(l, Canonicalise(m), height, ctx)
  {
    hide Sort, KernelFits, OutputFits, Spendable, ValueG, ValueH, KeysG, KeysH, Decodes, KeysDecode, Congruent;
    SortedAlike(m);
    SortElements(OutputLe, m.outputs);
    SortElements(InputLe, m.inputs);
    SortElements(KernelLe, m.kernels);
  }

  lemma {:induction false} KernelsPass(kernels: seq<Kernel>, height: nat)
    requires forall k :: k in kernels ==> KernelFits(k, height)
    ensures CheckKernels(kernels, height).Pass?
  {
    if kernels != [] {
      assert kernels[0] in kernels;
      KernelsPass(kernels[1..], height);
    }
  }

  lemma {:induction false} OutputsPass(l: Ledger, outputs: seq<Output>, created: set<Bytes32>, ctx: Network)
    requires forall o :: o in outputs ==> OutputFits(l, o, ctx) && o.commit !in created
    requires DistinctOutputs(outputs)
    ensures CheckOutputs(outputs, created, l.utxos, ctx).Pass?
  {
    if outputs != [] {
      assert outputs[0] in outputs;
      forall o | o in outputs[1..] ensures OutputFits(l, o, ctx) && o.commit !in created + {outputs[0].commit} {
        var j :| 0 <= j < |outputs[1..]| && outputs[1..][j] == o;
        assert outputs[j + 1] == o;
      }
      OutputsPass(l, outputs[1..], created + {outputs[0].commit}, ctx);
    }
  }

  lemma {:induction false} InputsPass(l: Ledger, inputs: seq<Input>, spent: set<Bytes32>, height: nat)
    requires forall i :: i in inputs ==> Spendable(l, i, height, BindingActive(l, height)) && i.commit !in spent
    requires DistinctInputs(inputs)
    ensures CheckInputs(inputs, spent, l, height).Pass?
  {
    if inputs != [] {
      assert inputs[0] in inputs;
      forall i | i in inputs[1..] ensures Spendable(l, i, height, BindingActive(l, height)) && i.commit !in spent + {inputs[0].commit} {
        var j :| 0 <= j < |inputs[1..]| && inputs[1..][j] == i;
        assert inputs[j + 1] == i;
      }
      InputsPass(l, inputs[1..], spent + {inputs[0].commit}, height);
    }
  }

  ghost predicate DistinctBy<T(!new)>(f: T -> Bytes32, s: seq<T>) {
    forall i, j :: 0 <= i < j < |s| ==> f(s[i]) != f(s[j])
  }

  lemma {:induction false} InsertDistinct<T(!new)>(le: (T, T) -> bool, f: T -> Bytes32, x: T, s: seq<T>)
    requires DistinctBy(f, s) && forall y :: y in s ==> f(y) != f(x)
    ensures DistinctBy(f, Insert(le, x, s))
    ensures forall y :: y in Insert(le, x, s) <==> y == x || y in s
  {
    if s == [] || le(x, s[0]) {
      var r := [x] + s;
      forall i, j | 0 <= i < j < |r| ensures f(r[i]) != f(r[j]) {
        assert j > 0 ==> r[j] == s[j - 1];
        assert i > 0 ==> r[i] == s[i - 1];
      }
    } else {
      assert s[0] in s;
      InsertDistinct(le, f, x, s[1..]);
      var tail := Insert(le, x, s[1..]);
      forall y | y in tail ensures f(y) != f(s[0]) {
        if y != x {
          var k :| 0 <= k < |s[1..]| && s[1..][k] == y;
          assert s[k + 1] == y;
        }
      }
      var r := [s[0]] + tail;
      assert Insert(le, x, s) == r;
      forall i, j | 0 <= i < j < |r| ensures f(r[i]) != f(r[j]) {
        assert r[j] == tail[j - 1];
        assert i > 0 ==> r[i] == tail[i - 1];
        assert tail[j - 1] in tail;
      }
      forall y ensures y in r <==> y == x || y in s {
        assert y in r <==> y == s[0] || y in tail;
        assert y in s <==> y == s[0] || y in s[1..];
      }
    }
  }

  lemma {:induction false} SortDistinct<T(!new)>(le: (T, T) -> bool, f: T -> Bytes32, s: seq<T>)
    requires DistinctBy(f, s)
    ensures DistinctBy(f, Sort(le, s))
  {
    if s != [] {
      SortDistinct(le, f, s[1..]);
      SortElements(le, s[1..]);
      forall y | y in Sort(le, s[1..]) ensures f(y) != f(s[0]) {
        assert y in s[1..];
        var k :| 0 <= k < |s[1..]| && s[1..][k] == y;
        assert s[k + 1] == y;
      }
      InsertDistinct(le, f, s[0], Sort(le, s[1..]));
    }
  }

  lemma {:induction false} SortedStaysDistinct(m: Body)
    requires DistinctInputs(m.inputs) && DistinctOutputs(m.outputs)
    ensures DistinctInputs(Canonicalise(m).inputs) && DistinctOutputs(Canonicalise(m).outputs)
  {
    hide Sort;
    SortDistinct(InputLe, InputCommit, m.inputs);
    SortDistinct(OutputLe, OutputCommit, m.outputs);
    var c := Canonicalise(m);
    forall i, j | 0 <= i < j < |c.inputs| ensures c.inputs[i].commit != c.inputs[j].commit {
      assert InputCommit(c.inputs[i]) != InputCommit(c.inputs[j]);
    }
    forall i, j | 0 <= i < j < |c.outputs| ensures c.outputs[i].commit != c.outputs[j].commit {
      assert OutputCommit(c.outputs[i]) != OutputCommit(c.outputs[j]);
    }
  }

  ghost function IsCoinbaseKernel(k: Kernel): int { if k.feature.Coinbase? then 1 else 0 }
  ghost function IsFlagged(o: Output): int { if o.coinbase then 1 else 0 }

  lemma {:induction false} CoinbaseCount(kernels: seq<Kernel>)
    ensures CoinbaseKernels(kernels) == SumOver(IsCoinbaseKernel, kernels)
  {
    if kernels != [] {
      CoinbaseCount(kernels[1..]);
    }
  }

  lemma {:induction false} FlaggedCount(outputs: seq<Output>)
    ensures |CoinbaseOutputs(outputs)| == SumOver(IsFlagged, outputs)
    ensures forall o :: o in CoinbaseOutputs(outputs) <==> o in outputs && o.coinbase
  {
    if outputs != [] {
      FlaggedCount(outputs[1..]);
      assert forall o :: o in outputs <==> o == outputs[0] || o in outputs[1..];
    }
  }

  lemma {:induction false} OneCoinbaseOnly(kernels: seq<Kernel>, k: Kernel)
    requires CoinbaseKernels(kernels) == 1 && k in kernels && k.feature.Coinbase?
    ensures FirstCoinbase(kernels) == k
  {
    assert k == kernels[0] || k in kernels[1..];
    if kernels[0].feature.Coinbase? {
      NoCoinbase(kernels[1..]);
    } else {
      OneCoinbaseOnly(kernels[1..], k);
    }
  }

  lemma {:induction false} NoCoinbase(kernels: seq<Kernel>)
    ensures CoinbaseKernels(kernels) == 0 <==> forall k :: k in kernels ==> k.feature.Plain?
  {
    if kernels != [] {
      NoCoinbase(kernels[1..]);
      assert forall k :: k in kernels <==> k == kernels[0] || k in kernels[1..];
    }
  }

  /** The coinbase of a merged body: one kernel, one flagged output that opens to the reward. */
  ghost predicate HasCoinbase(m: Body, k: Kernel, o: Output, height: nat, due: u64) {
    && SumOver(IsCoinbaseKernel, m.kernels) == 1 && k in m.kernels && k.feature.Coinbase?
    && k.lockHeight == height && k.reward == due
    && SumOver(IsFlagged, m.outputs) == 1 && o in m.outputs && o.coinbase
    && o.commit.Encoding? && k.excess.Encoding? && Minus(o.commit.point, PublicValue(due)) == k.excess.point
  }

  lemma {:induction false} SortKeepsCoinbase(m: Body, k: Kernel, o: Output, height: nat, due: u64)
    requires HasCoinbase(m, k, o, height, due)
    ensures HasCoinbase(Canonicalise(m), k, o, height, due)
  {
    hide Sort, SumOver, Minus;
    SortTotal(KernelLe, IsCoinbaseKernel, m.kernels);
    SortTotal(OutputLe, IsFlagged, m.outputs);
    SortElements(KernelLe, m.kernels);
    SortElements(OutputLe, m.outputs);
  }

  lemma {:induction false} CoinbasePasses(l: Ledger, b: Body, k: Kernel, o: Output, height: nat, subsidy: u64, due: u64)
    requires HasCoinbase(b, k, o, height, due) && due == (if subsidy > 0 then subsidy else TotalFee(b.kernels))
    requires l.minted + subsidy <= MAX_SUPPLY_DARKS && CheckedFeeSum(b.kernels).Some?
    ensures CheckCoinbaseKernel(l, b, height, subsidy).Pass?
    ensures CoinbaseKernels(b.kernels) > 0 && CheckCoinbaseOutput(b, FirstCoinbase(b.kernels), BindingActive(l, height)).Pass?
  {
    hide SumOver, Minus, TotalFee, CheckedFeeSum;
    CoinbaseCount(b.kernels);
    FlaggedCount(b.outputs);
    OneCoinbaseOnly(b.kernels, k);
    var flagged := CoinbaseOutputs(b.outputs);
    assert o in flagged;
  }

  lemma {:induction false} RewardOfOne(kernels: seq<Kernel>)
    requires forall k :: k in kernels ==> k.CheckShape().Pass?
    ensures SumOver(IsCoinbaseKernel, kernels) >= 0
    ensures SumOver(IsCoinbaseKernel, kernels) == 0 ==> SumOver(RewardOf, kernels) == 0
    ensures SumOver(IsCoinbaseKernel, kernels) == 1 ==> SumOver(RewardOf, kernels) < TWO64
  {
    if kernels != [] {
      assert kernels[0] in kernels;
      RewardOfOne(kernels[1..]);
    }
  }

  lemma {:induction false} FeesChecked(kernels: seq<Kernel>, height: nat)
    requires forall k :: k in kernels ==> KernelFits(k, height)
    requires SumOver(FeeOf, kernels) < TWO64
    ensures CheckedFeeSum(kernels).Some? && TotalFee(kernels) == SumOver(FeeOf, kernels)
  {
    hide SumOver, TotalFee, CheckedFeeSum;
    CheckedFeeSumExact(kernels);
    forall i | 0 <= i < |kernels| ensures kernels[i].fee <= MAX_SUPPLY_DARKS {
      assert kernels[i] in kernels;
    }
  }

  /** Parts that fit, spend and create distinct commitments and carry one coinbase make a block body that passes. */
  lemma {:induction false} AssembledPasses(l: Ledger, m: Body, k: Kernel, o: Output, height: nat, subsidy: u64, due: u64, ctx: Network)
    requires Fits(l, m, height, ctx) && HasCoinbase(m, k, o, height, due)
    requires DistinctInputs(m.inputs) && DistinctOutputs(m.outputs) && !ExceedsSizeLimits(m)
    requires SumOver(FeeOf, m.kernels) < TWO64 && due == (if subsidy > 0 then subsidy else SumOver(FeeOf, m.kernels))
    requires l.minted + subsidy <= MAX_SUPPLY_DARKS
    ensures CheckBody(l, Canonicalise(m), height, subsidy, ctx).Pass?
  {
    hide Fits, HasCoinbase, DistinctInputs, DistinctOutputs, SumOver, Canonicalise, CheckKernels, CheckOutputs, CheckInputs, KeyBalance,
         ValueBalance, CheckCoinbaseOutput, CheckCoinbaseKernel, TotalFee, CheckedFeeSum, CoinbaseKernels, KernelFits, OutputFits,
         Spendable, Balanced, KeyBalanced, IsCanonical, FirstCoinbase;
    var b := Canonicalise(m);
    SortFits(l, m, height, ctx);
    SortKeepsCoinbase(m, k, o, height, due);
    SortedStaysDistinct(m);
    SortedAlike(m);
    CanonicaliseIsCanonical(m);
    SameSizes(m);
    FitParts(l, b, height, ctx);
    FitParts(l, m, height, ctx);
    FeesChecked(b.kernels, height);
    CoinbaseKept(b, k, o, height, due);
    CoinbasePasses(l, b, k, o, height, subsidy, due);
    KernelsPass(b.kernels, height);
    OutputsPass(l, b.outputs, {}, ctx);
    InputsPass(l, b.inputs, {}, height);
    KeyBalancePasses(b);
    RewardFits(m, k, o, height, due);
    SortedBalances(m);
  }

  lemma {:induction false} SameSizes(m: Body)
    ensures !ExceedsSizeLimits(m) ==> !ExceedsSizeLimits(Canonicalise(m))
  {
    hide Sort;
    SortElements(OutputLe, m.outputs);
    SortElements(InputLe, m.inputs);
    SortElements(KernelLe, m.kernels);
  }

  lemma {:induction false} FitParts(l: Ledger, b: Body, height: nat, ctx: Network)
    requires Fits(l, b, height, ctx)
    ensures forall k :: k in b.kernels ==> KernelFits(k, height) && k.CheckShape().Pass?
    ensures forall o :: o in b.outputs ==> OutputFits(l, o, ctx)
    ensures forall i :: i in b.inputs ==> Spendable(l, i, height, BindingActive(l, height))
    ensures Balanced(b) && (BindingActive(l, height) ==> KeyBalanced(b))
  {
    hide OutputFits, Spendable, Balanced, KeyBalanced;
  }

  lemma {:induction false} CoinbaseKept(b: Body, k: Kernel, o: Output, height: nat, due: u64)
    requires HasCoinbase(b, k, o, height, due)
    ensures b.outputs != [] && b.kernels != []
  {
    hide SumOver, Minus;
  }

  lemma {:induction false} KeyBalancePasses(b: Body)
    ensures KeyBalanced(b) ==> KeyBalance(b).Pass?
  {
    hide KeyBalance, KeysDecode, KeysG, KeysH, Congruent;
    KeyBalanceIff(b);
  }

  lemma {:induction false} RewardFits(m: Body, k: Kernel, o: Output, height: nat, due: u64)
    requires HasCoinbase(m, k, o, height, due) && forall x :: x in m.kernels ==> x.CheckShape().Pass?
    ensures SumOver(RewardOf, m.kernels) < TWO64
  {
    hide SumOver, Minus;
    RewardOfOne(m.kernels);
  }

  // ---------------------------------------------------- a locked transaction passes --

  /** No inputs, one output of value zero under the blinding factor r, and one kernel locked until `lock`. */
  function LockedTransaction(r: Scalar, lock: nat, ctx: Network): Transaction {
    var zeros := Encoding(Identity());
    var commit := Encoding(TimesH(r));
    var o := Output(false, commit, zeros, zeros, ctx, 0, Signature(zeros, OutputMessage(false, commit, zeros, zeros, ctx, 0), 0));
    var k := BuildKernel(Plain, 0, 0, lock, r, 0);
    var bound := k.(stealthExcess := Some(zeros), stealthSig := Some(Signature(zeros, StealthMessage(k.SigningMessage(), zeros), 0)));
    Transaction([], [o], [bound], None, None)
  }

  lemma {:induction false} LockedLists(r: Scalar, lock: nat, ctx: Network)
    ensures var b := AsBody(LockedTransaction(r, lock, ctx));
            && OutputCommits(b) == [Encoding(TimesH(r))] && Excesses(b) == [Encoding(TimesH(r))] && InputCommits(b) == []
            && MapSeq(InputKeyOf, b.inputs) == [] && MapSeq(OutputEphemeral, b.outputs) == [Encoding(Identity())]
            && MapSeq(StealthOf, b.kernels) == [Encoding(Identity())]
  {
  }

  lemma {:induction false} LockedBalances(r: Scalar, lock: nat, ctx: Network)
    requires r != 0
    ensures ValueBalance(AsBody(LockedTransaction(r, lock, ctx))).Pass?
  {
    hide OutputCommits, InputCommits, Excesses, Sum;
    var b := AsBody(LockedTransaction(r, lock, ctx));
    LockedLists(r, lock, ctx);
    SumOfOne(Encoding(TimesH(r)));
    OneKernel(b.kernels[0]);
  }

  lemma {:induction false} LockedStealth(r: Scalar, lock: nat, ctx: Network)
    ensures LockedTransaction(r, lock, ctx).kernels[0].VerifiedStealthExcess().Some?
  {
  }

  lemma {:induction false} NothingBalances()
    ensures Minus(Identity(), Identity()) == Plus(Identity(), Point(0, 0))
  {
  }

  lemma {:induction false} LockedKeyBalances(r: Scalar, lock: nat, ctx: Network)
    ensures KeyBalance(AsBody(LockedTransaction(r, lock, ctx))).Pass?
  {
    hide MapSeq, Sum, BuildKernel, Plus, Minus, Identity;
    LockedLists(r, lock, ctx);
    LockedStealth(r, lock, ctx);
    SumOfOne(Encoding(Identity()));
    NothingBalances();
  }

  /** The failing input: on any ledger and at any height, admission takes a transaction that no block may hold yet. */
  lemma {:induction false} LockedIsAcceptable(l: Ledger, r: Scalar, height: nat, lock: nat, ctx: Network)
    requires r != 0 && Encoding(TimesH(r)) !in l.utxos && lock > height
    ensures Acceptable(l, LockedTransaction(r, lock, ctx), height, ctx) && !Unlocked(LockedTransaction(r, lock, ctx), height)
  {
    hide ValueBalance, KeyBalance, CheckedFeeSum, CoinbaseKernels;
    var tx := LockedTransaction(r, lock, ctx);
    LockedBalances(r, lock, ctx);
    LockedKeyBalances(r, lock, ctx);
    OneKernel(tx.kernels[0]);
    assert tx.kernels[0] in tx.kernels;
  }
}
