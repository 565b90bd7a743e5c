/**
  Inputs, outputs, kernels, transactions and the block aggregate
  (crates/nightfall-crypto/src/kernel.rs, crates/nightfall-ledger/src/tx.rs and aggregate.rs).

  Signatures and range proofs are ideal: a signature records the key and the message it was made for,
  and it verifies over a generator only for a point that has no component on the other generator.
 */
module Transactions {
  import opened Wrappers
  import opened Words
  import opened Curve
  import opened Sorting
  import opened Utxos

  const MAX_SUPPLY_DARKS: u64 := 9_000_000_000_000_000
  const MAX_BLOCK_INPUTS: nat := 4_096
  const MAX_BLOCK_OUTPUTS: nat := 4_096
  const MAX_BLOCK_KERNELS: nat := 1_024

  datatype Network = Mainnet | Testnet | Devnet

  datatype Feature = Plain | Coinbase

  datatype Message =
    | KernelMessage(feature: Feature, fee: u64, reward: u64, lockHeight: nat, excess: Bytes32)
    | StealthMessage(kernel: Message, stealthExcess: Bytes32)
    | SpendMessage(commit: Bytes32)
    | BindMessage(bound: Bytes32, inputKey: Bytes32)
    | OutputMessage(coinbase: bool, created: Bytes32, ephemeralPk: Bytes32, oneTimePk: Bytes32, proof: Network, payload: nat)

  datatype Signature = Signature(signer: Bytes32, message: Message, nonce: nat)

  predicate VerifyOverG(p: Point, message: Message, sig: Signature) {
    sig.signer == Encoding(p) && sig.message == message && p.h == 0
  }

  predicate VerifyOverH(p: Point, message: Message, sig: Signature) {
    sig.signer == Encoding(p) && sig.message == message && p.g == 0
  }

  // ------------------------------------------------------------ kernels --

  datatype KernelError = RewardOnPlainKernel | FeeOnCoinbaseKernel | MalformedExcess

  datatype Kernel = Kernel(feature: Feature, fee: u64, reward: u64, lockHeight: nat, excess: Bytes32,
                           excessSig: Signature, stealthExcess: Option<Bytes32>, stealthSig: Option<Signature>)
  {
    /** Only the kernel's own fields, so that it survives aggregation. */
    function SigningMessage(): Message {
      KernelMessage(feature, fee, reward, lockHeight, excess)
    }

    predicate VerifySignature() {
      && excess.Encoding?
      && excess.point != Identity()
      && VerifyOverH(excess.point, SigningMessage(), excessSig)
    }

    function VerifiedStealthExcess(): Option<Point> {
      if stealthExcess.None? || stealthSig.None? then None
      else
        match Decompress(stealthExcess.value)
        case None => None
        case Some(x) =>
          if VerifyOverG(x, StealthMessage(SigningMessage(), stealthExcess.value), stealthSig.value) then Some(x) else None
    }

    function StripBinding(): Kernel {
      this.(stealthExcess := None, stealthSig := None)
    }

    function CheckShape(): Outcome<KernelError> {
      if feature.Plain? && reward != 0 then Fail(RewardOnPlainKernel)
      else if feature.Coinbase? && fee != 0 then Fail(FeeOnCoinbaseKernel)
      else if excess.NotAPoint? then Fail(MalformedExcess)
      else Pass
    }
  }

  /** `build_kernel`: the excess `secret·H`, signed over H. */
  function BuildKernel(feature: Feature, fee: u64, reward: u64, lockHeight: nat, secret: Scalar, nonce: nat): Kernel {
    var excess := Encoding(TimesH(secret));
    Kernel(feature, fee, reward, lockHeight, excess,
           Signature(excess, KernelMessage(feature, fee, reward, lockHeight, excess), nonce), None, None)
  }

  /** A built kernel verifies, unless its secret is zero; changing any signed field breaks it. */
  lemma {:induction false} BuiltKernelVerifies(feature: Feature, fee: u64, reward: u64, lockHeight: nat, secret: Scalar, nonce: nat,
                            fee': u64, reward': u64, lockHeight': nat)
    ensures BuildKernel(feature, fee, reward, lockHeight, secret, nonce).VerifySignature() <==> secret != 0
    ensures var k := BuildKernel(feature, fee, reward, lockHeight, secret, nonce);
            k.(fee := fee', reward := reward', lockHeight := lockHeight').VerifySignature()
            <==> secret != 0 && fee' == fee && reward' == reward && lockHeight' == lockHeight
  {
  }

  // ------------------------------------------------- inputs and outputs --

  datatype Input = Input(commit: Bytes32, sig: Signature, inputKey: Option<Bytes32>, keySig: Option<Signature>)
  {
    function StripBinding(): Input {
      this.(inputKey := None, keySig := None)
    }

    predicate HasBinding() {
      inputKey.Some? || keySig.Some?
    }
  }

  predicate VerifyInputSignature(input: Input, outputPk: Bytes32) {
    outputPk.Encoding? && VerifyOverG(outputPk.point, SpendMessage(input.commit), input.sig)
  }

  /** Stands for the hash of both keys reduced to a scalar: nothing is used of it but that the keys determine it. */
  function InputKeyCoefficient(inputKey: Bytes32, outputPk: Bytes32): Scalar {
    (Key(inputKey) + Key(outputPk)) % L
  }

  /** The signature under `Ki + h·Ko`, where h hashes both keys. */
  predicate VerifyInputKey(input: Input, outputPk: Bytes32) {
    && input.inputKey.Some? && input.keySig.Some?
    && input.inputKey.value.Encoding? && outputPk.Encoding?
    && var h := InputKeyCoefficient(input.inputKey.value, outputPk);
       VerifyOverG(Plus(input.inputKey.value.point, Times(h, outputPk.point)),
                   BindMessage(input.commit, input.inputKey.value), input.keySig.value)
  }

  datatype Output = Output(coinbase: bool, commit: Bytes32, ephemeralPk: Bytes32, outputPk: Bytes32,
                           proof: Network, payload: nat, senderSig: Signature)
  {
    /** A range proof made for this network's context shows a value below 2^64. */
    predicate VerifyRange(ctx: Network) {
      proof == ctx && commit.Encoding? && commit.point.g < TWO64
    }

    predicate VerifySenderSig() {
      && ephemeralPk.Encoding?
      && VerifyOverG(ephemeralPk.point, OutputMessage(coinbase, commit, ephemeralPk, outputPk, proof, payload), senderSig)
    }
  }

  // ------------------------------------------------------- block bodies --

  /** An optional 32-byte scalar; a value of L or more is a non-canonical encoding. */
  type Offset = Option<nat>

  datatype Body = Body(inputs: seq<Input>, outputs: seq<Output>, kernels: seq<Kernel>,
                       stealthOffset: Offset, kernelOffset: Offset)

  datatype Transaction = Transaction(inputs: seq<Input>, outputs: seq<Output>, kernels: seq<Kernel>,
                                     stealthOffset: Offset, kernelOffset: Offset)

  predicate ExceedsSizeLimits(b: Body) {
    |b.inputs| > MAX_BLOCK_INPUTS || |b.outputs| > MAX_BLOCK_OUTPUTS || |b.kernels| > MAX_BLOCK_KERNELS
  }

  function InputLe(a: Input, b: Input): bool {
    Key(a.commit) <= Key(b.commit)
  }

  function OutputLe(a: Output, b: Output): bool {
    Key(a.commit) <= Key(b.commit)
  }

  /** Kernels are ordered by an identifier of their excess and signature nonce. */
  function KernelLe(a: Kernel, b: Kernel): bool {
    Key(a.excess) < Key(b.excess) || (Key(a.excess) == Key(b.excess) && a.excessSig.nonce <= b.excessSig.nonce)
  }

  function Canonicalise(b: Body): Body {
    b.(inputs := Sort(InputLe, b.inputs), outputs := Sort(OutputLe, b.outputs), kernels := Sort(KernelLe, b.kernels))
  }

  predicate IsCanonical(b: Body) {
    Canonicalise(b) == b
  }

  /** The order every node agrees on is reached in one step. */
  lemma {:induction false} CanonicaliseIsCanonical(b: Body)
    ensures IsCanonical(Canonicalise(b))
  {
    SortIdempotent(InputLe, b.inputs);
    SortIdempotent(OutputLe, b.outputs);
    SortIdempotent(KernelLe, b.kernels);
  }

  function StripInputs(s: seq<Input>): seq<Input> {
    MapSeq((i: Input) => i.StripBinding(), s)
  }

  function StripKernels(s: seq<Kernel>): seq<Kernel> {
    MapSeq((k: Kernel) => k.StripBinding(), s)
  }

  function StripBinding(b: Body): Body {
    b.(inputs := StripInputs(b.inputs), kernels := StripKernels(b.kernels), stealthOffset := None, kernelOffset := None)
  }

  function StripTransaction(t: Transaction): Transaction {
    t.(inputs := StripInputs(t.inputs), kernels := StripKernels(t.kernels), stealthOffset := None, kernelOffset := None)
  }

  predicate HasAnyBinding(b: Body) {
    || b.stealthOffset.Some? || b.kernelOffset.Some?
    || (exists i :: 0 <= i < |b.inputs| && b.inputs[i].HasBinding())
    || (exists i :: 0 <= i < |b.kernels| && (b.kernels[i].stealthExcess.Some? || b.kernels[i].stealthSig.Some?))
  }

  /** Stripping is exactly what removes every binding field. */
  lemma {:induction false} StripRemovesBinding(b: Body)
    ensures !HasAnyBinding(StripBinding(b))
    ensures StripBinding(b) == b <==> !HasAnyBinding(b)
    ensures StripBinding(StripBinding(b)) == StripBinding(b)
  {
    var s := StripBinding(b);
    assert forall i :: 0 <= i < |b.inputs| ==> s.inputs[i] == b.inputs[i].StripBinding();
    assert forall i :: 0 <= i < |b.kernels| ==> s.kernels[i] == b.kernels[i].StripBinding();
    if !HasAnyBinding(b) {
      assert s.inputs == b.inputs && s.kernels == b.kernels;
    }
    var ss := StripBinding(s);
    assert ss.inputs == s.inputs && ss.kernels == s.kernels;
  }

  // ------------------------------------------------------ fees and rewards --

  ghost function FeeOf(k: Kernel): int {
    k.fee
  }

  function WrappingAdd(a: u64, b: u64): u64 {
    if a + b >= TWO64 then a + b - TWO64 else a + b
  }

  /** `total_fee`: the wrapping fold. */
  function TotalFee(kernels: seq<Kernel>): u64 {
    if kernels == [] then 0 else WrappingAdd(kernels[0].fee, TotalFee(kernels[1..]))
  }

  /** `total_reward`, wrapping like every release-build sum. */
  function TotalReward(kernels: seq<Kernel>): u64 {
    if kernels == [] then 0 else WrappingAdd(kernels[0].reward, TotalReward(kernels[1..]))
  }

  /** `checked_fee_sum`: every fee bounded by the supply, the sum below 2^64. */
  function CheckedFeeSum(kernels: seq<Kernel>): Option<u64> {
    if kernels == [] then Some(0)
    else
      match CheckedFeeSum(kernels[1..])
      case None => None
      case Some(rest) =>
        if kernels[0].fee > MAX_SUPPLY_DARKS || kernels[0].fee + rest >= TWO64 then None else Some(kernels[0].fee + rest)
  }

  lemma {:induction false} TotalFeeIsModular(kernels: seq<Kernel>)
    ensures SumOver(FeeOf, kernels) >= 0
    ensures TotalFee(kernels) == SumOver(FeeOf, kernels) % TWO64
  {
    if kernels != [] {
      TotalFeeIsModular(kernels[1..]);
    }
  }

  /** The checked sum succeeds exactly when every fee is bounded and nothing wraps; then both sums agree. */
  lemma {:induction false} CheckedFeeSumExact(kernels: seq<Kernel>)
    ensures SumOver(FeeOf, kernels) >= 0
    ensures CheckedFeeSum(kernels).Some? <==>
            SumOver(FeeOf, kernels) < TWO64 && forall i :: 0 <= i < |kernels| ==> kernels[i].fee <= MAX_SUPPLY_DARKS
    ensures CheckedFeeSum(kernels).Some? ==> CheckedFeeSum(kernels).value == SumOver(FeeOf, kernels) == TotalFee(kernels)
  {
    if kernels != [] {
      var rest := kernels[1..];
      CheckedFeeSumExact(rest);
      assert forall i :: 0 <= i < |rest| ==> rest[i] == kernels[i + 1];
      if CheckedFeeSum(rest).None? && SumOver(FeeOf, rest) < TWO64 {
        var i :| 0 <= i < |rest| && rest[i].fee > MAX_SUPPLY_DARKS;
        assert kernels[i + 1].fee > MAX_SUPPLY_DARKS;
      }
    }
  }

  function CoinbaseKernels(kernels: seq<Kernel>): nat {
    if kernels == [] then 0 else (if kernels[0].feature.Coinbase? then 1 else 0) + CoinbaseKernels(kernels[1..])
  }

  function FirstCoinbase(kernels: seq<Kernel>): (k: Kernel)
    requires CoinbaseKernels(kernels) > 0
    ensures k in kernels && k.feature.Coinbase?
  {
    if kernels[0].feature.Coinbase? then kernels[0] else FirstCoinbase(kernels[1..])
  }

  /** The sums over one kernel. */
  lemma {:induction false} OneKernel(k: Kernel)
    ensures TotalFee([k]) == k.fee && TotalReward([k]) == k.reward
    ensures CoinbaseKernels([k]) == if k.feature.Coinbase? then 1 else 0
    ensures CheckedFeeSum([k]) == if k.fee > MAX_SUPPLY_DARKS then None else Some(k.fee)
  {
    assert [k][1..] == [];
  }

  /** With one coinbase kernel and well-shaped kernels, the only reward is the coinbase's. */
  lemma {:induction false} RewardIsCoinbase(kernels: seq<Kernel>)
    requires forall k :: k in kernels ==> k.CheckShape().Pass?
    ensures CoinbaseKernels(kernels) == 0 ==> TotalReward(kernels) == 0
    ensures CoinbaseKernels(kernels) == 1 ==> TotalReward(kernels) == FirstCoinbase(kernels).reward
  {
    if kernels != [] {
      RewardIsCoinbase(kernels[1..]);
      assert kernels[0] in kernels;
    }
  }
}
