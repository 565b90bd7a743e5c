/**
  The ledger state machine of crates/nightfall-ledger/src/lib.rs: full validation of an aggregate,
  replay of a stored one, and the undo record that takes either back.
 */
module Ledgers {
  import opened Wrappers
  import opened Words
  import opened Curve
  import opened Sorting
  import opened Utxos
  import opened Transactions

  datatype LedgerError =
    | EmptyBlock | MissingCoinbase | NonCanonicalOrder | BlockTooLarge | WrongReward | CoinbaseHeightMismatch
    | SupplyCapExceeded | FeeOutOfRange | BadKernel | BadKernelSignature | KernelLocked | MalformedOutput
    | BadRangeProof | BadOutputSignature | DuplicateCommitment | DoubleSpendWithinBlock | UnknownInput
    | ImmatureCoinbaseSpend | BadInputSignature | BadInputKeySignature | MissingBinding | BadInputKey
    | BadStealthExcess | KeyImbalance | BadOffset | MalformedKernelExcess | UnbalancedBlock
    | BadCoinbaseOutputCount | BadCoinbaseOpening | ArithmeticOverflow | MalformedUtxo | InvariantViolated | CapExceeded

  datatype Ledger = Ledger(height: nat, utxos: Entries, kernelSum: Bytes32, kernelCount: nat,
                           minted: u64, burned: u64, txCount: nat, maturity: nat, bindingHeight: nat)

  datatype StateUndo = StateUndo(spent: seq<(Bytes32, Utxo)>, created: seq<Bytes32>, kernelSum: Bytes32,
                                 kernelCount: nat, minted: u64, burned: u64, txCount: nat, height: nat)

  function CoinbaseMaturity(network: Network): nat {
    match network
    case Mainnet => 1_440
    case Testnet => 60
    case Devnet => 10
  }

  function BindingForkHeight(network: Network): nat {
    match network
    case Mainnet => 500_000
    case Testnet => 0
    case Devnet => 20
  }

  function ForNetwork(network: Network): Ledger {
    Ledger(0, map[], Encoding(Identity()), 0, 0, 0, 0, CoinbaseMaturity(network), BindingForkHeight(network))
  }

  predicate BindingActive(l: Ledger, height: nat) {
    height >= l.bindingHeight
  }

  function InputCommit(i: Input): Bytes32 { i.commit }
  function OutputCommit(o: Output): Bytes32 { o.commit }
  function KernelExcess(k: Kernel): Bytes32 { k.excess }
  function OutputEphemeral(o: Output): Bytes32 { o.ephemeralPk }

  function InputCommits(b: Body): seq<Bytes32> { MapSeq(InputCommit, b.inputs) }
  function OutputCommits(b: Body): seq<Bytes32> { MapSeq(OutputCommit, b.outputs) }
  function Excesses(b: Body): seq<Bytes32> { MapSeq(KernelExcess, b.kernels) }

  function ToSet(s: seq<Bytes32>): set<Bytes32> {
    set c | c in s
  }

  // ------------------------------------------------------- staged checks --

  function CheckKernels(kernels: seq<Kernel>, height: nat): Outcome<LedgerError> {
    if kernels == [] then Pass
    else
      var k := kernels[0];
      if k.CheckShape().Fail? then Fail(BadKernel)
      else if !k.VerifySignature() then Fail(BadKernelSignature)
      else if k.feature.Plain? && k.lockHeight > height then Fail(KernelLocked)
      else CheckKernels(kernels[1..], height)
  }

  /** `created` holds the commitments of the outputs already checked. */
  function CheckOutputs(outputs: seq<Output>, created: set<Bytes32>, utxos: Entries, ctx: Network): Outcome<LedgerError> {
    if outputs == [] then Pass
    else
      var o := outputs[0];
      if o.commit.NotAPoint? || o.outputPk.NotAPoint? then Fail(MalformedOutput)
      else if !o.VerifyRange(ctx) then Fail(BadRangeProof)
      else if !o.VerifySenderSig() then Fail(BadOutputSignature)
      else if o.commit in created || o.commit in utxos then Fail(DuplicateCommitment)
      else CheckOutputs(outputs[1..], created + {o.commit}, utxos, ctx)
  }

  predicate IsMature(entry: Utxo, spendHeight: nat, maturity: nat) {
    !entry.isCoinbase || spendHeight >= entry.height + maturity
  }

  function CheckInputs(inputs: seq<Input>, spent: set<Bytes32>, l: Ledger, height: nat): Outcome<LedgerError> {
    if inputs == [] then Pass
    else
      var i := inputs[0];
      if i.commit in spent then Fail(DoubleSpendWithinBlock)
      else if i.commit !in l.utxos then Fail(UnknownInput)
      else
        var entry := l.utxos[i.commit];
        if !IsMature(entry, height, l.maturity) then Fail(ImmatureCoinbaseSpend)
        else if !VerifyInputSignature(i, entry.outputPk) then Fail(BadInputSignature)
        else if BindingActive(l, height) && !VerifyInputKey(i, entry.outputPk) then Fail(BadInputKeySignature)
        else CheckInputs(inputs[1..], spent + {i.commit}, l, height)
  }

  /** Presence and uniqueness only: what replay and undo capture look at. */
  function CheckSpends(inputs: seq<Input>, spent: set<Bytes32>, utxos: Entries): Outcome<LedgerError> {
    if inputs == [] then Pass
    else if inputs[0].commit in spent then Fail(DoubleSpendWithinBlock)
    else if inputs[0].commit !in utxos then Fail(UnknownInput)
    else CheckSpends(inputs[1..], spent + {inputs[0].commit}, utxos)
  }

  function DecodeOffset(offset: Offset): Result<Scalar, LedgerError> {
    match offset
    case None => Success(0)
    case Some(s) => if s < L then Success(s) else Failure(BadOffset)
  }

  function InputKeyOf(i: Input): Bytes32 {
    if i.inputKey.Some? then i.inputKey.value else NotAPoint(0)
  }

  function StealthOf(k: Kernel): Bytes32 {
    if k.stealthExcess.Some? then k.stealthExcess.value else NotAPoint(0)
  }

  /** `Σ Ki − Σ Ke = Σ X + s·G`. */
  function KeyBalance(b: Body): Outcome<LedgerError> {
    if exists i :: 0 <= i < |b.inputs| && b.inputs[i].inputKey.None? then Fail(MissingBinding)
    else
      var keys := Sum(MapSeq(InputKeyOf, b.inputs));
      var ephemerals := Sum(MapSeq(OutputEphemeral, b.outputs));
      if keys.None? then Fail(BadInputKey)
      else if ephemerals.None? then Fail(MalformedOutput)
      else if DecodeOffset(b.stealthOffset).Failure? then Fail(BadOffset)
      else if exists i :: 0 <= i < |b.kernels| && b.kernels[i].VerifiedStealthExcess().None? then Fail(BadStealthExcess)
      else
        var stealths := Sum(MapSeq(StealthOf, b.kernels));
        if stealths.None? then Fail(BadStealthExcess)
        else
          var s := DecodeOffset(b.stealthOffset).value;
          Need(Minus(keys.value, ephemerals.value) == Plus(stealths.value, Point(s, 0)), KeyImbalance)
  }

  /** `expected_excess`: what the kernels' excesses must add up to. */
  function ExpectedExcess(inputs: seq<Bytes32>, outputs: seq<Bytes32>, fee: u64, reward: u64): Option<Point> {
    match (Sum(outputs), Sum(inputs))
    case (Some(o), Some(i)) => Some(Minus(Plus(Minus(o, i), PublicValue(fee)), PublicValue(reward)))
    case _ => None
  }

  /** Commitments, fees and rewards against excesses and offset, for the body as one list. */
  function ValueBalance(b: Body): Outcome<LedgerError> {
    var reward := TotalReward(b.kernels);
    var expected := ExpectedExcess(InputCommits(b), OutputCommits(b), TotalFee(b.kernels), reward);
    var excess := Sum(Excesses(b));
    if expected.None? then Fail(MalformedOutput)
    else if excess.None? then Fail(MalformedKernelExcess)
    else if DecodeOffset(b.kernelOffset).Failure? then Fail(BadOffset)
    else Need(expected.value == Plus(excess.value, TimesH(DecodeOffset(b.kernelOffset).value)), UnbalancedBlock)
  }

  function CoinbaseOutputs(outputs: seq<Output>): seq<Output> {
    if outputs == [] then []
    else if outputs[0].coinbase then [outputs[0]] + CoinbaseOutputs(outputs[1..])
    else CoinbaseOutputs(outputs[1..])
  }

  function CheckCoinbaseOutput(b: Body, coinbase: Kernel, binding: bool): Outcome<LedgerError> {
    var flagged := CoinbaseOutputs(b.outputs);
    if |flagged| != 1 then Fail(BadCoinbaseOutputCount)
    else if binding && (flagged[0].commit.NotAPoint? || coinbase.excess.NotAPoint?
                        || Minus(flagged[0].commit.point, PublicValue(coinbase.reward)) != coinbase.excess.point)
    then Fail(BadCoinbaseOpening)
    else Pass
  }

  /** The coinbase kernel carries the subsidy, or the fees once there is no subsidy, at this height only. */
  function CheckCoinbaseKernel(l: Ledger, b: Body, height: nat, subsidy: u64): Outcome<LedgerError> {
    if CoinbaseKernels(b.kernels) != 1 then Fail(MissingCoinbase)
    else
      var coinbase := FirstCoinbase(b.kernels);
      if coinbase.reward != (if subsidy > 0 then subsidy else TotalFee(b.kernels)) then Fail(WrongReward)
      else if coinbase.lockHeight != height then Fail(CoinbaseHeightMismatch)
      else if l.minted + subsidy > MAX_SUPPLY_DARKS then Fail(SupplyCapExceeded)
      else if BindingActive(l, height) && CheckedFeeSum(b.kernels).None? then Fail(FeeOutOfRange)
      else Pass
  }

  // -------------------------------------------------------- state changes --

  function NextKernelSum(l: Ledger, b: Body, offset: Scalar): Result<Bytes32, LedgerError> {
    match (Decompress(l.kernelSum), Sum(Excesses(b)))
    case (Some(acc), Some(e)) => Success(Encoding(Plus(Plus(acc, e), TimesH(offset))))
    case _ => Failure(MalformedKernelExcess)
  }

  /** (minted, burned) after the block: fees burn only while there is a subsidy. */
  function NextSupply(l: Ledger, fees: u64, subsidy: u64): Result<(u64, u64), LedgerError> {
    if subsidy == 0 then Success((l.minted, l.burned))
    else if l.minted + subsidy >= TWO64 || l.burned + fees >= TWO64 then Failure(ArithmeticOverflow)
    else Success((l.minted + subsidy, l.burned + fees))
  }

  function InsertOutputs(utxos: Entries, outputs: seq<Output>, height: nat): Entries {
    if outputs == [] then utxos
    else
      var n := |outputs| - 1;
      InsertOutputs(utxos, outputs[..n], height)[outputs[n].commit := Utxo(outputs[n].outputPk, height, outputs[n].coinbase)]
  }

  function Commit(l: Ledger, b: Body, height: nat, kernelSum: Bytes32, supply: (u64, u64)): Ledger {
    l.(height := height,
       utxos := InsertOutputs(l.utxos - ToSet(InputCommits(b)), b.outputs, height),
       kernelSum := kernelSum,
       kernelCount := l.kernelCount + |b.kernels|,
       minted := supply.0,
       burned := supply.1,
       txCount := l.txCount + |b.kernels|)
  }

  function Circulating(minted: u64, burned: u64): u64 {
    if minted >= burned then minted - burned else 0
  }

  /** `Σ UTXO − Σ kernel excess == circulating·G`, and minted within the cap. */
  function SupplyEquation(utxoSum: Point, kernelSum: Bytes32, minted: u64, burned: u64): Outcome<LedgerError> {
    if kernelSum.NotAPoint? then Fail(MalformedKernelExcess)
    else if Minus(utxoSum, kernelSum.point) != PublicValue(Circulating(minted, burned)) then Fail(InvariantViolated)
    else if minted > MAX_SUPPLY_DARKS then Fail(CapExceeded)
    else Pass
  }

  function VerifySupply(l: Ledger): Outcome<LedgerError> {
    match Walk(l.utxos.Keys)
    case None => Fail(MalformedUtxo)
    case Some(p) => SupplyEquation(p, l.kernelSum, l.minted, l.burned)
  }

  /** The commitment sum after removing the inputs and adding the outputs, without touching the set. */
  function SumAfter(l: Ledger, b: Body): Option<Point> {
    match (Walk(l.utxos.Keys), Sum(InputCommits(b)), Sum(OutputCommits(b)))
    case (Some(p), Some(i), Some(o)) => Some(Plus(Minus(p, i), o))
    case _ => None
  }

  /** Below the fork an aggregate is judged without its binding fields. */
  function Judged(l: Ledger, b: Body, height: nat): Body {
    if !BindingActive(l, height) && HasAnyBinding(b) then StripBinding(b) else b
  }

  /** Every check on the aggregate that does not need the projected supply. */
  function CheckBody(l: Ledger, b: Body, height: nat, subsidy: u64, ctx: Network): Outcome<LedgerError> {
    if b.outputs == [] then Fail(EmptyBlock)
    else if b.kernels == [] then Fail(MissingCoinbase)
    else if !IsCanonical(b) then Fail(NonCanonicalOrder)
    else if ExceedsSizeLimits(b) then Fail(BlockTooLarge)
    else if CheckCoinbaseKernel(l, b, height, subsidy).Fail? then CheckCoinbaseKernel(l, b, height, subsidy)
    else if CheckKernels(b.kernels, height).Fail? then CheckKernels(b.kernels, height)
    else if CheckOutputs(b.outputs, {}, l.utxos, ctx).Fail? then CheckOutputs(b.outputs, {}, l.utxos, ctx)
    else if CheckInputs(b.inputs, {}, l, height).Fail? then CheckInputs(b.inputs, {}, l, height)
    else if BindingActive(l, height) && KeyBalance(b).Fail? then KeyBalance(b)
    else if ValueBalance(b).Fail? then ValueBalance(b)
    else CheckCoinbaseOutput(b, FirstCoinbase(b.kernels), BindingActive(l, height))
  }

  /** `apply_block`: full validation, then the infallible commit and the closing supply check. */
  function Apply(l: Ledger, body: Body, height: nat, subsidy: u64, ctx: Network): Result<Ledger, LedgerError> {
    var b := Judged(l, body, height);
    :- CheckBody(l, b, height, subsidy, ctx);
    var offset :- DecodeOffset(b.kernelOffset);
    var kernelSum :- NextKernelSum(l, b, offset);
    var supply :- NextSupply(l, TotalFee(b.kernels), subsidy);
    var projected := SumAfter(l, b);
    :- Need(projected.Some?, MalformedUtxo);
    :- SupplyEquation(projected.value, kernelSum, supply.0, supply.1);
    :- CheckSpends(b.inputs, {}, l.utxos);
    var next := Commit(l, b, height, kernelSum, supply);
    :- VerifySupply(next);
    Success(next)
  }

  /** `apply_block_state_only`: replay of an aggregate this node already validated. */
  function ApplyStateOnly(l: Ledger, b: Body, height: nat, subsidy: u64): Result<Ledger, LedgerError> {
    var fees := TotalFee(b.kernels);
    :- Need(b.outputs != [] && b.kernels != [], EmptyBlock);
    :- Need(CoinbaseKernels(b.kernels) == 1, MissingCoinbase);
    :- Need(l.minted + subsidy <= MAX_SUPPLY_DARKS, SupplyCapExceeded);
    :- CheckSpends(b.inputs, {}, l.utxos);
    var offset :- if BindingActive(l, height) then DecodeOffset(b.kernelOffset) else Success(0);
    var kernelSum :- NextKernelSum(l, b, offset);
    var supply :- NextSupply(l, fees, subsidy);
    Success(Commit(l, b, height, kernelSum, supply))
  }

  function SpentEntries(l: Ledger, inputs: seq<Input>): seq<(Bytes32, Utxo)>
    requires forall i :: 0 <= i < |inputs| ==> inputs[i].commit in l.utxos
  {
    if inputs == [] then [] else [(inputs[0].commit, l.utxos[inputs[0].commit])] + SpentEntries(l, inputs[1..])
  }

  lemma {:induction false} SpendsPresent(inputs: seq<Input>, spent: set<Bytes32>, utxos: Entries)
    requires CheckSpends(inputs, spent, utxos).Pass?
    ensures forall i :: 0 <= i < |inputs| ==> inputs[i].commit in utxos && inputs[i].commit !in spent
    ensures forall i, j :: 0 <= i < j < |inputs| ==> inputs[i].commit != inputs[j].commit
  {
    if inputs != [] {
      SpendsPresent(inputs[1..], spent + {inputs[0].commit}, utxos);
      assert forall i :: 1 <= i < |inputs| ==> inputs[i] == inputs[1..][i - 1];
    }
  }

  function CaptureUndo(l: Ledger, b: Body): Result<StateUndo, LedgerError> {
    var created := OutputCommits(b);
    :- CheckSpends(b.inputs, {}, l.utxos);
    SpendsPresent(b.inputs, {}, l.utxos);
    Success(StateUndo(SpentEntries(l, b.inputs), created, l.kernelSum, l.kernelCount,
                      l.minted, l.burned, l.txCount, l.height))
  }

  function Restore(utxos: Entries, spent: seq<(Bytes32, Utxo)>): Entries
    decreases |spent|
  {
    if spent == [] then utxos else Restore(utxos[spent[0].0 := spent[0].1], spent[1..])
  }

  function Rewind(l: Ledger, undo: StateUndo): Ledger {
    l.(utxos := Restore(l.utxos - ToSet(undo.created), undo.spent),
       kernelSum := undo.kernelSum,
       kernelCount := undo.kernelCount,
       minted := undo.minted,
       burned := undo.burned,
       txCount := undo.txCount,
       height := undo.height)
  }
}
