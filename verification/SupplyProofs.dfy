/**
  No inflation: the modular balance equation of every block, the range proofs and the excess
  signatures add up to an integer equation about the hidden values of the whole UTXO set.
 */
module SupplyProofs {
  import opened Wrappers
  import opened Words
  import opened Curve
  import opened Sorting
  import opened Utxos
  import opened Transactions
  import opened Ledgers
  import opened LedgerProofs

  /** The hidden value of the whole set. */
  ghost function Value(l: Ledger): int {
    SetSum(l.utxos.Keys, GOf)
  }

  /**
    Every unspent output hides an amount below 2^64, together they hide minted − burned, and the
    kernel sum is the sum of their blinding factors.
   */
  ghost predicate Sound(l: Ledger) {
    && (forall c :: c in l.utxos ==> InRange(c))
    && Value(l) == l.minted - l.burned
    && l.minted <= MAX_SUPPLY_DARKS
    && l.kernelSum.Encoding? && l.kernelSum.point.g == 0
    && Congruent(SetSum(l.utxos.Keys, HOf), l.kernelSum.point.h)
  }

  ghost predicate InRange(c: Bytes32) {
    c.Encoding? && c.point.g < TWO64
  }

  lemma {:induction false} GenesisSound(network: Network)
    ensures Sound(ForNetwork(network))
    ensures VerifySupply(ForNetwork(network)).Pass?
  {
    hide SetSum, Walk, SupplyEquation, Congruent, ForNetwork;
    EmptySums();
    GenesisFields(network);
  }

  lemma {:induction false} GenesisFields(network: Network)
    ensures var l := ForNetwork(network);
            l.utxos == map[] && l.utxos.Keys == {} && l.kernelSum == Encoding(Identity()) && l.minted == 0 && l.burned == 0
  {
    hide CoinbaseMaturity, BindingForkHeight;
  }

  lemma {:induction false} EmptySums()
    ensures SetSum({}, GOf) == 0 && Walk({}) == Some(Identity()) && Congruent(SetSum({}, HOf), 0)
    ensures SupplyEquation(Identity(), Encoding(Identity()), 0, 0).Pass?
  {
    CongruentRefl(0);
  }

  // ------------------------------------------------------------ sums --

  lemma {:induction false} BoundedSum(list: seq<Bytes32>)
    requires forall c :: c in list ==> InRange(c)
    ensures 0 <= SumOver(GOf, list) <= |list| * TWO64
  {
    if list != [] {
      BoundedSum(list[1..]);
      assert list[0] in list;
    }
  }

  lemma {:induction false} NoValueSum(list: seq<Bytes32>)
    requires forall c :: c in list ==> GOf(c) == 0
    ensures SumOver(GOf, list) == 0
  {
    if list != [] {
      NoValueSum(list[1..]);
      assert list[0] in list;
    }
  }

  ghost predicate Distinct(list: seq<Bytes32>) {
    forall i, j :: 0 <= i < j < |list| ==> list[i] != list[j]
  }

  lemma {:induction false} RemoveAll(s: set<Bytes32>, list: seq<Bytes32>, f: Bytes32 -> int)
    requires Distinct(list) && forall c :: c in list ==> c in s
    ensures SetSum(s - ToSet(list), f) == SetSum(s, f) - SumOver(f, list)
    decreases |list|
  {
    if list == [] {
      assert s - ToSet(list) == s;
    } else {
      var c := list[0];
      hide SetSum;
      assert c !in list[1..];
      RemoveAll(s - {c}, list[1..], f);
      SetSumRemove(s, c, f);
      assert s - ToSet(list) == (s - {c}) - ToSet(list[1..]);
    }
  }

  lemma {:induction false} AddAll(s: set<Bytes32>, list: seq<Bytes32>, f: Bytes32 -> int)
    requires Distinct(list) && forall c :: c in list ==> c !in s
    ensures SetSum(s + ToSet(list), f) == SetSum(s, f) + SumOver(f, list)
    decreases |list|
  {
    if list == [] {
      assert s + ToSet(list) == s;
    } else {
      var c := list[0];
      hide SetSum;
      assert c !in list[1..];
      AddAll(s + {c}, list[1..], f);
      SetSumAdd(s, c, f);
      assert s + ToSet(list) == (s + {c}) + ToSet(list[1..]);
    }
  }

  // ------------------------------------------------------- one block --

  /** The block's spent and created commitments, as an accepted block leaves them. */
  ghost predicate WellSpent(l: Ledger, b: Body) {
    && Distinct(InputCommits(b)) && (forall c :: c in InputCommits(b) ==> c in l.utxos)
    && Distinct(OutputCommits(b)) && (forall c :: c in OutputCommits(b) ==> c !in l.utxos && InRange(c))
  }

  lemma {:induction false} CheckedIsWellSpent(l: Ledger, b: Body, height: nat, subsidy: u64, ctx: Network)
    requires CheckBody(l, b, height, subsidy, ctx).Pass?
    ensures WellSpent(l, b)
  {
    hide CheckBody, CheckOutputs, CheckInputs, CheckSpends, InputCommits, OutputCommits, IsCanonical, ExceedsSizeLimits,
         CheckCoinbaseKernel, CheckKernels, ValueBalance;
    BodySteps(l, b, height, subsidy, ctx);
    OutputsChecked(b.outputs, {}, l.utxos, ctx);
    InputsChecked(b.inputs, {}, l, height);
    SpendsPresent(b.inputs, {}, l.utxos);
    CommitLists(b);
    forall c | c in OutputCommits(b) ensures c !in l.utxos && InRange(c) {
      var i :| 0 <= i < |b.outputs| && OutputCommits(b)[i] == c;
      assert b.outputs[i].VerifyRange(ctx);
    }
  }

  lemma {:induction false} CommitLists(b: Body)
    ensures |InputCommits(b)| == |b.inputs| && forall i :: 0 <= i < |b.inputs| ==> InputCommits(b)[i] == b.inputs[i].commit
    ensures |OutputCommits(b)| == |b.outputs| && forall i :: 0 <= i < |b.outputs| ==> OutputCommits(b)[i] == b.outputs[i].commit
  {
  }

  /** The committed set's sums move by the created and the spent commitments. */
  lemma {:induction false} CommittedSum(l: Ledger, b: Body, height: nat, f: Bytes32 -> int)
    requires WellSpent(l, b)
    ensures var keys := InsertOutputs(l.utxos - ToSet(InputCommits(b)), b.outputs, height).Keys;
            && keys == l.utxos.Keys - ToSet(InputCommits(b)) + ToSet(OutputCommits(b))
            && SetSum(keys, f) == SetSum(l.utxos.Keys, f) - SumOver(f, InputCommits(b)) + SumOver(f, OutputCommits(b))
  {
    hide SetSum, SumOver, InputCommits, OutputCommits, InsertOutputs;
    var kept := l.utxos - ToSet(InputCommits(b));
    Inserted(kept, b.outputs, height);
    CommitSets(b);
    var keys := InsertOutputs(kept, b.outputs, height).Keys;
    assert keys == l.utxos.Keys - ToSet(InputCommits(b)) + ToSet(OutputCommits(b));
    RemoveAll(l.utxos.Keys, InputCommits(b), f);
    AddAll(l.utxos.Keys - ToSet(InputCommits(b)), OutputCommits(b), f);
  }

  lemma {:induction false} BalanceEquation(b: Body)
    requires ValueBalance(b).Pass?
    ensures Sum(OutputCommits(b)).Some? && Sum(InputCommits(b)).Some? && Sum(Excesses(b)).Some?
    ensures DecodeOffset(b.kernelOffset).Success?
    ensures Minus(Plus(Minus(Sum(OutputCommits(b)).value, Sum(InputCommits(b)).value), PublicValue(TotalFee(b.kernels))),
                  PublicValue(TotalReward(b.kernels)))
            == Plus(Sum(Excesses(b)).value, TimesH(DecodeOffset(b.kernelOffset).value))
  {
    hide Plus, Minus, Sum, TotalFee, TotalReward, DecodeOffset, OutputCommits, InputCommits, Excesses, PublicValue, TimesH;
  }

  /** The coordinates of both sides of the balance equation, before reduction modulo L. */
  lemma {:induction false} BalanceCoordinates(b: Body)
    requires ValueBalance(b).Pass?
    ensures Congruent(SumOver(GOf, OutputCommits(b)) - SumOver(GOf, InputCommits(b)) + TotalFee(b.kernels) - TotalReward(b.kernels),
                      SumOver(GOf, Excesses(b)))
    ensures Congruent(SumOver(HOf, OutputCommits(b)) - SumOver(HOf, InputCommits(b)),
                      SumOver(HOf, Excesses(b)) + DecodeOffset(b.kernelOffset).value)
  {
    hide *;
    BalanceEquation(b);
    var outs, ins, exc := OutputCommits(b), InputCommits(b), Excesses(b);
    var fee, reward := TotalFee(b.kernels), TotalReward(b.kernels);
    var offset := DecodeOffset(b.kernelOffset).value;
    var o, i, e := Sum(outs).value, Sum(ins).value, Sum(exc).value;
    SumCoordinates(outs);
    SumCoordinates(ins);
    SumCoordinates(exc);
    PublicCoordinates(fee, offset);
    PublicCoordinates(reward, offset);
    var go, gi, ge := SumOver(GOf, outs), SumOver(GOf, ins), SumOver(GOf, exc);
    var ho, hi, he := SumOver(HOf, outs), SumOver(HOf, ins), SumOver(HOf, exc);
    MinusCoordinates(o, go, ho, i, gi, hi);
    PlusCoordinates(Minus(o, i), go - gi, ho - hi, PublicValue(fee), fee, 0);
    var q := Plus(Minus(o, i), PublicValue(fee));
    MinusCoordinates(q, go - gi + fee, ho - hi + 0, PublicValue(reward), reward, 0);
    PlusCoordinates(e, ge, he, TimesH(offset), 0, offset);
    CoordinatesDetermine(Minus(q, PublicValue(reward)), Plus(e, TimesH(offset)),
                         go - gi + fee - reward, ho - hi, ge, he + offset);
  }

  lemma {:induction false} PublicCoordinates(v: u64, s: Scalar)
    ensures HasCoordinates(PublicValue(v), v, 0) && HasCoordinates(TimesH(s), 0, s)
  {
    OwnCoordinates(PublicValue(v));
    OwnCoordinates(TimesH(s));
  }

  lemma {:induction false} ExcessesCarryNoValue(b: Body, height: nat)
    requires CheckKernels(b.kernels, height).Pass?
    ensures SumOver(GOf, Excesses(b)) == 0
  {
    KernelsChecked(b.kernels, height);
    forall c | c in Excesses(b) ensures GOf(c) == 0 {
      var i :| 0 <= i < |b.kernels| && Excesses(b)[i] == c;
      assert b.kernels[i].VerifySignature();
    }
    NoValueSum(Excesses(b));
  }

  /** Value out is value in, minus the fees, plus the reward: over the integers. */
  lemma {:induction false} BlockConserves(l: Ledger, b: Body, height: nat, subsidy: u64, ctx: Network)
    requires Sound(l) && CheckBody(l, b, height, subsidy, ctx).Pass?
    ensures SumOver(GOf, OutputCommits(b)) == SumOver(GOf, InputCommits(b)) - TotalFee(b.kernels) + TotalReward(b.kernels)
    ensures TotalReward(b.kernels) == if subsidy > 0 then subsidy else TotalFee(b.kernels)
  {
    hide CheckBody, CheckKernels, CheckOutputs, CheckInputs, ValueBalance, CheckCoinbaseKernel, SumOver, IsCanonical,
         TotalFee, TotalReward, Congruent, InputCommits, OutputCommits, CoinbaseKernels, FirstCoinbase;
    BodySteps(l, b, height, subsidy, ctx);
    CheckedIsWellSpent(l, b, height, subsidy, ctx);
    BalanceCoordinates(b);
    ExcessesCarryNoValue(b, height);
    BoundedSum(InputCommits(b));
    BoundedSum(OutputCommits(b));
    OneCoinbase(l, b, height, subsidy);
    KernelsChecked(b.kernels, height);
    RewardIsCoinbase(b.kernels);
    SizesBounded(b);
    CongruentClose(SumOver(GOf, OutputCommits(b)) - SumOver(GOf, InputCommits(b)) + TotalFee(b.kernels) - TotalReward(b.kernels), 0);
  }

  lemma {:induction false} SizesBounded(b: Body)
    requires !ExceedsSizeLimits(b)
    ensures |InputCommits(b)| <= MAX_BLOCK_INPUTS && |OutputCommits(b)| <= MAX_BLOCK_OUTPUTS
  {
  }

  lemma {:induction false} SupplyStep(l: Ledger, fees: u64, subsidy: u64)
    requires NextSupply(l, fees, subsidy).Success?
    ensures NextSupply(l, fees, subsidy).value
            == if subsidy > 0 then (l.minted + subsidy, l.burned + fees) else (l.minted, l.burned)
  {
  }

  // -------------------------------------------------- the committed state --

  /** The state a block that passed `CheckBody` leaves behind. */
  ghost function NextOf(l: Ledger, b: Body, height: nat, subsidy: u64): Ledger
    requires DecodeOffset(b.kernelOffset).Success?
    requires NextKernelSum(l, b, DecodeOffset(b.kernelOffset).value).Success?
    requires NextSupply(l, TotalFee(b.kernels), subsidy).Success?
  {
    Commit(l, b, height, NextKernelSum(l, b, DecodeOffset(b.kernelOffset).value).value,
           NextSupply(l, TotalFee(b.kernels), subsidy).value)
  }

  lemma {:induction false} NextKernelPoint(acc: Point, e: Point, offset: Scalar, ge: int, he: int)
    requires acc.g == 0 && HasCoordinates(e, ge, he) && ge == 0
    ensures var next := Plus(Plus(acc, e), TimesH(offset));
            next.g == 0 && Congruent(next.h, acc.h + he + offset)
  {
    hide HasCoordinates, Congruent, Plus;
    OwnCoordinates(acc);
    PublicCoordinates(0, offset);
    PlusCoordinates(acc, acc.g, acc.h, e, ge, he);
    PlusCoordinates(Plus(acc, e), acc.g + ge, acc.h + he, TimesH(offset), 0, offset);
    ZeroCoordinate(Plus(Plus(acc, e), TimesH(offset)), acc.h + he + offset);
  }

  lemma {:induction false} ZeroCoordinate(p: Point, h: int)
    requires HasCoordinates(p, 0, h)
    ensures p.g == 0 && Congruent(p.h, h)
  {
    CongruentClose(p.g, 0);
  }

  lemma {:induction false} NextKernelSumOf(l: Ledger, b: Body, height: nat)
    requires Sound(l) && ValueBalance(b).Pass? && CheckKernels(b.kernels, height).Pass?
    ensures DecodeOffset(b.kernelOffset).Success?
    ensures var next := NextKernelSum(l, b, DecodeOffset(b.kernelOffset).value);
            && next.Success? && next.value.Encoding? && next.value.point.g == 0
            && Congruent(next.value.point.h, l.kernelSum.point.h + SumOver(HOf, Excesses(b)) + DecodeOffset(b.kernelOffset).value)
  {
    hide ValueBalance, CheckKernels, Sum, Excesses, SumOver, DecodeOffset, HasCoordinates, Congruent, Plus, TimesH, SetSum;
    BalanceEquation(b);
    ExcessesCarryNoValue(b, height);
    SumCoordinates(Excesses(b));
    NextKernelPoint(l.kernelSum.point, Sum(Excesses(b)).value, DecodeOffset(b.kernelOffset).value,
                    SumOver(GOf, Excesses(b)), SumOver(HOf, Excesses(b)));
  }

  /** No burned total can overflow: it never exceeds what was minted. */
  lemma {:induction false} NextSupplyOf(l: Ledger, b: Body, height: nat, subsidy: u64, ctx: Network)
    requires Sound(l) && CheckBody(l, b, height, subsidy, ctx).Pass?
    ensures NextSupply(l, TotalFee(b.kernels), subsidy).Success?
    ensures var s := NextSupply(l, TotalFee(b.kernels), subsidy).value;
            && s.0 - s.1 == Value(l) - SumOver(GOf, InputCommits(b)) + SumOver(GOf, OutputCommits(b))
            && s.0 <= MAX_SUPPLY_DARKS
  {
    hide CheckBody, CheckCoinbaseKernel, TotalFee, TotalReward, SumOver, InputCommits, OutputCommits, SetSum, CoinbaseKernels,
         FirstCoinbase, Congruent, IsCanonical, ExceedsSizeLimits, CheckKernels, CheckOutputs, CheckInputs, ValueBalance;
    BodySteps(l, b, height, subsidy, ctx);
    OneCoinbase(l, b, height, subsidy);
    BlockConserves(l, b, height, subsidy, ctx);
    CheckedIsWellSpent(l, b, height, subsidy, ctx);
    CommittedSum(l, b, height, GOf);
    SetSumNonNegative(InsertOutputs(l.utxos - ToSet(InputCommits(b)), b.outputs, height).Keys);
  }

  lemma {:induction false} SetSumNonNegative(s: set<Bytes32>)
    ensures SetSum(s, GOf) >= 0
  {
    if s != {} {
      SetSumNonNegative(s - {Smallest(s)});
    }
  }

  /** A block that passes the checks leaves a sound state. */
  lemma {:induction false} NextSound(l: Ledger, b: Body, height: nat, subsidy: u64, ctx: Network)
    requires Sound(l) && CheckBody(l, b, height, subsidy, ctx).Pass?
    ensures DecodeOffset(b.kernelOffset).Success?
    ensures NextKernelSum(l, b, DecodeOffset(b.kernelOffset).value).Success?
    ensures NextSupply(l, TotalFee(b.kernels), subsidy).Success?
    ensures Sound(NextOf(l, b, height, subsidy))
  {
    hide CheckBody, CheckCoinbaseKernel, TotalFee, TotalReward, SumOver, InputCommits, OutputCommits, SetSum, CoinbaseKernels,
         FirstCoinbase, Congruent, IsCanonical, ExceedsSizeLimits, CheckKernels, CheckOutputs, CheckInputs, ValueBalance,
         InsertOutputs, NextKernelSum, NextSupply, DecodeOffset;
    BodySteps(l, b, height, subsidy, ctx);
    CheckedIsWellSpent(l, b, height, subsidy, ctx);
    CommittedSum(l, b, height, GOf);
    CommittedSum(l, b, height, HOf);
    NextKernelSumOf(l, b, height);
    NextSupplyOf(l, b, height, subsidy, ctx);
    BalanceCoordinates(b);
    var offset := DecodeOffset(b.kernelOffset).value;
    var hs, hi, ho, he := SetSum(l.utxos.Keys, HOf), SumOver(HOf, InputCommits(b)), SumOver(HOf, OutputCommits(b)), SumOver(HOf, Excesses(b));
    BlindingSide(hs, hi, ho, he, offset, l.kernelSum.point.h, NextKernelSum(l, b, offset).value.point.h);
  }

  lemma {:induction false} BlindingSide(hs: int, hi: int, ho: int, he: int, offset: int, k: int, next: int)
    requires Congruent(hs, k) && Congruent(ho - hi, he + offset) && Congruent(next, k + he + offset)
    ensures Congruent(hs - hi + ho, next)
  {
    hide Congruent;
    CongruentPlus(hs, k, ho - hi, he + offset);
    CongruentSym(next, k + he + offset);
    CongruentTrans(hs - hi + ho, k + he + offset, next);
  }

  // -------------------------------------------- the closing supply checks --

  /** Under a sound state the burned total never exceeds the minted one, so `circulating` never saturates. */
  lemma {:induction false} BurnedWithinMinted(l: Ledger)
    requires Sound(l)
    ensures l.burned <= l.minted && Circulating(l.minted, l.burned) == Value(l)
  {
    SetSumNonNegative(l.utxos.Keys);
  }

  /** A point with the coordinates of a sound set's sum satisfies the supply equation. */
  lemma {:induction false} SoundSatisfiesSupplyEquation(l: Ledger, p: Point)
    requires Sound(l) && HasCoordinates(p, SetSum(l.utxos.Keys, GOf), SetSum(l.utxos.Keys, HOf))
    ensures SupplyEquation(p, l.kernelSum, l.minted, l.burned).Pass?
  {
    hide HasCoordinates, Congruent, Plus, Minus, SetSum, PublicValue;
    var k := l.kernelSum.point;
    var g, h := SetSum(l.utxos.Keys, GOf), SetSum(l.utxos.Keys, HOf);
    BurnedWithinMinted(l);
    var circ := Circulating(l.minted, l.burned);
    OwnCoordinates(k);
    PublicCoordinates(circ, 0);
    MinusCoordinates(p, g, h, k, k.g, k.h);
    CongruentRefl(g);
    CongruentRefl(k.h);
    CongruentMinus(h, k.h, k.h, k.h);
    CoordinatesDetermine(Minus(p, k), PublicValue(circ), g - k.g, h - k.h, circ, 0);
  }

  lemma {:induction false} SoundSupply(l: Ledger)
    requires Sound(l)
    ensures VerifySupply(l).Pass?
  {
    hide HasCoordinates, SetSum, Walk, SupplyEquation, Congruent;
    WalkCoordinates(l.utxos.Keys);
    SoundSatisfiesSupplyEquation(l, Walk(l.utxos.Keys).value);
  }

  /** The sum projected before the set changes has the coordinates of the set after it changed. */
  lemma {:induction false} ProjectionIsNextSum(l: Ledger, b: Body, height: nat, subsidy: u64, ctx: Network)
    requires Sound(l) && CheckBody(l, b, height, subsidy, ctx).Pass?
    ensures SumAfter(l, b).Some?
    ensures var keys := InsertOutputs(l.utxos - ToSet(InputCommits(b)), b.outputs, height).Keys;
            HasCoordinates(SumAfter(l, b).value, SetSum(keys, GOf), SetSum(keys, HOf))
  {
    hide CheckBody, SumOver, InputCommits, OutputCommits, SetSum, Congruent, HasCoordinates, ValueBalance, InsertOutputs, Sum,
         Walk, Plus, Minus, IsCanonical, ExceedsSizeLimits, CheckKernels, CheckOutputs, CheckInputs, CheckCoinbaseKernel;
    BodySteps(l, b, height, subsidy, ctx);
    BalanceEquation(b);
    CheckedIsWellSpent(l, b, height, subsidy, ctx);
    CommittedSum(l, b, height, GOf);
    CommittedSum(l, b, height, HOf);
    WalkCoordinates(l.utxos.Keys);
    SumCoordinates(InputCommits(b));
    SumCoordinates(OutputCommits(b));
    var w, i, o := Walk(l.utxos.Keys).value, Sum(InputCommits(b)).value, Sum(OutputCommits(b)).value;
    var gs, gi, go := SetSum(l.utxos.Keys, GOf), SumOver(GOf, InputCommits(b)), SumOver(GOf, OutputCommits(b));
    var hs, hi, ho := SetSum(l.utxos.Keys, HOf), SumOver(HOf, InputCommits(b)), SumOver(HOf, OutputCommits(b));
    MinusCoordinates(w, gs, hs, i, gi, hi);
    PlusCoordinates(Minus(w, i), gs - gi, hs - hi, o, go, ho);
  }

  /**
    On a sound state a block is accepted exactly when it passes `CheckBody`: no overflow, no failed
    projection and no closing rollback is possible.  The state it leaves is sound again.
   */
  lemma {:induction false} AcceptedExactlyWhenChecked(l: Ledger, body: Body, height: nat, subsidy: u64, ctx: Network)
    requires Sound(l)
    ensures Apply(l, body, height, subsidy, ctx).Success? <==> CheckBody(l, Judged(l, body, height), height, subsidy, ctx).Pass?
    ensures Apply(l, body, height, subsidy, ctx).Success? ==> Sound(Apply(l, body, height, subsidy, ctx).value)
  {
    var b := Judged(l, body, height);
    if CheckBody(l, b, height, subsidy, ctx).Pass? {
      hide CheckBody, SumOver, InputCommits, OutputCommits, SetSum, Congruent, HasCoordinates, ValueBalance, InsertOutputs, SumAfter,
           Walk, SupplyEquation, VerifySupply, CheckSpends, CheckInputs, NextKernelSum, NextSupply, DecodeOffset, Judged, TotalFee,
           IsCanonical, ExceedsSizeLimits, CheckKernels, CheckOutputs, CheckCoinbaseKernel;
      BodySteps(l, b, height, subsidy, ctx);
      InputsChecked(b.inputs, {}, l, height);
      NextSound(l, b, height, subsidy, ctx);
      var next := NextOf(l, b, height, subsidy);
      ProjectionIsNextSum(l, b, height, subsidy, ctx);
      SoundSatisfiesSupplyEquation(next, SumAfter(l, b).value);
      SoundSupply(next);
    } else {
      hide CheckBody, Judged;
    }
  }

  // ----------------------------------------------- the sum the set reports --

  /** `verify_supply_invariant` on the sum that a set with these fields reports. */
  function VerifyReported(l: Ledger, f: Fields): Outcome<LedgerError> {
    match Reported(f)
    case None => Fail(MalformedUtxo)
    case Some(p) => SupplyEquation(p, l.kernelSum, l.minted, l.burned)
  }

  lemma {:induction false} MinusCancels(p: Point, q: Point, k: Point)
    requires Minus(p, k) == Minus(q, k)
    ensures p == q
  {
  }

  lemma {:induction false} OneSumPasses(p: Point, q: Point, kernelSum: Bytes32, minted: u64, burned: u64)
    requires SupplyEquation(p, kernelSum, minted, burned).Pass? && SupplyEquation(q, kernelSum, minted, burned).Pass?
    ensures p == q
  {
    hide Minus;
    MinusCancels(p, q, kernelSum.point);
  }

  /**
    The supply check on the reported sum of a set that was deserialised and changed since.  It is the check on the
    walked sum while the set was never empty; on a ledger that is in order it passes exactly when the set was never
    empty since it was loaded, or what was stored adds up to nothing.
   */
  lemma {:induction false} ReportedSupplyExactly(l: Ledger, stored: Entries, changes: seq<Change>)
    requires ChangedAll(Loaded(stored), changes).entries == l.utxos
    ensures !EmptyOnce(stored, changes) ==> VerifyReported(l, ChangedAll(Loaded(stored), changes)) == VerifySupply(l)
    ensures VerifySupply(l).Pass? ==>
              (VerifyReported(l, ChangedAll(Loaded(stored), changes)).Pass? <==> !EmptyOnce(stored, changes) || AddsToNothing(stored))
  {
    hide ChangedAll, EmptyOnce, AddsToNothing, Walk, SupplyEquation, Reported;
    var f := ChangedAll(Loaded(stored), changes);
    ReportedExactly(stored, changes);
    if VerifySupply(l).Pass? && VerifyReported(l, f).Pass? {
      OneSumPasses(Walk(l.utxos.Keys).value, Reported(f).value, l.kernelSum, l.minted, l.burned);
    }
  }
}
