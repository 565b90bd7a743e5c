/**
  Dissolving transactions into one sorted aggregate keeps what the ledger checks: both balance
  equations are linear, so they hold of the aggregate when they hold of its parts and the fees fit 64 bits.
 */
module Aggregation {
  import opened Wrappers
  import opened Words
  import opened Curve
  import opened Sorting
  import opened Utxos
  import opened Transactions
  import opened Ledgers
  import opened LedgerProofs

  // ------------------------------------------------------------ aggregate --

  /** An optional offset as a scalar; a non-canonical one counts as zero when offsets are added. */
  function OffsetScalar(o: Offset): Scalar {
    if o.Some? && o.value < L then o.value else 0
  }

  /** `add_offsets`: absent plus absent stays absent. */
  function AddOffsets(a: Offset, b: Offset): Offset {
    if a.None? && b.None? then None else Some(Fold(OffsetScalar(a) + OffsetScalar(b)))
  }

  const EMPTY: Body := Body([], [], [], None, None)

  function AsBody(tx: Transaction): Body {
    Body(tx.inputs, tx.outputs, tx.kernels, tx.stealthOffset, tx.kernelOffset)
  }

  function Join(a: Body, b: Body): Body {
    Body(a.inputs + b.inputs, a.outputs + b.outputs, a.kernels + b.kernels,
         AddOffsets(a.stealthOffset, b.stealthOffset), AddOffsets(a.kernelOffset, b.kernelOffset))
  }

  function Merge(txs: seq<Transaction>): Body {
    if txs == [] then EMPTY else Join(Merge(txs[..|txs| - 1]), AsBody(txs[|txs| - 1]))
  }

  /** `BlockBody::aggregate`. */
  function Aggregate(txs: seq<Transaction>): Body {
    Canonicalise(Merge(txs))
  }

  /** The loop of `aggregate`. */
  method AggregateLoop(txs: seq<Transaction>) returns (body: Body)
    ensures body == Aggregate(txs) && IsCanonical(body)
  {
    body := EMPTY;
    assert txs[..|txs|] == txs;
    for i := 0 to |txs|
      invariant body == Merge(txs[..i])
    {
      assert txs[..i + 1][..i] == txs[..i];
      body := Join(body, AsBody(txs[i]));
    }
    CanonicaliseIsCanonical(body);
    body := Canonicalise(body);
  }

  // -------------------------------------------------------- linear measures --

  ghost function InG(i: Input): int { GOf(i.commit) }
  ghost function InH(i: Input): int { HOf(i.commit) }
  ghost function OutG(o: Output): int { GOf(o.commit) }
  ghost function OutH(o: Output): int { HOf(o.commit) }
  ghost function ExcessG(k: Kernel): int { GOf(k.excess) }
  ghost function ExcessH(k: Kernel): int { HOf(k.excess) }
  ghost function KeyG(i: Input): int { GOf(InputKeyOf(i)) }
  ghost function KeyH(i: Input): int { HOf(InputKeyOf(i)) }
  ghost function EphemeralG(o: Output): int { GOf(o.ephemeralPk) }
  ghost function EphemeralH(o: Output): int { HOf(o.ephemeralPk) }
  ghost function StealthG(k: Kernel): int { GOf(StealthOf(k)) }
  ghost function StealthH(k: Kernel): int { HOf(StealthOf(k)) }
  ghost function RewardOf(k: Kernel): int { k.reward }

  /** What is left of the balance equation on each generator, with fees and rewards counted exactly. */
  ghost function ValueG(b: Body): int {
    SumOver(OutG, b.outputs) - SumOver(InG, b.inputs) + SumOver(FeeOf, b.kernels) - SumOver(RewardOf, b.kernels)
    - SumOver(ExcessG, b.kernels)
  }

  ghost function ValueH(b: Body): int {
    SumOver(OutH, b.outputs) - SumOver(InH, b.inputs) - SumOver(ExcessH, b.kernels) - OffsetScalar(b.kernelOffset)
  }

  /** What is left of the key balance on each generator. */
  ghost function KeysG(b: Body): int {
    SumOver(KeyG, b.inputs) - SumOver(EphemeralG, b.outputs) - SumOver(StealthG, b.kernels) - OffsetScalar(b.stealthOffset)
  }

  ghost function KeysH(b: Body): int {
    SumOver(KeyH, b.inputs) - SumOver(EphemeralH, b.outputs) - SumOver(StealthH, b.kernels)
  }

  /** Every commitment, excess and offset of the balance equation decodes. */
  ghost predicate Decodes(b: Body) {
    && (forall i :: i in b.inputs ==> i.commit.Encoding?)
    && (forall o :: o in b.outputs ==> o.commit.Encoding?)
    && (forall k :: k in b.kernels ==> k.excess.Encoding?)
    && DecodeOffset(b.kernelOffset).Success?
  }

  /** Every key of the key balance is present and decodes. */
  ghost predicate KeysDecode(b: Body) {
    && (forall i :: i in b.inputs ==> i.inputKey.Some? && i.inputKey.value.Encoding?)
    && (forall o :: o in b.outputs ==> o.ephemeralPk.Encoding?)
    && (forall k :: k in b.kernels ==> k.VerifiedStealthExcess().Some?)
    && DecodeOffset(b.stealthOffset).Success?
  }

  /** The sum of a list of points read off a list of objects. */
  lemma {:induction false} MappedSum<T>(g: T -> Bytes32, gs: T -> int, hs: T -> int, s: seq<T>)
    requires forall x :: gs(x) == GOf(g(x)) && hs(x) == HOf(g(x))
    ensures Sum(MapSeq(g, s)).Some? <==> forall x :: x in s ==> g(x).Encoding?
    ensures Sum(MapSeq(g, s)).Some? ==> HasCoordinates(Sum(MapSeq(g, s)).value, SumOver(gs, s), SumOver(hs, s))
  {
    hide HasCoordinates, Sum;
    var list := MapSeq(g, s);
    SumCoordinates(list);
    MapSum(GOf, g, gs, s);
    MapSum(HOf, g, hs, s);
    if forall i :: 0 <= i < |list| ==> list[i].Encoding? {
      forall x | x in s ensures g(x).Encoding? {
        var i :| 0 <= i < |s| && s[i] == x;
        assert list[i] == g(x);
      }
    }
  }

  lemma {:induction false} OffsetDecodes(o: Offset)
    ensures DecodeOffset(o).Success? ==> DecodeOffset(o).value == OffsetScalar(o)
  {
  }

  /** Fees and rewards as the ledger adds them are the exact sums. */
  ghost predicate ExactSums(b: Body) {
    TotalFee(b.kernels) == SumOver(FeeOf, b.kernels) && TotalReward(b.kernels) == SumOver(RewardOf, b.kernels)
  }

  lemma {:induction false} ValueSums(b: Body)
    ensures (Sum(OutputCommits(b)).Some? && Sum(InputCommits(b)).Some? && Sum(Excesses(b)).Some? && DecodeOffset(b.kernelOffset).Success?)
            <==> Decodes(b)
    ensures Sum(OutputCommits(b)).Some? ==> HasCoordinates(Sum(OutputCommits(b)).value, SumOver(OutG, b.outputs), SumOver(OutH, b.outputs))
    ensures Sum(InputCommits(b)).Some? ==> HasCoordinates(Sum(InputCommits(b)).value, SumOver(InG, b.inputs), SumOver(InH, b.inputs))
    ensures Sum(Excesses(b)).Some? ==> HasCoordinates(Sum(Excesses(b)).value, SumOver(ExcessG, b.kernels), SumOver(ExcessH, b.kernels))
  {
    hide HasCoordinates, Sum, SumOver, DecodeOffset;
    MappedSum(OutputCommit, OutG, OutH, b.outputs);
    MappedSum(InputCommit, InG, InH, b.inputs);
    MappedSum(KernelExcess, ExcessG, ExcessH, b.kernels);
  }

  /** The two coordinates of the ledger's balance equation. */
  lemma {:induction false} EquationInCoordinates(o: Point, i: Point, e: Point, fee: u64, reward: u64, offset: Scalar,
                              go: int, ho: int, gi: int, hi: int, ge: int, he: int)
    requires HasCoordinates(o, go, ho) && HasCoordinates(i, gi, hi) && HasCoordinates(e, ge, he)
    ensures Minus(Plus(Minus(o, i), PublicValue(fee)), PublicValue(reward)) == Plus(e, TimesH(offset))
            <==> Congruent(go - gi + fee - reward - ge, 0) && Congruent(ho - hi - he - offset, 0)
  {
    hide HasCoordinates, Plus, Minus, Congruent;
    OwnCoordinates(PublicValue(fee));
    OwnCoordinates(PublicValue(reward));
    OwnCoordinates(TimesH(offset));
    MinusCoordinates(o, go, ho, i, gi, hi);
    PlusCoordinates(Minus(o, i), go - gi, ho - hi, PublicValue(fee), fee, 0);
    var q := Plus(Minus(o, i), PublicValue(fee));
    MinusCoordinates(q, go - gi + fee, ho - hi + 0, PublicValue(reward), reward, 0);
    PlusCoordinates(e, ge, he, TimesH(offset), 0, offset);
    CoordinatesDetermine(Minus(q, PublicValue(reward)), Plus(e, TimesH(offset)), go - gi + fee - reward, ho - hi, ge, he + offset);
    CongruentDifference(go - gi + fee - reward, ge);
    CongruentDifference(ho - hi, he + offset);
  }

  lemma {:induction false} CongruentDifference(a: int, b: int)
    ensures Congruent(a, b) <==> Congruent(a - b, 0)
  {
    if Congruent(a, b) {
      var k :| a == b + Multiple(k);
      assert a - b == 0 + Multiple(k);
    }
    if Congruent(a - b, 0) {
      var k :| a - b == 0 + Multiple(k);
      assert a == b + Multiple(k);
    }
  }

  /** The balance equation in coordinates: it holds exactly when nothing is left on either generator. */
  lemma {:induction false} BalanceIff(b: Body)
    ensures ValueBalance(b).Pass? <==>
              && Decodes(b)
              && Congruent(ValueG(b) + TotalFee(b.kernels) - SumOver(FeeOf, b.kernels) - TotalReward(b.kernels) + SumOver(RewardOf, b.kernels), 0)
              && Congruent(ValueH(b), 0)
  {
    hide HasCoordinates, Sum, SumOver, DecodeOffset, OutputCommits, InputCommits, Excesses, Plus, Minus, PublicValue, TimesH,
         Congruent, TotalFee, TotalReward, Decodes;
    ValueSums(b);
    OffsetDecodes(b.kernelOffset);
    if Decodes(b) {
      EquationInCoordinates(Sum(OutputCommits(b)).value, Sum(InputCommits(b)).value, Sum(Excesses(b)).value,
                            TotalFee(b.kernels), TotalReward(b.kernels), DecodeOffset(b.kernelOffset).value,
                            SumOver(OutG, b.outputs), SumOver(OutH, b.outputs), SumOver(InG, b.inputs), SumOver(InH, b.inputs),
                            SumOver(ExcessG, b.kernels), SumOver(ExcessH, b.kernels));
    }
  }

  lemma {:induction false} InputKeySums(s: seq<Input>)
    ensures (exists i :: 0 <= i < |s| && s[i].inputKey.None?) || Sum(MapSeq(InputKeyOf, s)).None?
            <==> !(forall i :: i in s ==> i.inputKey.Some? && i.inputKey.value.Encoding?)
    ensures Sum(MapSeq(InputKeyOf, s)).Some? ==> HasCoordinates(Sum(MapSeq(InputKeyOf, s)).value, SumOver(KeyG, s), SumOver(KeyH, s))
  {
    hide HasCoordinates, Sum, SumOver;
    MappedSum(InputKeyOf, KeyG, KeyH, s);
    if exists i :: 0 <= i < |s| && s[i].inputKey.None? {
      var i :| 0 <= i < |s| && s[i].inputKey.None?;
      assert s[i] in s;
    }
  }

  lemma {:induction false} StealthSums(s: seq<Kernel>)
    ensures (exists i :: 0 <= i < |s| && s[i].VerifiedStealthExcess().None?) || Sum(MapSeq(StealthOf, s)).None?
            <==> !(forall k :: k in s ==> k.VerifiedStealthExcess().Some?)
    ensures Sum(MapSeq(StealthOf, s)).Some? ==> HasCoordinates(Sum(MapSeq(StealthOf, s)).value, SumOver(StealthG, s), SumOver(StealthH, s))
  {
    hide HasCoordinates, Sum, SumOver;
    MappedSum(StealthOf, StealthG, StealthH, s);
    if exists i :: 0 <= i < |s| && s[i].VerifiedStealthExcess().None? {
      var i :| 0 <= i < |s| && s[i].VerifiedStealthExcess().None?;
      assert s[i] in s;
    } else {
      forall k | k in s ensures k.VerifiedStealthExcess().Some? && StealthOf(k).Encoding? {
        var i :| 0 <= i < |s| && s[i] == k;
      }
    }
  }

  lemma {:induction false} KeyEquation(ki: Point, ke: Point, x: Point, offset: Scalar, gk: int, hk: int, ge: int, he: int, gx: int, hx: int)
    requires HasCoordinates(ki, gk, hk) && HasCoordinates(ke, ge, he) && HasCoordinates(x, gx, hx)
    ensures Minus(ki, ke) == Plus(x, Point(offset, 0)) <==> Congruent(gk - ge - gx - offset, 0) && Congruent(hk - he - hx, 0)
  {
    hide HasCoordinates, Plus, Minus, Congruent;
    OwnCoordinates(Point(offset, 0));
    MinusCoordinates(ki, gk, hk, ke, ge, he);
    PlusCoordinates(x, gx, hx, Point(offset, 0), offset, 0);
    CoordinatesDetermine(Minus(ki, ke), Plus(x, Point(offset, 0)), gk - ge, hk - he, gx + offset, hx + 0);
    CongruentDifference(gk - ge, gx + offset);
    CongruentDifference(hk - he, hx);
  }

  /** The key balance in coordinates. */
  lemma {:induction false} KeyBalanceIff(b: Body)
    ensures KeyBalance(b).Pass? <==> KeysDecode(b) && Congruent(KeysG(b), 0) && Congruent(KeysH(b), 0)
  {
    hide HasCoordinates, Sum, SumOver, DecodeOffset, Plus, Minus, Congruent;
    InputKeySums(b.inputs);
    StealthSums(b.kernels);
    MappedSum(OutputEphemeral, EphemeralG, EphemeralH, b.outputs);
    OffsetDecodes(b.stealthOffset);
    var keys, ephemerals, stealths := Sum(MapSeq(InputKeyOf, b.inputs)), Sum(MapSeq(OutputEphemeral, b.outputs)), Sum(MapSeq(StealthOf, b.kernels));
    if keys.Some? && ephemerals.Some? && stealths.Some? && DecodeOffset(b.stealthOffset).Success? {
      KeyEquation(keys.value, ephemerals.value, stealths.value, DecodeOffset(b.stealthOffset).value,
                  SumOver(KeyG, b.inputs), SumOver(KeyH, b.inputs), SumOver(EphemeralG, b.outputs), SumOver(EphemeralH, b.outputs),
                  SumOver(StealthG, b.kernels), SumOver(StealthH, b.kernels));
    }
  }

  // ---------------------------------------------- merging and sorting --

  /** Nothing is left on a generator of the whole when nothing is left of the parts. */
  lemma {:induction false} CongruentZeroPlus(a: int, b: int)
    requires Congruent(a, 0) && Congruent(b, 0)
    ensures Congruent(a + b, 0)
  {
    CongruentPlus(a, 0, b, 0);
  }

  lemma {:induction false} OffsetsAdd(a: Offset, b: Offset)
    ensures DecodeOffset(AddOffsets(a, b)).Success?
    ensures Congruent(OffsetScalar(AddOffsets(a, b)), OffsetScalar(a) + OffsetScalar(b))
  {
    FoldCongruent(OffsetScalar(a) + OffsetScalar(b));
    CongruentRefl(0);
  }

  /** Both equations are linear in the bodies that are joined. */
  lemma {:induction false} JoinLinear(a: Body, b: Body)
    ensures ValueG(Join(a, b)) == ValueG(a) + ValueG(b)
    ensures Congruent(ValueH(a) + ValueH(b), ValueH(Join(a, b)))
    ensures Congruent(KeysG(a) + KeysG(b), KeysG(Join(a, b)))
    ensures KeysH(Join(a, b)) == KeysH(a) + KeysH(b)
  {
    hide SumOver, AddOffsets, OffsetScalar, Congruent;
    TotalAppend(OutG, a.outputs, b.outputs);
    TotalAppend(OutH, a.outputs, b.outputs);
    TotalAppend(InG, a.inputs, b.inputs);
    TotalAppend(InH, a.inputs, b.inputs);
    TotalAppend(FeeOf, a.kernels, b.kernels);
    TotalAppend(RewardOf, a.kernels, b.kernels);
    TotalAppend(ExcessG, a.kernels, b.kernels);
    TotalAppend(ExcessH, a.kernels, b.kernels);
    TotalAppend(KeyG, a.inputs, b.inputs);
    TotalAppend(KeyH, a.inputs, b.inputs);
    TotalAppend(EphemeralG, a.outputs, b.outputs);
    TotalAppend(EphemeralH, a.outputs, b.outputs);
    TotalAppend(StealthG, a.kernels, b.kernels);
    TotalAppend(StealthH, a.kernels, b.kernels);
    OffsetsAdd(a.kernelOffset, b.kernelOffset);
    OffsetsAdd(a.stealthOffset, b.stealthOffset);
    var kept := ValueH(a) + ValueH(b) + OffsetScalar(a.kernelOffset) + OffsetScalar(b.kernelOffset);
    CongruentRefl(kept);
    CongruentMinus(kept, kept, OffsetScalar(AddOffsets(a.kernelOffset, b.kernelOffset)), OffsetScalar(a.kernelOffset) + OffsetScalar(b.kernelOffset));
    CongruentSym(ValueH(Join(a, b)), ValueH(a) + ValueH(b));
    var keys := KeysG(a) + KeysG(b) + OffsetScalar(a.stealthOffset) + OffsetScalar(b.stealthOffset);
    CongruentRefl(keys);
    CongruentMinus(keys, keys, OffsetScalar(AddOffsets(a.stealthOffset, b.stealthOffset)), OffsetScalar(a.stealthOffset) + OffsetScalar(b.stealthOffset));
    CongruentSym(KeysG(Join(a, b)), KeysG(a) + KeysG(b));
  }

  lemma {:induction false} JoinDecodes(a: Body, b: Body)
    ensures Decodes(a) && Decodes(b) ==> Decodes(Join(a, b))
    ensures KeysDecode(a) && KeysDecode(b) ==> KeysDecode(Join(a, b))
  {
    OffsetsAdd(a.kernelOffset, b.kernelOffset);
    OffsetsAdd(a.stealthOffset, b.stealthOffset);
  }

  /** Sorting moves nothing on either side of the equations. */
  lemma {:induction false} SortedAlike(b: Body)
    ensures var c := Canonicalise(b);
            && ValueG(c) == ValueG(b) && ValueH(c) == ValueH(b) && KeysG(c) == KeysG(b) && KeysH(c) == KeysH(b)
            && Decodes(c) == Decodes(b) && KeysDecode(c) == KeysDecode(b)
            && SumOver(FeeOf, c.kernels) == SumOver(FeeOf, b.kernels) && SumOver(RewardOf, c.kernels) == SumOver(RewardOf, b.kernels)
  {
    hide SumOver, Sort, OffsetScalar, DecodeOffset;
    SortTotal(OutputLe, OutG, b.outputs);
    SortTotal(OutputLe, OutH, b.outputs);
    SortTotal(OutputLe, EphemeralG, b.outputs);
    SortTotal(OutputLe, EphemeralH, b.outputs);
    SortTotal(InputLe, InG, b.inputs);
    SortTotal(InputLe, InH, b.inputs);
    SortTotal(InputLe, KeyG, b.inputs);
    SortTotal(InputLe, KeyH, b.inputs);
    SortTotal(KernelLe, FeeOf, b.kernels);
    SortTotal(KernelLe, RewardOf, b.kernels);
    SortTotal(KernelLe, ExcessG, b.kernels);
    SortTotal(KernelLe, ExcessH, b.kernels);
    SortTotal(KernelLe, StealthG, b.kernels);
    SortTotal(KernelLe, StealthH, b.kernels);
    SortElements(OutputLe, b.outputs);
    SortElements(InputLe, b.inputs);
    SortElements(KernelLe, b.kernels);
  }

  // ------------------------------------------- balanced parts, balanced whole --

  /** A body that balances with its fees and rewards counted exactly. */
  ghost predicate Balanced(b: Body) {
    Decodes(b) && Congruent(ValueG(b), 0) && Congruent(ValueH(b), 0)
  }

  ghost predicate KeyBalanced(b: Body) {
    KeysDecode(b) && Congruent(KeysG(b), 0) && Congruent(KeysH(b), 0)
  }

  lemma {:induction false} JoinBalances(a: Body, b: Body)
    ensures Balanced(a) && Balanced(b) ==> Balanced(Join(a, b))
    ensures KeyBalanced(a) && KeyBalanced(b) ==> KeyBalanced(Join(a, b))
  {
    hide Decodes, KeysDecode, ValueG, ValueH, KeysG, KeysH, Congruent;
    JoinLinear(a, b);
    JoinDecodes(a, b);
    if Balanced(a) && Balanced(b) {
      CongruentZeroPlus(ValueG(a), ValueG(b));
      CongruentZeroPlus(ValueH(a), ValueH(b));
      CongruentSym(ValueH(a) + ValueH(b), ValueH(Join(a, b)));
      CongruentTrans(ValueH(Join(a, b)), ValueH(a) + ValueH(b), 0);
    }
    if KeyBalanced(a) && KeyBalanced(b) {
      CongruentZeroPlus(KeysG(a), KeysG(b));
      CongruentZeroPlus(KeysH(a), KeysH(b));
      CongruentSym(KeysG(a) + KeysG(b), KeysG(Join(a, b)));
      CongruentTrans(KeysG(Join(a, b)), KeysG(a) + KeysG(b), 0);
    }
  }

  lemma {:induction false} EmptyBalances()
    ensures Balanced(EMPTY) && KeyBalanced(EMPTY)
  {
    CongruentRefl(0);
  }

  /** Merging balanced transactions gives a balanced body. */
  lemma {:induction false} MergeBalances(txs: seq<Transaction>)
    ensures (forall n :: 0 <= n < |txs| ==> Balanced(AsBody(txs[n]))) ==> Balanced(Merge(txs))
    ensures (forall n :: 0 <= n < |txs| ==> KeyBalanced(AsBody(txs[n]))) ==> KeyBalanced(Merge(txs))
  {
    hide Balanced, KeyBalanced, Join;
    if txs == [] {
      EmptyBalances();
    } else {
      var n := |txs| - 1;
      assert forall k :: 0 <= k < n ==> txs[..n][k] == txs[k];
      MergeBalances(txs[..n]);
      JoinBalances(Merge(txs[..n]), AsBody(txs[n]));
    }
  }

  lemma {:induction false} TotalRewardIsModular(kernels: seq<Kernel>)
    ensures SumOver(RewardOf, kernels) >= 0
    ensures TotalReward(kernels) == SumOver(RewardOf, kernels) % TWO64
  {
    if kernels != [] {
      TotalRewardIsModular(kernels[1..]);
    }
  }

  lemma {:induction false} FeesBounded(kernels: seq<Kernel>)
    ensures 0 <= SumOver(FeeOf, kernels) <= |kernels| * TWO64
  {
    if kernels != [] {
      FeesBounded(kernels[1..]);
    }
  }

  /** A balanced transaction whose fees do not wrap passes the ledger's equation, and the converse. */
  lemma {:induction false} BalancedAlone(b: Body)
    requires ExactSums(b)
    ensures ValueBalance(b).Pass? <==> Balanced(b)
  {
    hide Decodes, ValueG, ValueH, Congruent, ValueBalance, TotalFee, TotalReward, SumOver;
    BalanceIff(b);
  }

  /** Wrapping by a multiple of 2^64 that is small against L is seen by the equation. */
  lemma {:induction false} WrapIsSeen(valueG: int, exact: int)
    requires Congruent(valueG, 0) && 0 <= exact <= MAX_BLOCK_KERNELS * TWO64
    ensures Congruent(valueG + exact % TWO64 - exact, 0) <==> exact < TWO64
  {
    var wrapped := exact - exact % TWO64;
    assert 0 <= wrapped <= exact;
    if Congruent(valueG + exact % TWO64 - exact, 0) {
      CongruentMinus(valueG, 0, valueG + exact % TWO64 - exact, 0);
      CongruentClose(wrapped, 0);
    }
  }

  /**
    The aggregate of balanced transactions passes the ledger's balance equation exactly when their fees add
    up to less than 2^64: below the binding fork the wrapping sum would turn a larger total into an imbalance.
   */
  lemma {:induction false} AggregateBalances(txs: seq<Transaction>)
    requires forall n :: 0 <= n < |txs| ==> ValueBalance(AsBody(txs[n])).Pass? && ExactSums(AsBody(txs[n]))
    requires |Merge(txs).kernels| <= MAX_BLOCK_KERNELS && SumOver(RewardOf, Merge(txs).kernels) < TWO64
    ensures ValueBalance(Aggregate(txs)).Pass? <==> SumOver(FeeOf, Merge(txs).kernels) < TWO64
  {
    hide Balanced, ValueBalance, ExactSums, SumOver, TotalFee, TotalReward, Canonicalise;
    forall n | 0 <= n < |txs| ensures Balanced(AsBody(txs[n])) {
      BalancedAlone(AsBody(txs[n]));
    }
    MergeBalances(txs);
    SortedBalances(Merge(txs));
  }

  lemma {:induction false} SortedBalances(m: Body)
    requires Balanced(m) && |m.kernels| <= MAX_BLOCK_KERNELS && SumOver(RewardOf, m.kernels) < TWO64
    ensures ValueBalance(Canonicalise(m)).Pass? <==> SumOver(FeeOf, m.kernels) < TWO64
  {
    hide ValueBalance, SumOver, TotalFee, TotalReward, Canonicalise, Decodes, ValueG, ValueH, Congruent;
    var c := Canonicalise(m);
    SortedAlike(m);
    BalanceIff(c);
    TotalFeeIsModular(c.kernels);
    TotalRewardIsModular(c.kernels);
    FeesBounded(m.kernels);
    SmallProduct(|m.kernels|);
    WrapIsSeen(ValueG(m), SumOver(FeeOf, m.kernels));
  }

  lemma {:induction false} SmallProduct(n: nat)
    requires n <= MAX_BLOCK_KERNELS
    ensures n * TWO64 <= MAX_BLOCK_KERNELS * TWO64
  {
  }

  // ------------------------------------------------- fees that wrap --

  /** A transaction that spends two coins, of values v and w, and gives all of it away as a fee. */
  function Giving(v: u64, w: u64, r: Scalar, s: Scalar): Transaction
    requires v + w < TWO64
  {
    var zeros := Encoding(Identity());
    var inputs := [Input(Pedersen(v, r), Signature(zeros, SpendMessage(Pedersen(v, r)), 0), None, None),
                   Input(Pedersen(w, s), Signature(zeros, SpendMessage(Pedersen(w, s)), 0), None, None)];
    Transaction(inputs, [], [BuildKernel(Plain, v + w, 0, 0, Fold(0 - Fold(r + s)), 0)], None, None)
  }

  lemma {:induction false} GivingLists(v: u64, w: u64, r: Scalar, s: Scalar)
    requires v + w < TWO64
    ensures var b := AsBody(Giving(v, w, r, s));
            && InputCommits(b) == [Pedersen(v, r), Pedersen(w, s)] && OutputCommits(b) == []
            && Excesses(b) == [Encoding(TimesH(Fold(0 - Fold(r + s))))]
            && TotalFee(b.kernels) == v + w && TotalReward(b.kernels) == 0
            && SumOver(FeeOf, b.kernels) == v + w && SumOver(RewardOf, b.kernels) == 0
  {
    var b := AsBody(Giving(v, w, r, s));
    assert b.inputs[1..] == [b.inputs[1]] && b.inputs[1..][1..] == [];
    assert InputCommits(b) == [Pedersen(v, r), Pedersen(w, s)];
    OneKernel(b.kernels[0]);
    assert b.kernels[1..] == [];
  }

  /** What it spends commits to its fee, by the homomorphism, so it balances. */
  lemma {:induction false} GivingBalances(v: u64, w: u64, r: Scalar, s: Scalar)
    requires v + w < TWO64
    ensures ValueBalance(AsBody(Giving(v, w, r, s))).Pass? && ExactSums(AsBody(Giving(v, w, r, s)))
  {
    hide InputCommits, OutputCommits, Excesses, TotalFee, TotalReward, SumOver, Sum, BuildKernel;
    GivingLists(v, w, r, s);
    CommitHomomorphic(v, w, r, s);
    SumOfTwo(Pedersen(v, r), Pedersen(w, s));
    SumOfOne(Encoding(TimesH(Fold(0 - Fold(r + s)))));
  }

  const HALF: u64 := 0x4000_0000_0000_0000

  /** The failing input: two balanced transactions whose fees total 2^64 aggregate to a body that does not balance. */
  lemma {:induction false} WrappedFeesUnbalance(r: Scalar, s: Scalar, t: Scalar, u: Scalar)
    ensures var txs := [Giving(HALF, HALF, r, s), Giving(HALF, HALF, t, u)];
            && (forall n :: 0 <= n < |txs| ==> ValueBalance(AsBody(txs[n])).Pass?)
            && SumOver(FeeOf, Merge(txs).kernels) == TWO64 && ValueBalance(Aggregate(txs)).Fail?
  {
    hide ValueBalance, Giving, ExactSums, SumOver, Aggregate, AsBody;
    var a, b := Giving(HALF, HALF, r, s), Giving(HALF, HALF, t, u);
    var txs := [a, b];
    GivingBalances(HALF, HALF, r, s);
    GivingBalances(HALF, HALF, t, u);
    GivingLists(HALF, HALF, r, s);
    GivingLists(HALF, HALF, t, u);
    MergeOfTwo(a, b);
    TotalAppend(FeeOf, AsBody(a).kernels, AsBody(b).kernels);
    TotalAppend(RewardOf, AsBody(a).kernels, AsBody(b).kernels);
    OneEach(r, s);
    OneEach(t, u);
    AggregateBalances(txs);
  }

  lemma {:induction false} OneEach(r: Scalar, s: Scalar)
    ensures |AsBody(Giving(HALF, HALF, r, s)).kernels| == 1
  {
  }

  lemma {:induction false} MergeOfTwo(a: Transaction, b: Transaction)
    ensures Merge([a, b]).kernels == AsBody(a).kernels + AsBody(b).kernels
  {
    hide AddOffsets;
    assert [a, b][..1] == [a] && [a][..0] == [];
    assert Merge([]) == EMPTY && Merge([a]).kernels == AsBody(a).kernels;
  }

  /** The key balance of the aggregate follows from the key balance of its parts. */
  lemma {:induction false} AggregateKeyBalances(txs: seq<Transaction>)
    requires forall n :: 0 <= n < |txs| ==> KeyBalance(AsBody(txs[n])).Pass?
    ensures KeyBalance(Aggregate(txs)).Pass?
  {
    hide KeyBalance, KeysDecode, KeysG, KeysH, Congruent, Canonicalise;
    forall n | 0 <= n < |txs| ensures KeyBalanced(AsBody(txs[n])) {
      KeyBalanceIff(AsBody(txs[n]));
    }
    MergeBalances(txs);
    SortedAlike(Merge(txs));
    KeyBalanceIff(Aggregate(txs));
  }

  // ------------------------------------------------------ order is forgotten --

  /** All elements of a field, over a list of transactions. */
  ghost function Gather<T, U>(g: T -> seq<U>, s: seq<T>): multiset<U> {
    if s == [] then multiset{} else Gather(g, s[..|s| - 1]) + multiset(g(s[|s| - 1]))
  }

  lemma {:induction false} GatherRemove<T, U>(g: T -> seq<U>, s: seq<T>, j: nat)
    requires j < |s|
    ensures Gather(g, s) == Gather(g, s[..j] + s[j + 1..]) + multiset(g(s[j]))
    decreases |s|
  {
    var n := |s| - 1;
    var before, after := s[..j], s[j + 1..];
    if j == n {
      assert before + after == s[..n];
    } else {
      GatherRemove(g, s[..n], j);
      var short := after[..|after| - 1];
      assert s[..n][..j] == before && s[..n][j + 1..] == short;
      assert (before + after)[..|before + after| - 1] == before + short;
      assert (before + after)[|before + after| - 1] == s[n];
    }
  }

  lemma {:induction false} RemoveOne<T>(a: seq<T>, b: seq<T>, j: nat)
    requires a != [] && multiset(a) == multiset(b) && j < |b| && b[j] == a[|a| - 1]
    ensures multiset(a[..|a| - 1]) == multiset(b[..j] + b[j + 1..])
  {
    var x := b[j];
    var p, q := multiset(a[..|a| - 1]), multiset(b[..j] + b[j + 1..]);
    assert a == a[..|a| - 1] + [x];
    assert b == (b[..j] + [x]) + b[j + 1..];
    assert multiset(a) == p + multiset{x} && multiset(b) == q + multiset{x};
    assert p == multiset(a) - multiset{x} && q == multiset(b) - multiset{x};
  }

  lemma {:induction false} Reappears<T>(a: seq<T>, b: seq<T>) returns (j: nat)
    requires a != [] && multiset(a) == multiset(b)
    ensures j < |b| && b[j] == a[|a| - 1]
  {
    assert a[|a| - 1] in multiset(b);
    j :| 0 <= j < |b| && b[j] == a[|a| - 1];
  }

  lemma {:induction false} GatherPermuted<T, U>(g: T -> seq<U>, a: seq<T>, b: seq<T>)
    requires multiset(a) == multiset(b)
    ensures Gather(g, a) == Gather(g, b)
    decreases |a|
  {
    if a == [] {
      assert |multiset(b)| == 0;
    } else {
      var j := Reappears(a, b);
      RemoveOne(a, b, j);
      GatherRemove(g, b, j);
      GatherPermuted(g, a[..|a| - 1], b[..j] + b[j + 1..]);
    }
  }

  lemma {:induction false} SumPermuted<T>(f: T -> int, a: seq<T>, b: seq<T>)
    requires multiset(a) == multiset(b)
    ensures SumOver(f, a) == SumOver(f, b)
    decreases |a|
  {
    if a == [] {
      assert |multiset(b)| == 0;
    } else {
      var j := Reappears(a, b);
      var x := a[|a| - 1];
      RemoveOne(a, b, j);
      SumPermuted(f, a[..|a| - 1], b[..j] + b[j + 1..]);
      assert a == a[..|a| - 1] + [x] && b == (b[..j] + [x]) + b[j + 1..];
      TotalAppend(f, a[..|a| - 1], [x]);
      TotalAppend(f, b[..j] + [x], b[j + 1..]);
      TotalAppend(f, b[..j], [x]);
      TotalAppend(f, b[..j], b[j + 1..]);
    }
  }

  function InputsOf(tx: Transaction): seq<Input> { tx.inputs }
  function OutputsOf(tx: Transaction): seq<Output> { tx.outputs }
  function KernelsOf(tx: Transaction): seq<Kernel> { tx.kernels }
  ghost function StealthShare(tx: Transaction): int { OffsetScalar(tx.stealthOffset) }
  ghost function KernelShare(tx: Transaction): int { OffsetScalar(tx.kernelOffset) }

  lemma {:induction false} MergeGathers(txs: seq<Transaction>)
    ensures multiset(Merge(txs).inputs) == Gather(InputsOf, txs)
    ensures multiset(Merge(txs).outputs) == Gather(OutputsOf, txs)
    ensures multiset(Merge(txs).kernels) == Gather(KernelsOf, txs)
  {
    hide AddOffsets;
    if txs != [] {
      MergeGathers(txs[..|txs| - 1]);
    }
  }

  /** The merged offset is absent when all are, and otherwise the one canonical scalar of their sum. */
  ghost predicate OffsetOf(o: Offset, total: int, anyPresent: bool) {
    && o.Some? == anyPresent
    && (o.None? ==> total == 0)
    && (o.Some? ==> o.value < L && Congruent(o.value, total))
  }

  lemma {:induction false} OffsetStep(o: Offset, total: int, anyPresent: bool, p: Offset)
    requires OffsetOf(o, total, anyPresent)
    ensures OffsetOf(AddOffsets(o, p), total + OffsetScalar(p), anyPresent || p.Some?)
  {
    hide Congruent, Fold;
    OffsetsAdd(o, p);
    CongruentRefl(0);
    CongruentRefl(OffsetScalar(o));
    CongruentRefl(OffsetScalar(p));
    CongruentPlus(OffsetScalar(o), total, OffsetScalar(p), OffsetScalar(p));
    CongruentTrans(OffsetScalar(AddOffsets(o, p)), OffsetScalar(o) + OffsetScalar(p), total + OffsetScalar(p));
  }

  /** Two offsets of the same total are the same offset. */
  lemma {:induction false} OffsetUnique(o: Offset, p: Offset, total: int, anyPresent: bool)
    requires OffsetOf(o, total, anyPresent) && OffsetOf(p, total, anyPresent)
    ensures o == p
  {
    if o.Some? {
      CongruentSym(p.value, total);
      CongruentTrans(o.value, total, p.value);
      CongruentClose(o.value, p.value);
    }
  }

  ghost predicate AnyStealth(txs: seq<Transaction>) {
    exists t :: t in txs && t.stealthOffset.Some?
  }

  ghost predicate AnyKernel(txs: seq<Transaction>) {
    exists t :: t in txs && t.kernelOffset.Some?
  }

  lemma {:induction false} LastShare(txs: seq<Transaction>)
    requires txs != []
    ensures var before, last := txs[..|txs| - 1], txs[|txs| - 1];
            && SumOver(StealthShare, txs) == SumOver(StealthShare, before) + OffsetScalar(last.stealthOffset)
            && SumOver(KernelShare, txs) == SumOver(KernelShare, before) + OffsetScalar(last.kernelOffset)
            && (AnyStealth(txs) <==> AnyStealth(before) || last.stealthOffset.Some?)
            && (AnyKernel(txs) <==> AnyKernel(before) || last.kernelOffset.Some?)
  {
    var before, last := txs[..|txs| - 1], txs[|txs| - 1];
    assert txs == before + [last];
    TotalAppend(StealthShare, before, [last]);
    TotalAppend(KernelShare, before, [last]);
    assert SumOver(StealthShare, [last]) == StealthShare(last) && SumOver(KernelShare, [last]) == KernelShare(last);
  }

  lemma {:induction false} MergedOffsets(txs: seq<Transaction>)
    ensures OffsetOf(Merge(txs).stealthOffset, SumOver(StealthShare, txs), AnyStealth(txs))
    ensures OffsetOf(Merge(txs).kernelOffset, SumOver(KernelShare, txs), AnyKernel(txs))
  {
    if txs != [] {
      hide Congruent, SumOver, AnyStealth, AnyKernel, OffsetOf, AddOffsets, OffsetScalar;
      var before, last := txs[..|txs| - 1], txs[|txs| - 1];
      MergedOffsets(before);
      LastShare(txs);
      OffsetStep(Merge(before).stealthOffset, SumOver(StealthShare, before), AnyStealth(before), last.stealthOffset);
      OffsetStep(Merge(before).kernelOffset, SumOver(KernelShare, before), AnyKernel(before), last.kernelOffset);
    }
  }

  /** No two elements that sorting could not tell apart. */
  ghost predicate Distinguishable(m: Body) {
    NoTies(InputLe, m.inputs) && NoTies(OutputLe, m.outputs) && NoTies(KernelLe, m.kernels)
  }

  lemma {:induction false} SortKeysAreOrders()
    ensures IsTotal(InputLe) && IsTransitive(InputLe)
    ensures IsTotal(OutputLe) && IsTransitive(OutputLe)
    ensures IsTotal(KernelLe) && IsTransitive(KernelLe)
  {
    hide Key;
  }

  /**
    Aggregation forgets who came first: any order of the same transactions gives the same block body, offsets
    included, unless two inputs, outputs or kernels share their sort key.
   */
  lemma {:induction false} AggregateForgetsOrder(txs: seq<Transaction>, others: seq<Transaction>)
    requires multiset(txs) == multiset(others) && Distinguishable(Merge(txs))
    ensures Aggregate(txs) == Aggregate(others)
  {
    hide Sort, Merge, IsTotal, IsTransitive, NoTies, Congruent, SumOver, OffsetOf;
    MergeGathers(txs);
    MergeGathers(others);
    GatherPermuted(InputsOf, txs, others);
    GatherPermuted(OutputsOf, txs, others);
    GatherPermuted(KernelsOf, txs, others);
    SortKeysAreOrders();
    SortForgetsOrder(InputLe, Merge(txs).inputs, Merge(others).inputs);
    SortForgetsOrder(OutputLe, Merge(txs).outputs, Merge(others).outputs);
    SortForgetsOrder(KernelLe, Merge(txs).kernels, Merge(others).kernels);
    MergedOffsets(txs);
    MergedOffsets(others);
    SumPermuted(StealthShare, txs, others);
    SumPermuted(KernelShare, txs, others);
    SameElements(txs, others);
    OffsetUnique(Merge(txs).stealthOffset, Merge(others).stealthOffset, SumOver(StealthShare, txs), AnyStealth(txs));
    OffsetUnique(Merge(txs).kernelOffset, Merge(others).kernelOffset, SumOver(KernelShare, txs), AnyKernel(txs));
  }

  lemma {:induction false} SameElements(a: seq<Transaction>, b: seq<Transaction>)
    requires multiset(a) == multiset(b)
    ensures AnyStealth(a) == AnyStealth(b) && AnyKernel(a) == AnyKernel(b)
  {
    assert forall t :: t in a <==> t in multiset(a);
    assert forall t :: t in b <==> t in multiset(b);
  }
}
