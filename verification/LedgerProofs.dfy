/** What validation, replay and undo of a ledger have to do with each other. */
module LedgerProofs {
  import opened Wrappers
  import opened Words
  import opened Curve
  import opened Sorting
  import opened Utxos
  import opened Transactions
  import opened Ledgers

  // -------------------------------------------- what the checks established --

  lemma {:induction false} KernelsChecked(kernels: seq<Kernel>, height: nat)
    requires CheckKernels(kernels, height).Pass?
    ensures forall k :: k in kernels ==> k.CheckShape().Pass? && k.VerifySignature()
  {
    if kernels != [] {
      KernelsChecked(kernels[1..], height);
      assert forall k :: k in kernels ==> k == kernels[0] || k in kernels[1..];
    }
  }

  /** Outputs that pass are in range, pairwise distinct and absent from the set. */
  lemma {:induction false} OutputsChecked(outputs: seq<Output>, created: set<Bytes32>, utxos: Entries, ctx: Network)
    requires CheckOutputs(outputs, created, utxos, ctx).Pass?
    ensures forall i :: 0 <= i < |outputs| ==> outputs[i].VerifyRange(ctx)
    ensures forall i :: 0 <= i < |outputs| ==> outputs[i].commit !in utxos && outputs[i].commit !in created
    ensures forall i, j :: 0 <= i < j < |outputs| ==> outputs[i].commit != outputs[j].commit
  {
    if outputs != [] {
      OutputsChecked(outputs[1..], created + {outputs[0].commit}, utxos, ctx);
      assert forall i :: 1 <= i < |outputs| ==> outputs[i] == outputs[1..][i - 1];
    }
  }

  lemma {:induction false} InputsChecked(inputs: seq<Input>, spent: set<Bytes32>, l: Ledger, height: nat)
    requires CheckInputs(inputs, spent, l, height).Pass?
    ensures CheckSpends(inputs, spent, l.utxos).Pass?
  {
    if inputs != [] {
      InputsChecked(inputs[1..], spent + {inputs[0].commit}, l, height);
    }
  }

  // ------------------------------------------------- the committed UTXO set --

  ghost predicate Creates(outputs: seq<Output>, c: Bytes32) {
    exists i :: 0 <= i < |outputs| && outputs[i].commit == c
  }

  ghost predicate Spends(inputs: seq<Input>, c: Bytes32) {
    exists i :: 0 <= i < |inputs| && inputs[i].commit == c
  }

  lemma {:induction false} Inserted(utxos: Entries, outputs: seq<Output>, height: nat)
    ensures var r := InsertOutputs(utxos, outputs, height);
            && (forall c :: c in r <==> c in utxos || Creates(outputs, c))
            && (forall c :: c in utxos && !Creates(outputs, c) ==> r[c] == utxos[c])
  {
    if outputs != [] {
      var n := |outputs| - 1;
      Inserted(utxos, outputs[..n], height);
      assert forall c :: Creates(outputs, c) <==> Creates(outputs[..n], c) || outputs[n].commit == c by {
        forall c ensures Creates(outputs, c) <==> Creates(outputs[..n], c) || outputs[n].commit == c {
          if Creates(outputs, c) {
            var i :| 0 <= i < |outputs| && outputs[i].commit == c;
            assert i < n ==> outputs[..n][i] == outputs[i];
          }
          if Creates(outputs[..n], c) {
            var i :| 0 <= i < n && outputs[..n][i].commit == c;
            assert outputs[i].commit == c;
          }
        }
      }
    }
  }

  lemma {:induction false} Restored(utxos: Entries, l: Ledger, inputs: seq<Input>)
    requires forall i :: 0 <= i < |inputs| ==> inputs[i].commit in l.utxos
    requires forall c :: Spends(inputs, c) ==> c !in utxos || utxos[c] == l.utxos[c]
    ensures var r := Restore(utxos, SpentEntries(l, inputs));
            && (forall c :: c in r <==> c in utxos || Spends(inputs, c))
            && (forall c :: c in utxos ==> r[c] == utxos[c])
            && (forall c :: Spends(inputs, c) ==> r[c] == l.utxos[c])
    decreases |inputs|
  {
    if inputs != [] {
      var first := inputs[0].commit;
      var next := utxos[first := l.utxos[first]];
      assert Spends(inputs, first);
      assert forall c :: Spends(inputs, c) <==> c == first || Spends(inputs[1..], c) by {
        forall c ensures Spends(inputs, c) <==> c == first || Spends(inputs[1..], c) {
          if Spends(inputs, c) {
            var i :| 0 <= i < |inputs| && inputs[i].commit == c;
            assert i > 0 ==> inputs[1..][i - 1] == inputs[i];
          }
          if Spends(inputs[1..], c) {
            var i :| 0 <= i < |inputs[1..]| && inputs[1..][i].commit == c;
            assert inputs[i + 1].commit == c;
          }
        }
      }
      var spent := SpentEntries(l, inputs);
      assert spent[0] == (first, l.utxos[first]) && spent[1..] == SpentEntries(l, inputs[1..]);
      Restored(next, l, inputs[1..]);
    }
  }

  lemma {:induction false} CommitSets(b: Body)
    ensures forall c :: c in ToSet(InputCommits(b)) <==> Spends(b.inputs, c)
    ensures forall c :: c in ToSet(OutputCommits(b)) <==> Creates(b.outputs, c)
  {
    forall c ensures c in InputCommits(b) <==> Spends(b.inputs, c) {
      if Spends(b.inputs, c) {
        var i :| 0 <= i < |b.inputs| && b.inputs[i].commit == c;
        assert InputCommits(b)[i] == c;
      }
    }
    forall c ensures c in OutputCommits(b) <==> Creates(b.outputs, c) {
      if Creates(b.outputs, c) {
        var i :| 0 <= i < |b.outputs| && b.outputs[i].commit == c;
        assert OutputCommits(b)[i] == c;
      }
    }
  }

  /** No output overwrites an entry that the block does not itself spend. */
  ghost predicate Fresh(l: Ledger, b: Body) {
    forall c :: c in l.utxos && Creates(b.outputs, c) ==> Spends(b.inputs, c)
  }

  /** `rewind` undoes `apply_block_state_only` exactly when no output overwrites an unspent entry. */
  lemma {:induction false} RewindInvertsReplay(l: Ledger, b: Body, height: nat, subsidy: u64)
    requires ApplyStateOnly(l, b, height, subsidy).Success?
    ensures CaptureUndo(l, b).Success?
    ensures Rewind(ApplyStateOnly(l, b, height, subsidy).value, CaptureUndo(l, b).value) == l <==> Fresh(l, b)
  {
    var next := ApplyStateOnly(l, b, height, subsidy).value;
    var undo := CaptureUndo(l, b).value;
    RewoundUtxos(l, b, height);
    var back := Rewind(next, undo);
    assert back.utxos == Restore(InsertOutputs(l.utxos - ToSet(InputCommits(b)), b.outputs, height) - ToSet(OutputCommits(b)),
                                 SpentEntries(l, b.inputs));
    if back == l {
      assert Fresh(l, b);
    } else {
      assert back.utxos != l.utxos;
    }
  }

  lemma {:induction false} RewoundUtxos(l: Ledger, b: Body, height: nat)
    requires CheckSpends(b.inputs, {}, l.utxos).Pass?
    ensures forall i :: 0 <= i < |b.inputs| ==> b.inputs[i].commit in l.utxos
    ensures Restore(InsertOutputs(l.utxos - ToSet(InputCommits(b)), b.outputs, height) - ToSet(OutputCommits(b)),
                    SpentEntries(l, b.inputs)) == l.utxos
            <==> Fresh(l, b)
  {
    hide CheckSpends, SpentEntries, InsertOutputs, Restore, ToSet, InputCommits, OutputCommits, Creates;
    SpendsPresent(b.inputs, {}, l.utxos);
    CommitSets(b);
    var kept := l.utxos - ToSet(InputCommits(b));
    Inserted(kept, b.outputs, height);
    var left := InsertOutputs(kept, b.outputs, height) - ToSet(OutputCommits(b));
    assert forall c :: c in left <==> c in l.utxos && !Spends(b.inputs, c) && !Creates(b.outputs, c);
    assert forall c :: c in left ==> left[c] == l.utxos[c];
    Restored(left, l, b.inputs);
    var r := Restore(left, SpentEntries(l, b.inputs));
    assert forall c :: c in r ==> c in l.utxos && r[c] == l.utxos[c];
    if r == l.utxos {
      forall c | c in l.utxos && Creates(b.outputs, c) ensures Spends(b.inputs, c) {
        assert c in r;
      }
    }
    if Fresh(l, b) {
      assert forall c :: c in l.utxos ==> c in r;
    }
  }

  // ------------------------------------------- taking back from less than all --

  ghost predicate Part(a: Entries, b: Entries) {
    forall c :: c in a ==> c in b && a[c] == b[c]
  }

  /** The ledger `w` is `l` with some unspent outputs missing. */
  ghost predicate Within(w: Ledger, l: Ledger) {
    w == l.(utxos := w.utxos) && Part(w.utxos, l.utxos)
  }

  lemma {:induction false} RewoundPart(w: Entries, l: Ledger, b: Body, height: nat)
    requires CheckSpends(b.inputs, {}, l.utxos).Pass?
    requires Part(w, InsertOutputs(l.utxos - ToSet(InputCommits(b)), b.outputs, height))
    ensures forall i :: 0 <= i < |b.inputs| ==> b.inputs[i].commit in l.utxos
    ensures var back := Restore(w - ToSet(OutputCommits(b)), SpentEntries(l, b.inputs));
            && Part(back, l.utxos)
            && forall c :: c in l.utxos ==> (c in back <==> Spends(b.inputs, c) || (!Creates(b.outputs, c) && c in w))
  {
    hide CheckSpends, InputCommits, OutputCommits, InsertOutputs, Restore, SpentEntries, Creates;
    SpendsPresent(b.inputs, {}, l.utxos);
    CommitSets(b);
    var kept := l.utxos - ToSet(InputCommits(b));
    Inserted(kept, b.outputs, height);
    var next := InsertOutputs(kept, b.outputs, height);
    var left := w - ToSet(OutputCommits(b));
    forall c | c in left ensures c in l.utxos && left[c] == l.utxos[c] {
      assert c in next && !Creates(b.outputs, c);
    }
    Restored(left, l, b.inputs);
  }

  /**
    Taking a block back from a ledger that lacks some outputs leaves a ledger within the one before the block.  It has what
    the block spent, and what it had and the block did not create; everything else is missing.
   */
  lemma {:induction false} RewindWithin(w: Ledger, l: Ledger, b: Body, height: nat, subsidy: u64)
    requires ApplyStateOnly(l, b, height, subsidy).Success? && Within(w, ApplyStateOnly(l, b, height, subsidy).value)
    ensures CaptureUndo(l, b).Success? && Within(Rewind(w, CaptureUndo(l, b).value), l)
    ensures forall c :: c in l.utxos ==>
              (c in Rewind(w, CaptureUndo(l, b).value).utxos <==> Spends(b.inputs, c) || (!Creates(b.outputs, c) && c in w.utxos))
  {
    hide CheckSpends, CoinbaseKernels, TotalFee, DecodeOffset, NextKernelSum, NextSupply, InsertOutputs, Restore, SpentEntries, Part,
         InputCommits, OutputCommits, ToSet, Spends, Creates;
    RewoundPart(w.utxos, l, b, height);
    var back := Rewind(w, CaptureUndo(l, b).value);
    assert back.utxos == Restore(w.utxos - ToSet(OutputCommits(b)), SpentEntries(l, b.inputs));
    assert back == l.(utxos := back.utxos);
    assert Part(back.utxos, l.utxos);
  }

  /** An unspent output that a block does not spend is unspent after it. */
  lemma {:induction false} Survives(l: Ledger, b: Body, height: nat, subsidy: u64, c: Bytes32)
    requires ApplyStateOnly(l, b, height, subsidy).Success? && c in l.utxos && !Spends(b.inputs, c)
    ensures c in ApplyStateOnly(l, b, height, subsidy).value.utxos
  {
    hide CheckSpends, CoinbaseKernels, TotalFee, DecodeOffset, NextKernelSum, NextSupply, InsertOutputs, InputCommits, ToSet, Spends, Creates;
    CommitSets(b);
    var kept := l.utxos - ToSet(InputCommits(b));
    assert c !in ToSet(InputCommits(b)) && c in kept;
    Inserted(kept, b.outputs, height);
    assert c in InsertOutputs(kept, b.outputs, height);
    assert ApplyStateOnly(l, b, height, subsidy).value.utxos == InsertOutputs(kept, b.outputs, height);
  }

  // ------------------------------------------- validation refines into replay --

  /** The binding fields do not reach the state that a block leaves behind. */
  lemma {:induction false} StripKeepsState(b: Body)
    ensures var s := StripBinding(b);
            && InputCommits(s) == InputCommits(b) && s.outputs == b.outputs && Excesses(s) == Excesses(b)
            && |s.kernels| == |b.kernels|
            && TotalFee(s.kernels) == TotalFee(b.kernels)
            && CoinbaseKernels(s.kernels) == CoinbaseKernels(b.kernels)
  {
    StripKeepsKernels(b.kernels);
    assert InputCommits(StripBinding(b)) == InputCommits(b);
    assert Excesses(StripBinding(b)) == Excesses(b);
  }

  lemma {:induction false} StripKeepsKernels(kernels: seq<Kernel>)
    ensures TotalFee(StripKernels(kernels)) == TotalFee(kernels)
    ensures CoinbaseKernels(StripKernels(kernels)) == CoinbaseKernels(kernels)
  {
    if kernels != [] {
      StripKeepsKernels(kernels[1..]);
      var s := StripKernels(kernels);
      assert s[0] == kernels[0].StripBinding();
      assert s[1..] == StripKernels(kernels[1..]);
    }
  }

  lemma {:induction false} SpendsByCommit(a: seq<Input>, b: seq<Input>, spent: set<Bytes32>, utxos: Entries)
    requires |a| == |b| && forall i :: 0 <= i < |a| ==> a[i].commit == b[i].commit
    ensures CheckSpends(a, spent, utxos) == CheckSpends(b, spent, utxos)
  {
    if a != [] {
      SpendsByCommit(a[1..], b[1..], spent + {a[0].commit}, utxos);
    }
  }

  lemma {:induction false} JudgedSpends(l: Ledger, body: Body, height: nat)
    ensures var b := Judged(l, body, height);
            CheckSpends(b.inputs, {}, l.utxos) == CheckSpends(body.inputs, {}, l.utxos)
  {
    var b := Judged(l, body, height);
    SpendsByCommit(b.inputs, body.inputs, {}, l.utxos);
  }

  /** What a successful validation has established, without looking into the checks. */
  lemma {:induction false} ApplySteps(l: Ledger, body: Body, height: nat, subsidy: u64, ctx: Network)
    requires Apply(l, body, height, subsidy, ctx).Success?
    ensures var b := Judged(l, body, height);
            && b.outputs != [] && b.kernels != []
            && CheckBody(l, b, height, subsidy, ctx).Pass?
            && CheckSpends(b.inputs, {}, l.utxos).Pass?
            && DecodeOffset(b.kernelOffset).Success?
            && NextKernelSum(l, b, DecodeOffset(b.kernelOffset).value).Success?
            && NextSupply(l, TotalFee(b.kernels), subsidy).Success?
            && VerifySupply(Apply(l, body, height, subsidy, ctx).value).Pass?
            && Apply(l, body, height, subsidy, ctx).value
               == Commit(l, b, height, NextKernelSum(l, b, DecodeOffset(b.kernelOffset).value).value,
                         NextSupply(l, TotalFee(b.kernels), subsidy).value)
  {
    hide Commit, VerifySupply, SupplyEquation, SumAfter, NextSupply, NextKernelSum, DecodeOffset, CheckSpends, Judged;
    hide IsCanonical, ExceedsSizeLimits, CheckCoinbaseKernel, CheckKernels, CheckOutputs, CheckInputs, KeyBalance,
         ValueBalance, CheckCoinbaseOutput, TotalFee, FirstCoinbase;
  }

  lemma {:induction false} BodySteps(l: Ledger, b: Body, height: nat, subsidy: u64, ctx: Network)
    requires CheckBody(l, b, height, subsidy, ctx).Pass?
    ensures b.outputs != [] && b.kernels != [] && IsCanonical(b) && !ExceedsSizeLimits(b)
    ensures CheckCoinbaseKernel(l, b, height, subsidy).Pass?
    ensures CheckKernels(b.kernels, height).Pass?
    ensures CheckOutputs(b.outputs, {}, l.utxos, ctx).Pass?
    ensures CheckInputs(b.inputs, {}, l, height).Pass?
    ensures ValueBalance(b).Pass?
  {
    hide IsCanonical, ExceedsSizeLimits, CheckCoinbaseKernel, CheckKernels, CheckOutputs, CheckInputs, KeyBalance,
         ValueBalance, CheckCoinbaseOutput, FirstCoinbase;
  }

  lemma {:induction false} CommitByParts(l: Ledger, a: Body, b: Body, height: nat, kernelSum: Bytes32, supply: (u64, u64))
    requires InputCommits(a) == InputCommits(b) && a.outputs == b.outputs && |a.kernels| == |b.kernels|
    ensures Commit(l, a, height, kernelSum, supply) == Commit(l, b, height, kernelSum, supply)
  {
  }

  /** A block that passes full validation replays to the same ledger, and its outputs are fresh. */
  lemma {:induction false} ApplyRefinesReplay(l: Ledger, body: Body, height: nat, subsidy: u64, ctx: Network)
    requires Apply(l, body, height, subsidy, ctx).Success?
    ensures ApplyStateOnly(l, body, height, subsidy) == Apply(l, body, height, subsidy, ctx)
    ensures Fresh(l, body)
  {
    hide Apply, CheckBody, Commit, CheckSpends, CheckOutputs, CheckKernels, CheckInputs, VerifySupply, IsCanonical,
         ValueBalance, HasAnyBinding, TotalFee, CheckCoinbaseKernel, CoinbaseKernels, StripBinding, InputCommits, Excesses;
    var b := Judged(l, body, height);
    ApplySteps(l, body, height, subsidy, ctx);
    BodySteps(l, b, height, subsidy, ctx);
    OneCoinbase(l, b, height, subsidy);
    StripKeepsState(body);
    StripRemovesBinding(body);
    JudgedSpends(l, body, height);
    OutputsChecked(b.outputs, {}, l.utxos, ctx);
    NoOffsetBelowFork(l, body, height);
    var sum := NextKernelSum(l, b, DecodeOffset(b.kernelOffset).value).value;
    CommitByParts(l, b, body, height, sum, NextSupply(l, TotalFee(b.kernels), subsidy).value);
  }

  lemma {:induction false} NoOffsetBelowFork(l: Ledger, body: Body, height: nat)
    ensures var b := Judged(l, body, height);
            if BindingActive(l, height) then b == body else b.kernelOffset == None
  {
  }

  lemma {:induction false} OneCoinbase(l: Ledger, b: Body, height: nat, subsidy: u64)
    requires CheckCoinbaseKernel(l, b, height, subsidy).Pass?
    ensures CoinbaseKernels(b.kernels) == 1 && l.minted + subsidy <= MAX_SUPPLY_DARKS
    ensures FirstCoinbase(b.kernels).reward == if subsidy > 0 then subsidy else TotalFee(b.kernels)
  {
  }

  /** The exact inverse, for every block that passed validation. */
  lemma {:induction false} RewindInvertsApply(l: Ledger, body: Body, height: nat, subsidy: u64, ctx: Network)
    requires Apply(l, body, height, subsidy, ctx).Success?
    ensures CaptureUndo(l, body).Success?
    ensures Rewind(Apply(l, body, height, subsidy, ctx).value, CaptureUndo(l, body).value) == l
  {
    ApplyRefinesReplay(l, body, height, subsidy, ctx);
    RewindInvertsReplay(l, body, height, subsidy);
  }

  /** A coinbase block that pays out to a commitment which may already be in the set. */
  function Overwriting(c: Bytes32, height: nat, reward: u64): Body {
    var zeros := Encoding(Identity());
    var o := Output(true, c, zeros, zeros, Mainnet, 0, Signature(zeros, SpendMessage(zeros), 0));
    Body([], [o], [BuildKernel(Coinbase, 0, reward, height, 1, 0)], None, None)
  }

  /**
    The failing input of replay and undo: on any ledger with an unspent output, a block that creates that commitment
    again replays, full validation refuses it, and taking it back loses the output.
   */
  lemma {:induction false} OverwriteIsNotUndone(l: Ledger, c: Bytes32, height: nat, subsidy: u64, ctx: Network)
    requires c in l.utxos && l.kernelSum.Encoding? && l.minted + subsidy <= MAX_SUPPLY_DARKS
    ensures var b := Overwriting(c, height, subsidy);
            && ApplyStateOnly(l, b, height, subsidy).Success? && CaptureUndo(l, b).Success?
            && !Fresh(l, b) && Apply(l, b, height, subsidy, ctx).Failure?
            && c !in Rewind(ApplyStateOnly(l, b, height, subsidy).value, CaptureUndo(l, b).value).utxos
  {
    hide Apply, Sum;
    var b := Overwriting(c, height, subsidy);
    OneKernel(b.kernels[0]);
    assert Excesses(b) == [b.kernels[0].excess];
    SumOfOne(b.kernels[0].excess);
    assert b.outputs[0].commit == c && Creates(b.outputs, c) && !Spends(b.inputs, c);
    assert OutputCommits(b) == [c];
    assert CaptureUndo(l, b).value.spent == [];
    if Apply(l, b, height, subsidy, ctx).Success? {
      ApplyRefinesReplay(l, b, height, subsidy, ctx);
    }
  }
}
