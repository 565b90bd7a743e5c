/**
  The ledger object of crates/nightfall-ledger/src/lib.rs: its methods change the set entry by entry as the program
  does, and each is proved against the functions of module Ledgers.
 */
module LedgerStates {
  import opened Wrappers
  import opened Words
  import opened Curve
  import opened Sorting
  import opened Utxos
  import opened Transactions
  import opened Ledgers
  import opened LedgerProofs

  /** What one call does to the ledger: the next state on success, no change on any error. */
  ghost predicate Committed(spec: Result<Ledger, LedgerError>, outcome: Outcome<LedgerError>, before: Ledger, after: Ledger) {
    match spec
    case Success(next) => outcome == Pass && after == next
    case Failure(e) => outcome == Fail(e) && after == before
  }

  /** Taking back what was just committed restores the ledger, when the outputs were new. */
  lemma {:induction false} RollbackRestores(l: Ledger, b: Body, height: nat, sum: Bytes32, supply: (u64, u64))
    requires CheckSpends(b.inputs, {}, l.utxos).Pass? && Fresh(l, b)
    ensures CaptureUndo(l, b).Success?
    ensures Rewind(Commit(l, b, height, sum, supply), CaptureUndo(l, b).value) == l
  {
    hide CheckSpends, InsertOutputs, Restore, SpentEntries, Fresh, InputCommits, OutputCommits, ToSet;
    RewoundUtxos(l, b, height);
  }

  lemma {:induction false} CheckedIsFresh(l: Ledger, b: Body, height: nat, subsidy: u64, ctx: Network)
    requires CheckBody(l, b, height, subsidy, ctx).Pass?
    ensures Fresh(l, b)
  {
    hide CheckBody, CheckOutputs, CheckInputs, CheckKernels, CheckCoinbaseKernel, IsCanonical, ExceedsSizeLimits, ValueBalance;
    BodySteps(l, b, height, subsidy, ctx);
    OutputsChecked(b.outputs, {}, l.utxos, ctx);
  }

  /** The entries less the first n spent commitments. */
  lemma {:induction false} RemoveOneMore(utxos: Entries, commits: seq<Bytes32>, n: nat)
    requires n < |commits|
    ensures (utxos - ToSet(commits[..n])) - {commits[n]} == utxos - ToSet(commits[..n + 1])
  {
    assert commits[..n + 1] == commits[..n] + [commits[n]];
    assert ToSet(commits[..n + 1]) == ToSet(commits[..n]) + {commits[n]};
  }

  lemma {:induction false} RemoveNone(utxos: Entries)
    ensures utxos - ToSet([]) == utxos
  {
    assert ToSet([]) == {};
  }

  lemma {:induction false} InsertOneMore(utxos: Entries, outputs: seq<Output>, height: nat, n: nat)
    requires n < |outputs|
    ensures InsertOutputs(utxos, outputs[..n + 1], height)
            == InsertOutputs(utxos, outputs[..n], height)[outputs[n].commit := Utxo(outputs[n].outputPk, height, outputs[n].coinbase)]
  {
    assert outputs[..n + 1][..n] == outputs[..n];
  }

  lemma {:induction false} SpendsStep(b: Body, n: nat, spent: set<Bytes32>, utxos: Entries)
    requires n < |b.inputs|
    ensures CheckSpends(b.inputs[n..], spent, utxos)
            == if b.inputs[n].commit in spent then Fail(DoubleSpendWithinBlock)
               else if b.inputs[n].commit !in utxos then Fail(UnknownInput)
               else CheckSpends(b.inputs[n + 1..], spent + {b.inputs[n].commit}, utxos)
  {
    assert b.inputs[n..][1..] == b.inputs[n + 1..];
  }

  lemma {:induction false} EntriesSnoc(l: Ledger, inputs: seq<Input>, n: nat)
    requires n < |inputs| && forall i :: 0 <= i < n + 1 ==> inputs[i].commit in l.utxos
    ensures SpentEntries(l, inputs[..n + 1]) == SpentEntries(l, inputs[..n]) + [(inputs[n].commit, l.utxos[inputs[n].commit])]
    decreases n
  {
    if n == 0 {
      assert inputs[..1][1..] == [] && inputs[..0] == [];
    } else {
      assert inputs[1..][..n] == inputs[..n + 1][1..] && inputs[1..][..n - 1] == inputs[..n][1..];
      EntriesSnoc(l, inputs[1..], n - 1);
    }
  }

  lemma {:induction false} RestoreOneMore(utxos: Entries, spent: seq<(Bytes32, Utxo)>, n: nat)
    requires n < |spent|
    ensures Restore(utxos, spent[..n + 1]) == Restore(utxos, spent[..n])[spent[n].0 := spent[n].1]
    decreases n
  {
    if n > 0 {
      assert spent[..n + 1][1..] == spent[1..][..n] && spent[..n][1..] == spent[1..][..n - 1];
      RestoreOneMore(utxos[spent[0].0 := spent[0].1], spent[1..], n - 1);
    } else {
      assert spent[..1][1..] == [];
    }
  }

  class LedgerState {
    var state: Ledger

    constructor (l: Ledger)
      ensures state == l
    {
      state := l;
    }

    /** Presence and uniqueness of the inputs, gathering what they spend. */
    method CheckInputs(b: Body) returns (r: Outcome<LedgerError>, spent: seq<(Bytes32, Utxo)>)
      ensures r == CheckSpends(b.inputs, {}, state.utxos)
      ensures r.Pass? ==> (forall i :: 0 <= i < |b.inputs| ==> b.inputs[i].commit in state.utxos) && spent == SpentEntries(state, b.inputs)
    {
      hide CheckSpends, InputCommits, ToSet;
      var seen: set<Bytes32> := {};
      spent := [];
      assert b.inputs[0..] == b.inputs && b.inputs[..|b.inputs|] == b.inputs;
      for n := 0 to |b.inputs|
        invariant CheckSpends(b.inputs, {}, state.utxos) == CheckSpends(b.inputs[n..], seen, state.utxos)
        invariant forall i :: 0 <= i < n ==> b.inputs[i].commit in state.utxos
        invariant spent == SpentEntries(state, b.inputs[..n])
      {
        SpendsStep(b, n, seen, state.utxos);
        var c := b.inputs[n].commit;
        if c in seen {
          return Fail(DoubleSpendWithinBlock), [];
        }
        if c !in state.utxos {
          return Fail(UnknownInput), [];
        }
        EntriesSnoc(state, b.inputs, n);
        seen := seen + {c};
        spent := spent + [(c, state.utxos[c])];
      }
      NoSpends(b.inputs[|b.inputs|..], seen, state.utxos);
      return Pass, spent;
    }

    /** `capture_undo`. */
    method CaptureUndo(b: Body) returns (r: Result<StateUndo, LedgerError>)
      ensures r == Ledgers.CaptureUndo(state, b)
    {
      hide CheckSpends, SpentEntries;
      var outcome, spent := CheckInputs(b);
      if outcome.Fail? {
        return Failure(outcome.error);
      }
      return Success(StateUndo(spent, OutputCommits(b), state.kernelSum, state.kernelCount, state.minted, state.burned, state.txCount, state.height));
    }

    /** The commit: spent entries out, created entries in, one at a time, then the sums. */
    method Write(b: Body, height: nat, kernelSum: Bytes32, supply: (u64, u64))
      modifies this
      ensures state == Commit(old(state), b, height, kernelSum, supply)
    {
      hide ToSet, InsertOutputs, InputCommits;
      var utxos := state.utxos;
      var spent := InputCommits(b);
      RemoveNone(utxos);
      assert spent[..0] == [] && spent[..|spent|] == spent;
      for n := 0 to |spent|
        invariant state == old(state) && utxos == state.utxos - ToSet(spent[..n])
      {
        RemoveOneMore(state.utxos, spent, n);
        utxos := utxos - {spent[n]};
      }
      ghost var kept := utxos;
      InsertNone(kept, height);
      assert b.outputs[..0] == [] && b.outputs[..|b.outputs|] == b.outputs;
      for n := 0 to |b.outputs|
        invariant state == old(state) && utxos == InsertOutputs(kept, b.outputs[..n], height)
      {
        InsertOneMore(kept, b.outputs, height, n);
        utxos := utxos[b.outputs[n].commit := Utxo(b.outputs[n].outputPk, height, b.outputs[n].coinbase)];
      }
      state := state.(utxos := utxos);
      state := state.(kernelSum := kernelSum, kernelCount := state.kernelCount + |b.kernels|);
      state := state.(minted := supply.0, burned := supply.1);
      state := state.(txCount := state.txCount + |b.kernels|);
      state := state.(height := height);
    }

    /** `rewind`: what the block created goes, what it spent comes back. */
    method Rewind(undo: StateUndo)
      modifies this
      ensures state == Ledgers.Rewind(old(state), undo)
    {
      hide ToSet, Restore;
      var utxos := state.utxos;
      RemoveNone(utxos);
      assert undo.created[..0] == [] && undo.created[..|undo.created|] == undo.created;
      for n := 0 to |undo.created|
        invariant state == old(state) && utxos == state.utxos - ToSet(undo.created[..n])
      {
        RemoveOneMore(state.utxos, undo.created, n);
        utxos := utxos - {undo.created[n]};
      }
      ghost var left := utxos;
      RestoreNone(left);
      assert undo.spent[..0] == [] && undo.spent[..|undo.spent|] == undo.spent;
      for n := 0 to |undo.spent|
        invariant state == old(state) && utxos == Restore(left, undo.spent[..n])
      {
        RestoreOneMore(left, undo.spent, n);
        utxos := utxos[undo.spent[n].0 := undo.spent[n].1];
      }
      state := state.(utxos := utxos, kernelSum := undo.kernelSum, kernelCount := undo.kernelCount, minted := undo.minted,
                      burned := undo.burned, txCount := undo.txCount, height := undo.height);
    }

    /** `apply_block_state_only`: an error changes nothing. */
    method ApplyStateOnly(b: Body, height: nat, subsidy: u64) returns (r: Outcome<LedgerError>)
      modifies this
      ensures Committed(Ledgers.ApplyStateOnly(old(state), b, height, subsidy), r, old(state), state)
    {
      hide CheckSpends, NextKernelSum, NextSupply, Commit, CoinbaseKernels, TotalFee, SpentEntries, DecodeOffset;
      if b.outputs == [] || b.kernels == [] {
        return Fail(EmptyBlock);
      }
      if CoinbaseKernels(b.kernels) != 1 {
        return Fail(MissingCoinbase);
      }
      var fees := TotalFee(b.kernels);
      if state.minted + subsidy > MAX_SUPPLY_DARKS {
        return Fail(SupplyCapExceeded);
      }
      var spends, _ := CheckInputs(b);
      if spends.Fail? {
        return spends;
      }
      var offset := if BindingActive(state, height) then DecodeOffset(b.kernelOffset) else Success(0);
      if offset.Failure? {
        return Fail(offset.error);
      }
      var kernelSum := NextKernelSum(state, b, offset.value);
      if kernelSum.Failure? {
        return Fail(kernelSum.error);
      }
      var supply := NextSupply(state, fees, subsidy);
      if supply.Failure? {
        return Fail(supply.error);
      }
      Write(b, height, kernelSum.value, supply.value);
      return Pass;
    }

    /**
      `apply_block`: every check, the commit in place, and the closing supply check, which takes the commit back when it
      fails.  An error of any kind leaves the ledger as it was.
     */
    method ApplyBlock(body: Body, height: nat, subsidy: u64, ctx: Network) returns (r: Outcome<LedgerError>)
      modifies this
      ensures Committed(Apply(old(state), body, height, subsidy, ctx), r, old(state), state)
    {
      hide CheckBody, CheckSpends, NextKernelSum, NextSupply, Commit, SupplyEquation, VerifySupply, SumAfter, TotalFee, SpentEntries,
           DecodeOffset, Judged, Ledgers.Rewind, Fresh, OutputCommits;
      var b := Judged(state, body, height);
      var checks := CheckBody(state, b, height, subsidy, ctx);
      if checks.Fail? {
        return checks;
      }
      var offset := DecodeOffset(b.kernelOffset);
      if offset.Failure? {
        return Fail(offset.error);
      }
      var kernelSum := NextKernelSum(state, b, offset.value);
      if kernelSum.Failure? {
        return Fail(kernelSum.error);
      }
      var supply := NextSupply(state, TotalFee(b.kernels), subsidy);
      if supply.Failure? {
        return Fail(supply.error);
      }
      var projected := SumAfter(state, b);
      if projected.None? {
        return Fail(MalformedUtxo);
      }
      var equation := SupplyEquation(projected.value, kernelSum.value, supply.value.0, supply.value.1);
      if equation.Fail? {
        return equation;
      }
      var undo := CaptureUndo(b);
      if undo.Failure? {
        return Fail(undo.error);
      }
      CheckedIsFresh(state, b, height, subsidy, ctx);
      RollbackRestores(state, b, height, kernelSum.value, supply.value);
      Write(b, height, kernelSum.value, supply.value);
      var closing := VerifySupply(state);
      if closing.Fail? {
        Rewind(undo.value);
        return closing;
      }
      return Pass;
    }
  }

  lemma {:induction false} NoSpends(rest: seq<Input>, seen: set<Bytes32>, utxos: Entries)
    requires rest == []
    ensures CheckSpends(rest, seen, utxos) == Pass
  {
  }

  lemma {:induction false} InsertNone(utxos: Entries, height: nat)
    ensures InsertOutputs(utxos, [], height) == utxos
  {
  }

  lemma {:induction false} RestoreNone(utxos: Entries)
    ensures Restore(utxos, []) == utxos
  {
  }
}
