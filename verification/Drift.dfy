/**
  What survives on a chain whose shared bodies are not the ones its headers commit to.

  Own-disk replay does not compare a body with its header, so a candidate may reuse our headers with other
  bodies below the fork, and a block may then overwrite an unspent output.  Taking such a block back loses
  the output: the ledger drifts below what replay gives.  Nothing else is lost.
 */
module Drift {
  import opened Wrappers
  import opened Words
  import opened Curve
  import opened Utxos
  import opened Transactions
  import opened Ledgers
  import opened LedgerProofs
  import opened Blocks
  import opened Consensus
  import opened StepProofs
  import opened ChainInvariant
  import opened FastReorg
  import opened ForkChoice
  import opened Agreement

  // ------------------------------------------------------------ one block --

  lemma {:induction false} SpendsWithin(inputs: seq<Input>, spent: set<Bytes32>, a: Entries, b: Entries)
    requires a.Keys <= b.Keys && CheckSpends(inputs, spent, a).Pass?
    ensures CheckSpends(inputs, spent, b).Pass?
  {
    if inputs != [] {
      SpendsWithin(inputs[1..], spent + {inputs[0].commit}, a, b);
    }
  }

  lemma {:induction false} EntriesWithin(w: Ledger, l: Ledger, inputs: seq<Input>)
    requires Within(w, l) && forall i :: 0 <= i < |inputs| ==> inputs[i].commit in w.utxos
    ensures forall i :: 0 <= i < |inputs| ==> inputs[i].commit in l.utxos
    ensures SpentEntries(w, inputs) == SpentEntries(l, inputs)
  {
    if inputs != [] {
      EntriesWithin(w, l, inputs[1..]);
    }
  }

  /** A block that finds its inputs in the smaller ledger leaves the same undo record on the larger one. */
  lemma {:induction false} CaptureWithin(w: Ledger, l: Ledger, b: Body)
    requires Within(w, l) && CaptureUndo(w, b).Success?
    ensures CaptureUndo(l, b) == CaptureUndo(w, b)
  {
    hide CheckSpends;
    SpendsWithin(b.inputs, {}, w.utxos, l.utxos);
    SpendsPresent(b.inputs, {}, w.utxos);
    EntriesWithin(w, l, b.inputs);
  }

  lemma {:induction false} CommitWithin(w: Ledger, l: Ledger, b: Body, height: nat, sum: Bytes32, supply: (u64, u64))
    requires Within(w, l)
    ensures Within(Commit(w, b, height, sum, supply), Commit(l, b, height, sum, supply))
  {
    hide InputCommits, InsertOutputs;
    var inputs := ToSet(InputCommits(b));
    InsertWithin(w.utxos - inputs, l.utxos - inputs, b.outputs, height);
    var small, large := Commit(w, b, height, sum, supply), Commit(l, b, height, sum, supply);
    assert small == large.(utxos := small.utxos);
  }

  lemma {:induction false} InsertWithin(a: Entries, b: Entries, outputs: seq<Output>, height: nat)
    requires Part(a, b)
    ensures Part(InsertOutputs(a, outputs, height), InsertOutputs(b, outputs, height))
  {
    if outputs != [] {
      InsertWithin(a, b, outputs[..|outputs| - 1], height);
    }
  }

  /** ... and replays on it. */
  lemma {:induction false} ReplayWithin(w: Ledger, l: Ledger, b: Body, height: nat, subsidy: u64)
    requires Within(w, l) && ApplyStateOnly(w, b, height, subsidy).Success?
    ensures ApplyStateOnly(l, b, height, subsidy).Success?
    ensures Within(ApplyStateOnly(w, b, height, subsidy).value, ApplyStateOnly(l, b, height, subsidy).value)
  {
    hide CheckSpends, Commit, CoinbaseKernels, TotalFee, DecodeOffset, Excesses, Sum;
    SpendsWithin(b.inputs, {}, w.utxos, l.utxos);
    var offset := (if BindingActive(w, height) then DecodeOffset(b.kernelOffset) else Success(0)).value;
    var sum := NextKernelSum(w, b, offset).value;
    var supply := NextSupply(w, TotalFee(b.kernels), subsidy).value;
    CommitWithin(w, l, b, height, sum, supply);
    assert NextKernelSum(l, b, offset) == Success(sum);
    assert NextSupply(l, TotalFee(b.kernels), subsidy) == Success(supply);
  }

  // -------------------------------------------------------- what is missing --

  /** The output c is unspent in l, and w has lost it. */
  ghost predicate Missing(w: Ledger, l: Ledger, c: Bytes32) {
    c in l.utxos && c !in w.utxos
  }

  /** A block that replays on the smaller ledger makes good for exactly the lost outputs that it creates again. */
  lemma {:induction false} MissingAfter(w: Ledger, l: Ledger, b: Body, height: nat, subsidy: u64, c: Bytes32)
    requires Within(w, l) && ApplyStateOnly(w, b, height, subsidy).Success? && ApplyStateOnly(l, b, height, subsidy).Success?
    ensures Missing(ApplyStateOnly(w, b, height, subsidy).value, ApplyStateOnly(l, b, height, subsidy).value, c)
            <==> Missing(w, l, c) && !Creates(b.outputs, c)
  {
    hide CheckSpends, CoinbaseKernels, TotalFee, DecodeOffset, NextKernelSum, NextSupply, InsertOutputs, InputCommits, ToSet, Spends, Creates;
    SpendsPresent(b.inputs, {}, w.utxos);
    CommitSets(b);
    Inserted(w.utxos - ToSet(InputCommits(b)), b.outputs, height);
    Inserted(l.utxos - ToSet(InputCommits(b)), b.outputs, height);
    SpentIsPresent(b.inputs, w.utxos, c);
  }

  lemma {:induction false} SpentIsPresent(inputs: seq<Input>, utxos: Entries, c: Bytes32)
    requires forall i :: 0 <= i < |inputs| ==> inputs[i].commit in utxos
    ensures Spends(inputs, c) ==> c in utxos
  {
  }

  /** Some block of the list creates c. */
  ghost predicate Recreated(blocks: seq<Block>, c: Bytes32) {
    exists i :: 0 <= i < |blocks| && Creates(blocks[i].body.outputs, c)
  }

  /** After these blocks just those outputs are missing that were missing before and were not created again. */
  ghost predicate MadeGood(small: Ledger, large: Ledger, w: Ledger, l: Ledger, blocks: seq<Block>) {
    forall c :: Missing(small, large, c) <==> Missing(w, l, c) && !Recreated(blocks, c)
  }

  lemma {:induction false} RecreatedSnoc(blocks: seq<Block>, b: Block, c: Bytes32)
    ensures Recreated(blocks + [b], c) <==> Recreated(blocks, c) || Creates(b.body.outputs, c)
  {
    hide Creates;
    var all := blocks + [b];
    assert all[|blocks|] == b;
    if Recreated(blocks, c) {
      var i :| 0 <= i < |blocks| && Creates(blocks[i].body.outputs, c);
      assert all[i] == blocks[i];
    }
    if Recreated(all, c) {
      var i :| 0 <= i < |all| && Creates(all[i].body.outputs, c);
      assert i < |blocks| ==> all[i] == blocks[i];
    }
  }

  // ---------------------------------------------------------------- runs --

  /** Two runs of one list of blocks, on a ledger and on a ledger within it. */
  ghost predicate SameRun(small: seq<Step>, large: seq<Step>) {
    StepBlocks(small) == StepBlocks(large) && Undos(small) == Undos(large)
  }

  lemma {:induction false} SameRunCompacts(small: seq<Step>, large: seq<Step>)
    requires SameRun(small, large)
    ensures |small| == |large| && Compacts(small) == Compacts(large)
  {
    assert |StepBlocks(small)| == |small| && |StepBlocks(large)| == |large|;
    forall i | 0 <= i < |small| ensures small[i].block == large[i].block {
      assert StepBlocks(small)[i] == StepBlocks(large)[i];
    }
  }

  lemma {:induction false} TrustWithin(cfg: Config, hs: Headers, w: Ledger, l: Ledger, block: Block)
    requires Within(w, l) && Trust(cfg, hs, w, block).Success?
    ensures Trust(cfg, hs, l, block).Success?
    ensures var small, large := Trust(cfg, hs, w, block).value, Trust(cfg, hs, l, block).value;
            small.block == large.block && small.undo == large.undo && Within(small.ledger, large.ledger)
    ensures var small, large := Trust(cfg, hs, w, block).value, Trust(cfg, hs, l, block).value;
            forall c :: Missing(small.ledger, large.ledger, c) <==> Missing(w, l, c) && !Creates(large.block.body.outputs, c)
  {
    hide CheckLink, CaptureUndo, ApplyStateOnly, Normal, Within, Missing, Creates;
    var b := Normal(cfg, block);
    SameMinted(w, l);
    TrustSteps(cfg, hs, w, block);
    CaptureWithin(w, l, b.body);
    ReplayWithin(w, l, b.body, b.header.height, Subsidy(w, b.header.height));
    TrustSteps(cfg, hs, l, block);
    forall c ensures Missing(Trust(cfg, hs, w, block).value.ledger, Trust(cfg, hs, l, block).value.ledger, c)
                     <==> Missing(w, l, c) && !Creates(b.body.outputs, c)
    {
      MissingAfter(w, l, b.body, b.header.height, Subsidy(w, b.header.height), c);
    }
  }

  lemma {:induction false} SameMinted(w: Ledger, l: Ledger)
    requires Within(w, l)
    ensures w.minted == l.minted
  {
  }

  lemma {:induction false} RunWithin(cfg: Config, hs: Headers, w: Ledger, l: Ledger, blocks: seq<Block>)
    requires Within(w, l) && StepsOf(cfg, OwnDisk, hs, w, blocks).Success?
    ensures StepsOf(cfg, OwnDisk, hs, l, blocks).Success?
    ensures var small, large := StepsOf(cfg, OwnDisk, hs, w, blocks).value, StepsOf(cfg, OwnDisk, hs, l, blocks).value;
            SameRun(small, large) && Within(EndLedger(w, small), EndLedger(l, large))
    ensures var small, large := StepsOf(cfg, OwnDisk, hs, w, blocks).value, StepsOf(cfg, OwnDisk, hs, l, blocks).value;
            MadeGood(EndLedger(w, small), EndLedger(l, large), w, l, StepBlocks(large))
    decreases |blocks|
  {
    hide Trust, Within, Missing, Creates;
    if blocks != [] {
      hide Recreated;
      var n := |blocks| - 1;
      RunWithin(cfg, hs, w, l, blocks[..n]);
      var small, large := StepsOf(cfg, OwnDisk, hs, w, blocks[..n]).value, StepsOf(cfg, OwnDisk, hs, l, blocks[..n]).value;
      SameRunCompacts(small, large);
      TrustWithin(cfg, hs + Compacts(small), EndLedger(w, small), EndLedger(l, large), blocks[n]);
      var a := Trust(cfg, hs + Compacts(small), EndLedger(w, small), blocks[n]).value;
      var b := Trust(cfg, hs + Compacts(small), EndLedger(l, large), blocks[n]).value;
      SameRunSnoc(small, large, a, b);
      assert StepBlocks(large + [b]) == StepBlocks(large) + [b.block];
      forall c ensures Recreated(StepBlocks(large + [b]), c) <==> Recreated(StepBlocks(large), c) || Creates(b.block.body.outputs, c) {
        RecreatedSnoc(StepBlocks(large), b.block, c);
      }
    }
  }

  lemma {:induction false} SameRunSnoc(small: seq<Step>, large: seq<Step>, a: Step, b: Step)
    requires SameRun(small, large) && a.block == b.block && a.undo == b.undo
    ensures SameRun(small + [a], large + [b])
  {
    assert StepBlocks(small + [a]) == StepBlocks(small) + [a.block] && StepBlocks(large + [b]) == StepBlocks(large) + [b.block];
    assert Undos(small + [a]) == Undos(small) + [a.undo] && Undos(large + [b]) == Undos(large) + [b.undo];
  }

  /** Blocks fully validated on a drifted ledger replay on the ledger it drifted from. */
  lemma {:induction false} FullRunWithin(cfg: Config, hs: Headers, w: Ledger, l: Ledger, blocks: seq<Block>, now: u64)
    requires Within(w, l) && StepsOf(cfg, Full(now), hs, w, blocks).Success?
    ensures StepsOf(cfg, OwnDisk, hs, l, blocks).Success?
    ensures var small, large := StepsOf(cfg, Full(now), hs, w, blocks).value, StepsOf(cfg, OwnDisk, hs, l, blocks).value;
            SameRun(small, large) && Within(EndLedger(w, small), EndLedger(l, large))
    ensures var small, large := StepsOf(cfg, Full(now), hs, w, blocks).value, StepsOf(cfg, OwnDisk, hs, l, blocks).value;
            MadeGood(EndLedger(w, small), EndLedger(l, large), w, l, StepBlocks(large))
  {
    hide StepsOf, Within, MadeGood;
    FullRunIsTrustedRun(cfg, hs, w, blocks, now);
    RunWithin(cfg, hs, w, l, blocks);
  }

  // ------------------------------------------------------ the invariant --

  /** The chain with the ledger that replaying its history gives. */
  ghost function Replayed(cfg: Config, s: ChainState, x: seq<Step>): ChainState {
    s.(ledger := LedgerAt(cfg, x, |x|))
  }

  /** The representation invariant, but for outputs the ledger may have lost. */
  ghost predicate LooseInv(cfg: Config, s: ChainState, x: seq<Step>) {
    Inv(cfg, Replayed(cfg, s, x), x) && Within(s.ledger, LedgerAt(cfg, x, |x|))
  }

  lemma {:induction false} InvIsLoose(cfg: Config, s: ChainState, x: seq<Step>)
    ensures Inv(cfg, s, x) <==> LooseInv(cfg, s, x) && s.ledger == LedgerAt(cfg, x, |x|)
  {
    hide History, Window, TailUndos, UndoWork;
    if Inv(cfg, s, x) || s.ledger == LedgerAt(cfg, x, |x|) {
      assert Replayed(cfg, s, x) == s;
    }
  }

  lemma {:induction false} LooseFacts(cfg: Config, s: ChainState, x: seq<Step>)
    requires LooseInv(cfg, s, x)
    ensures History(cfg, x) && s.headers == Compacts(x) && s.totalWork == UndoWork(Undos(x))
    ensures Window(cfg, s, x) && TailUndos(s.undos, x) && Within(s.ledger, LedgerAt(cfg, x, |x|))
  {
    hide History, TailUndos, UndoWork, Within, LedgerAt;
  }

  /** A block accepted on the drifted ledger: the step that replay takes, and the chain after it. */
  lemma {:induction false} LooseApply(cfg: Config, s: ChainState, x: seq<Step>, block: Block, now: u64)
    requires LooseInv(cfg, s, x) && Accept(cfg, s.headers, s.ledger, block, now, true).Success?
    ensures Trust(cfg, s.headers, LedgerAt(cfg, x, |x|), block).Success?
    ensures var step := Accept(cfg, s.headers, s.ledger, block, now, true).value;
            var y := x + [Trust(cfg, s.headers, LedgerAt(cfg, x, |x|), block).value];
            LooseInv(cfg, Push(s, step), y) && Push(s, step).totalWork > s.totalWork
  {
    hide Accept, Trust, History, Window, TailUndos, UndoWork, Within, Newest, Compacts, LedgerAt;
    var l := LedgerAt(cfg, x, |x|);
    var step := Accept(cfg, s.headers, s.ledger, block, now, true).value;
    NextStores(cfg, Full(now), s.headers, s.ledger, block);
    LooseFacts(cfg, s, x);
    TrustWithin(cfg, s.headers, s.ledger, l, block);
    var step' := Trust(cfg, s.headers, l, block).value;
    OneMore(cfg, OwnDisk, x, block);
    SinglePush(Replayed(cfg, s, x), step');
    PushedInv(cfg, Replayed(cfg, s, x), x, [step']);
    EndsWith(cfg, x + [step']);
    assert Replayed(cfg, Push(s, step), x + [step']) == Push(Replayed(cfg, s, x), step');
  }

  /** Pruning never fails, drifted or not: it replays bodies from the horizon and does not read the live ledger. */
  lemma {:induction false} LoosePrune(cfg: Config, s: ChainState, x: seq<Step>, keep: nat)
    requires LooseInv(cfg, s, x)
    ensures PruneKeep(cfg, s, keep).Success?
    ensures var r := PruneKeep(cfg, s, keep).value;
            && LooseInv(cfg, r, x)
            && r.ledger == s.ledger && r.headers == s.headers && r.totalWork == s.totalWork && r.undos == s.undos
  {
    hide Inv, Within, Advance;
    var l := LedgerAt(cfg, x, |x|);
    PruneKeepsInv(cfg, Replayed(cfg, s, x), x, keep);
    var r := PruneKeep(cfg, s, keep);
    assert PruneKeep(cfg, s.(ledger := l), keep) == if r.Success? then Success(r.value.(ledger := l)) else r;
  }

  // ----------------------------------------------------------- fast reorg --

  /** A verified suffix that replays as y above ancestor a. */
  ghost predicate LooseReorg(cfg: Config, r: SuffixReorg, x: seq<Step>, a: nat, y: seq<Step>)
    requires a < |x|
  {
    var l := EndLedger(LedgerAt(cfg, x, a + 1), y);
    r.(ledger := l) == ReorgOf(cfg, x, a, y) && Within(r.ledger, l)
  }

  /** What the ledger w, taken back to the first m blocks, lacks is what was lost on the way. */
  ghost predicate MissingAreLost(cfg: Config, w: Ledger, tip: Ledger, x: seq<Step>, m: nat)
    requires m <= |x|
  {
    forall c :: Missing(w, LedgerAt(cfg, x, m), c) <==> c in LedgerAt(cfg, x, m).utxos && Lost(tip, x, m, c)
  }

  lemma {:induction false} LoosePrepare(cfg: Config, s: ChainState, x: seq<Step>, a: nat)
    requires LooseInv(cfg, s, x)
    ensures PrepareSuffixTrial(cfg, s, a).Success? <==> a < |x| && |x| - 1 - a <= |s.undos|
    ensures PrepareSuffixTrial(cfg, s, a).Success? ==> LooseTrial(cfg, PrepareSuffixTrial(cfg, s, a).value, x, a)
    ensures PrepareSuffixTrial(cfg, s, a).Success? ==>
              MissingAreLost(cfg, PrepareSuffixTrial(cfg, s, a).value.trial.ledger, s.ledger, x, a + 1)
  {
    hide History, UndoWork, RewindMany, Window, ForNetwork, TailUndos, Compacts, LedgerAt, TipHash, Undos, Within, LooseInv, Lost;
    LooseFacts(cfg, s, x);
    CompactsTake(x, a);
    UndosBounded(s.undos, x);
    if x != [] {
      TipHeight(cfg, x);
      var rewind := |x| - 1 - a;
      if 0 <= rewind <= |s.undos| {
        UndoTail(s.undos, x, rewind);
        TailOf(s.undos, x);
        RewindManyIs(cfg, x, s.ledger, s.undos, rewind);
        assert |x| - rewind == a + 1;
      }
    }
  }

  /** What finishing such a trial hands out replays on the history it was prepared from. */
  lemma {:induction false} LooseFinish(cfg: Config, t: SuffixTrial, x: seq<Step>, a: nat, suffix: seq<Block>, now: u64)
    requires History(cfg, x) && a < |x| && LooseTrial(cfg, t, x, a)
    requires FinishSuffix(cfg, t, suffix, now).Success? && FinishSuffix(cfg, t, suffix, now).value.Some?
    ensures StepsOf(cfg, OwnDisk, Compacts(x[..a + 1]), LedgerAt(cfg, x, a + 1), suffix).Success?
    ensures var y := StepsOf(cfg, OwnDisk, Compacts(x[..a + 1]), LedgerAt(cfg, x, a + 1), suffix).value;
            && History(cfg, x[..a + 1] + y)
            && LooseReorg(cfg, FinishSuffix(cfg, t, suffix, now).value.value, x, a, y)
            && MadeGood(FinishSuffix(cfg, t, suffix, now).value.value.ledger, EndLedger(LedgerAt(cfg, x, a + 1), y),
                        t.trial.ledger, LedgerAt(cfg, x, a + 1), StepBlocks(y))
  {
    hide History, StepsOf, PushAll, UndoWork, WorkOf, LedgerAt, Compacts, Undos, Within, TipHash, ForNetwork, Newest, StepBlocks, SameRun,
         MadeGood;
    var l := LedgerAt(cfg, x, a + 1);
    var small := StepsOf(cfg, Full(now), t.trial.headers, t.trial.ledger, suffix).value;
    FullRunWithin(cfg, t.trial.headers, t.trial.ledger, l, suffix, now);
    var y := StepsOf(cfg, OwnDisk, Compacts(x[..a + 1]), l, suffix).value;
    SameRunParts(small, y);
    HistoryPrefix(cfg, x, a + 1);
    HistoryAtEnd(cfg, x, a + 1);
    HistoryExtends(cfg, OwnDisk, x[..a + 1], suffix);
    TrialAfter(cfg, x, a, y);
    PushAllFields(TrialAt(cfg, x, a), y);
    PushAllUndos(TrialAt(cfg, x, a), y);
    PushAllFields(t.trial, small);
    PushAllUndos(t.trial, small);
  }

  lemma {:induction false} SameRunParts(small: seq<Step>, large: seq<Step>)
    requires SameRun(small, large)
    ensures StepBlocks(small) == StepBlocks(large) && Undos(small) == Undos(large) && Compacts(small) == Compacts(large)
  {
    SameRunCompacts(small, large);
  }

  /**
    A splice lands on the very history its suffix was verified on, body for body, drifted or not: the tip hash
    fixes the header chain and its work, and a chain that has moved since has strictly more.
   */
  lemma {:induction false} LooseSplice(cfg: Config, s: ChainState, x: seq<Step>, r: SuffixReorg, origin: seq<Step>, a: nat, y: seq<Step>)
    requires LooseInv(cfg, s, x) && History(cfg, origin) && a < |origin| && Earlier(origin, x)
    requires History(cfg, origin[..a + 1] + y) && LooseReorg(cfg, r, origin, a, y)
    requires SpliceSuffix(cfg, s, r).Some?
    ensures origin == x
    ensures var after := SpliceSuffix(cfg, s, r).value;
            && LooseInv(cfg, after, x[..a + 1] + y) && after.ledger == r.ledger
            && after.firstHeight == s.firstHeight && after.horizon == s.horizon && after.totalWork > s.totalWork
  {
    hide Inv, History, UndoWork, LedgerAt, TipHash, Within, Newest, ReorgOf, LooseInv;
    var l := EndLedger(LedgerAt(cfg, origin, a + 1), y);
    var exact := r.(ledger := l);
    LooseParts(cfg, s, x);
    var s' := Replayed(cfg, s, x);
    assert SpliceSuffix(cfg, s', exact).Some?;
    SpliceLands(cfg, s', x, origin, a, y);
    var after := SpliceSuffix(cfg, s, r).value;
    var after' := SpliceSuffix(cfg, s', exact).value;
    assert after.(ledger := l) == after';
    JoinLedger(cfg, x, a, y);
    LooseFrom(cfg, after, x[..a + 1] + y);
  }

  lemma {:induction false} LooseParts(cfg: Config, s: ChainState, x: seq<Step>)
    requires LooseInv(cfg, s, x)
    ensures Inv(cfg, Replayed(cfg, s, x), x) && Within(s.ledger, LedgerAt(cfg, x, |x|))
  {
    hide Inv, Within;
  }

  lemma {:induction false} LooseFrom(cfg: Config, s: ChainState, x: seq<Step>)
    requires Inv(cfg, s.(ledger := LedgerAt(cfg, x, |x|)), x) && Within(s.ledger, LedgerAt(cfg, x, |x|))
    ensures LooseInv(cfg, s, x)
  {
    hide Inv, Within;
  }

  lemma {:induction false} JoinLedger(cfg: Config, x: seq<Step>, a: nat, y: seq<Step>)
    requires a < |x|
    ensures var z := x[..a + 1] + y; LedgerAt(cfg, z, |z|) == EndLedger(LedgerAt(cfg, x, a + 1), y)
  {
    var z := x[..a + 1] + y;
    assert z[..|z|] == z;
    EndOfConcat([], ForNetwork(cfg.network), x[..a + 1], y);
  }

  /** Every output lost on the way back to the ancestor is created again by the suffix. */
  ghost predicate LossesRecreated(cfg: Config, s: ChainState, x: seq<Step>, a: nat, y: seq<Step>)
    requires a < |x|
  {
    forall c :: c in LedgerAt(cfg, x, a + 1).utxos && Lost(s.ledger, x, a + 1, c) ==> Recreated(StepBlocks(y), c)
  }

  /**
    A fast reorganisation on any chain of the protocol.  The new history is the old one up to the ancestor and the suffix
    as replay takes it, and headers, bodies, work and undo records are those of the new history.  The ledger is too,
    exactly when every output lost on the way back is created again by the suffix.
   */
  lemma {:induction false} ReorganisedExactly(cfg: Config, s: ChainState, x: seq<Step>, a: nat, suffix: seq<Block>, now: u64)
    requires LooseInv(cfg, s, x)
    requires FastReorganise(cfg, s, a, suffix, now).Success? && FastReorganise(cfg, s, a, suffix, now).value.Some?
    ensures a < |x| && StepsOf(cfg, OwnDisk, Compacts(x[..a + 1]), LedgerAt(cfg, x, a + 1), suffix).Success?
    ensures var after := FastReorganise(cfg, s, a, suffix, now).value.value;
            var y := StepsOf(cfg, OwnDisk, Compacts(x[..a + 1]), LedgerAt(cfg, x, a + 1), suffix).value;
            && LooseInv(cfg, after, x[..a + 1] + y)
            && (Inv(cfg, after, x[..a + 1] + y) <==> LossesRecreated(cfg, s, x, a, y))
  {
    hide Inv, LooseInv, PrepareSuffixTrial, FinishSuffix, SpliceSuffix, History, StepsOf, LedgerAt, Compacts, LooseTrial, LooseReorg, Lost,
         Recreated, UndoWork, Missing, StepBlocks, EndLedger, Within;
    LooseFacts(cfg, s, x);
    LoosePrepare(cfg, s, x, a);
    var t := PrepareSuffixTrial(cfg, s, a).value;
    LooseFinish(cfg, t, x, a, suffix, now);
    var r := FinishSuffix(cfg, t, suffix, now).value.value;
    var y := StepsOf(cfg, OwnDisk, Compacts(x[..a + 1]), LedgerAt(cfg, x, a + 1), suffix).value;
    LooseSplice(cfg, s, x, r, x, a, y);
    var after := SpliceSuffix(cfg, s, r).value;
    JoinLedger(cfg, x, a, y);
    InvIsLoose(cfg, after, x[..a + 1] + y);
    LooseParts(cfg, after, x[..a + 1] + y);
    var l, end := LedgerAt(cfg, x, a + 1), EndLedger(LedgerAt(cfg, x, a + 1), y);
    NothingMissing(after.ledger, end);
    forall c ensures Missing(after.ledger, end, c) <==> c in l.utxos && Lost(s.ledger, x, a + 1, c) && !Recreated(StepBlocks(y), c) {
      assert after.ledger == r.ledger;
      assert Missing(t.trial.ledger, l, c) <==> c in l.utxos && Lost(s.ledger, x, a + 1, c);
      assert Missing(r.ledger, end, c) <==> Missing(t.trial.ledger, l, c) && !Recreated(StepBlocks(y), c);
    }
  }

  lemma {:induction false} NothingMissing(w: Ledger, l: Ledger)
    requires Within(w, l)
    ensures w == l <==> forall c :: !Missing(w, l, c)
  {
    WithinAll(w, l);
    if forall c :: !Missing(w, l, c) {
      forall c | c in l.utxos ensures c in w.utxos {
        assert !Missing(w, l, c);
      }
    }
  }

  // ------------------------------------------------------------- headers --

  /** Cumulative work, by the headers. */
  function HeaderWork(hs: Headers): nat {
    if hs == [] then 0 else HeaderWork(hs[..|hs| - 1]) + Work(hs[|hs| - 1].difficulty)
  }

  /** Heights are indices, every header names the one before, back to genesis, and the pins in reach are met. */
  ghost predicate Linked(cfg: Config, hs: Headers) {
    forall i :: 0 <= i < |hs| ==> LinkedAt(cfg, hs, i)
  }

  ghost predicate LinkedAt(cfg: Config, hs: Headers, i: nat)
    requires i < |hs|
  {
    && hs[i].height == i
    && hs[i].prevHash == (if i == 0 then GenesisHash(cfg.network) else hs[i - 1].hash)
    && (CheckpointAt(cfg.checkpoints, i).Some? ==> hs[i].hash == CheckpointAt(cfg.checkpoints, i).value)
  }

  /** What holds of a chain's fields whatever bodies it was given: links, pins, work, and the undo window. */
  ghost predicate HeadersOk(cfg: Config, s: ChainState) {
    && Linked(cfg, s.headers)
    && s.totalWork == HeaderWork(s.headers)
    && s.firstHeight + |s.blocks| == |s.headers|
    && (forall i :: 0 <= i < |s.blocks| ==> Compact(s.blocks[i]) == s.headers[s.firstHeight + i])
    && s.horizonWork == HeaderWork(s.headers[..s.firstHeight])
    && |s.undos| <= MAX_REORG_DEPTH && |s.undos| <= |s.headers|
    && forall i :: 0 <= i < |s.undos| ==> s.undos[i].work == Work(s.headers[|s.headers| - |s.undos| + i].difficulty)
  }

  lemma {:induction false} WorkByHeaders(cfg: Config, x: seq<Step>)
    requires History(cfg, x)
    ensures UndoWork(Undos(x)) == HeaderWork(Compacts(x))
  {
    hide ApplyStateOnly, CaptureUndo, Subsidy, Normal, CheckpointAt, History;
    if x != [] {
      var n := |x| - 1;
      HistoryPrefix(cfg, x, n);
      WorkByHeaders(cfg, x[..n]);
      HistoryLinks(cfg, x, n);
      assert Undos(x)[..n] == Undos(x[..n]) && Compacts(x)[..n] == Compacts(x[..n]);
    }
  }

  lemma {:induction false} LinksOf(cfg: Config, x: seq<Step>)
    requires History(cfg, x)
    ensures Linked(cfg, Compacts(x))
    ensures |Undos(x)| == |x| && forall i :: 0 <= i < |x| ==> Undos(x)[i].work == Work(Compacts(x)[i].difficulty)
  {
    hide ApplyStateOnly, CaptureUndo, Subsidy, Normal, CheckpointAt, History, LedgerAt;
    var hs, us := Compacts(x), Undos(x);
    assert |hs| == |x| && |us| == |x|;
    forall i | 0 <= i < |x| ensures us[i].work == Work(hs[i].difficulty) {
      HistoryLinks(cfg, x, i);
    }
    forall i | 0 <= i < |hs| ensures LinkedAt(cfg, hs, i) {
      HistoryLinks(cfg, x, i);
    }
  }

  lemma {:induction false} WindowHeaders(cfg: Config, s: ChainState, x: seq<Step>)
    requires History(cfg, x) && Window(cfg, s, x) && TailUndos(s.undos, x)
    ensures s.firstHeight + |s.blocks| == |x|
    ensures forall i :: 0 <= i < |s.blocks| ==> Compact(s.blocks[i]) == Compacts(x)[s.firstHeight + i]
    ensures s.horizonWork == HeaderWork(Compacts(x)[..s.firstHeight])
    ensures |s.undos| <= MAX_REORG_DEPTH && |s.undos| <= |x|
    ensures forall i :: 0 <= i < |s.undos| ==> s.undos[i] == Undos(x)[|x| - |s.undos| + i]
  {
    hide History, UndoWork, HeaderWork, LedgerAt, Work;
    var f := s.firstHeight;
    HistoryPrefix(cfg, x, f);
    WorkByHeaders(cfg, x[..f]);
    assert Compacts(x)[..f] == Compacts(x[..f]);
  }

  lemma {:induction false} LooseHeaders(cfg: Config, s: ChainState, x: seq<Step>)
    requires LooseInv(cfg, s, x)
    ensures HeadersOk(cfg, s)
  {
    hide Linked, History, UndoWork, HeaderWork, Within, LooseInv, LedgerAt, Window, TailUndos, Work, Compact;
    LooseFacts(cfg, s, x);
    WorkByHeaders(cfg, x);
    LinksOf(cfg, x);
    WindowHeaders(cfg, s, x);
    assert |Compacts(x)| == |x| && |Undos(x)| == |x|;
    forall i | 0 <= i < |s.undos| ensures s.undos[i].work == Work(s.headers[|s.headers| - |s.undos| + i].difficulty) {
      assert s.undos[i] == Undos(x)[|x| - |s.undos| + i];
    }
  }
}
