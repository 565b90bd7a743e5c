/**
  How a node comes to lose an output.  A candidate made of the node's own headers may carry, in a body taken on trust, an
  output that creates an unspent commitment again; a later body spends it, so that the roots at the end of the trusted
  part match.  The candidate is returned, and taking its blocks back loses the output.
 */
module LostOutputs {
  import opened Wrappers
  import opened Words
  import opened Curve
  import opened Utxos
  import opened Transactions
  import opened Ledgers
  import opened LedgerProofs
  import opened Blocks
  import opened Consensus
  import opened StepProofs
  import opened ChainInvariant
  import opened FastReorg
  import opened ForkChoice
  import opened Agreement
  import opened Drift
  import opened Attestation

  /** The block with one more output. */
  function Recreating(b: Block, o: Output): Block {
    b.(body := b.body.(outputs := b.body.outputs + [o]))
  }

  /** The ledger with another entry for c. */
  function Overwritten(l: Ledger, c: Bytes32, entry: Utxo): Ledger {
    l.(utxos := l.utxos[c := entry])
  }

  lemma {:induction false} RecreatingNormal(cfg: Config, b: Block, o: Output)
    ensures Normal(cfg, Recreating(b, o)) == Recreating(Normal(cfg, b), o)
  {
    hide StripInputs, StripKernels;
  }

  lemma {:induction false} RecreatingReplays(l: Ledger, b: Body, o: Output, height: nat, subsidy: u64)
    requires ApplyStateOnly(l, b, height, subsidy).Success?
    ensures var c := b.(outputs := b.outputs + [o]);
            && CaptureUndo(l, c).Success?
            && ApplyStateOnly(l, c, height, subsidy)
               == Success(Overwritten(ApplyStateOnly(l, b, height, subsidy).value, o.commit, Utxo(o.outputPk, height, o.coinbase)))
  {
    hide CheckSpends, CoinbaseKernels, TotalFee, DecodeOffset, NextSupply, Sum, ToSet;
    var c := b.(outputs := b.outputs + [o]);
    assert c.outputs[..|b.outputs|] == b.outputs;
    assert InputCommits(c) == InputCommits(b) && Excesses(c) == Excesses(b);
    forall offset ensures NextKernelSum(l, c, offset) == NextKernelSum(l, b, offset) {
    }
  }

  lemma {:induction false} SpendsByKeys(inputs: seq<Input>, spent: set<Bytes32>, a: Entries, b: Entries)
    requires a.Keys == b.Keys
    ensures CheckSpends(inputs, spent, a) == CheckSpends(inputs, spent, b)
  {
    if inputs != [] {
      SpendsByKeys(inputs[1..], spent + {inputs[0].commit}, a, b);
    }
  }

  lemma {:induction false} SameWithout(utxos: Entries, gone: set<Bytes32>, c: Bytes32, entry: Utxo)
    requires c in gone
    ensures utxos[c := entry] - gone == utxos - gone
  {
  }

  /** The block that spends c leaves the same ledger whatever the entry for c was. */
  lemma {:induction false} SpendingForgets(l: Ledger, b: Body, height: nat, subsidy: u64, c: Bytes32, entry: Utxo)
    requires c in l.utxos && Spends(b.inputs, c) && ApplyStateOnly(l, b, height, subsidy).Success?
    ensures CaptureUndo(Overwritten(l, c, entry), b).Success?
    ensures ApplyStateOnly(Overwritten(l, c, entry), b, height, subsidy) == ApplyStateOnly(l, b, height, subsidy)
  {
    hide CheckSpends, CoinbaseKernels, TotalFee, DecodeOffset, Sum, InputCommits, Excesses, ToSet, InsertOutputs, Spends;
    var w := Overwritten(l, c, entry);
    assert w.utxos.Keys == l.utxos.Keys;
    SpendsByKeys(b.inputs, {}, w.utxos, l.utxos);
    CommitSets(b);
    assert c in ToSet(InputCommits(b));
    SameWithout(l.utxos, ToSet(InputCommits(b)), c, entry);
    forall offset ensures NextKernelSum(w, b, offset) == NextKernelSum(l, b, offset) {
    }
    assert NextSupply(w, TotalFee(b.kernels), subsidy) == NextSupply(l, TotalFee(b.kernels), subsidy);
  }

  // ------------------------------------------------------------- the run --

  ghost function EntryOf(o: Output, height: nat): Utxo {
    Utxo(o.outputPk, height, o.coinbase)
  }

  /** The step of block m when it creates o as well. */
  ghost function RecreatingStep(cfg: Config, x: seq<Step>, m: nat, o: Output): Step
    requires m < |x|
  {
    var b := Recreating(x[m].block, o);
    var undo := CaptureUndo(LedgerAt(cfg, x, m), b.body);
    Step(b, Overwritten(x[m].ledger, o.commit, EntryOf(o, m)), TipUndo(x[m].undo.work, if undo.Success? then undo.value else x[m].undo.state))
  }

  /** The step of the block after it. */
  ghost function SpendingStep(cfg: Config, x: seq<Step>, q: nat, o: Output): Step
    requires 0 < q < |x|
  {
    var undo := CaptureUndo(RecreatingStep(cfg, x, q - 1, o).ledger, x[q].block.body);
    x[q].(undo := TipUndo(x[q].undo.work, if undo.Success? then undo.value else x[q].undo.state))
  }

  ghost function TamperedSteps(cfg: Config, x: seq<Step>, q: nat, o: Output): seq<Step>
    requires 0 < q < |x|
  {
    x[..q - 1] + [RecreatingStep(cfg, x, q - 1, o), SpendingStep(cfg, x, q, o)] + x[q + 1..]
  }

  /** Block q spends an output that was unspent before block q - 1, which does not spend it. */
  ghost predicate SpentAt(cfg: Config, x: seq<Step>, q: nat, c: Bytes32)
    requires 0 < q < |x|
  {
    c in LedgerAt(cfg, x, q - 1).utxos && !Spends(x[q - 1].block.body.inputs, c) && Spends(x[q].block.body.inputs, c)
  }

  lemma {:induction false} RecreatingTrusted(cfg: Config, x: seq<Step>, m: nat, o: Output)
    requires History(cfg, x) && m < |x|
    ensures Trust(cfg, Compacts(x[..m]), LedgerAt(cfg, x, m), Recreating(x[m].block, o)) == Success(RecreatingStep(cfg, x, m, o))
  {
    hide History, CheckLink, CaptureUndo, ApplyStateOnly, Subsidy, Normal, LedgerAt, CheckpointAt;
    var l, b := LedgerAt(cfg, x, m), x[m].block;
    HistoryLinks(cfg, x, m);
    ReplayOne(cfg, x, m);
    RecreatingNormal(cfg, b, o);
    TrustSteps(cfg, Compacts(x[..m]), l, b);
    TrustSteps(cfg, Compacts(x[..m]), l, Recreating(b, o));
    LinkByHeader(cfg, Compacts(x[..m]), b, Recreating(b, o));
    RecreatingReplays(l, b.body, o, m, Subsidy(l, m));
  }

  lemma {:induction false} SpendingTrusted(cfg: Config, x: seq<Step>, q: nat, o: Output)
    requires History(cfg, x) && 0 < q < |x| && SpentAt(cfg, x, q, o.commit)
    ensures Trust(cfg, Compacts(x[..q]), RecreatingStep(cfg, x, q - 1, o).ledger, x[q].block) == Success(SpendingStep(cfg, x, q, o))
  {
    hide History, CheckLink, CaptureUndo, ApplyStateOnly, Normal, LedgerAt, CheckpointAt, Spends;
    var l, w, b := LedgerAt(cfg, x, q), RecreatingStep(cfg, x, q - 1, o).ledger, x[q].block;
    HistoryLinks(cfg, x, q);
    HistoryLinks(cfg, x, q - 1);
    ReplayOne(cfg, x, q);
    LedgerAfter(cfg, x, q - 1);
    var before := LedgerAt(cfg, x, q - 1);
    Survives(before, x[q - 1].block.body, q - 1, Subsidy(before, q - 1), o.commit);
    TrustSteps(cfg, Compacts(x[..q]), l, b);
    TrustSteps(cfg, Compacts(x[..q]), w, b);
    SpendingForgets(l, b.body, q, Subsidy(l, q), o.commit, EntryOf(o, q - 1));
  }

  lemma {:induction false} TamperedHeaders(cfg: Config, x: seq<Step>, q: nat, o: Output)
    requires 0 < q < |x|
    ensures var s, t := RecreatingStep(cfg, x, q - 1, o), SpendingStep(cfg, x, q, o);
            && s.block == Recreating(x[q - 1].block, o) && s.block.header == x[q - 1].block.header && s.undo.work == x[q - 1].undo.work
            && t.block == x[q].block && t.undo.work == x[q].undo.work && t.ledger == x[q].ledger
            && Compacts(x[..q - 1] + [s]) == Compacts(x[..q])
            && Compacts((x[..q - 1] + [s]) + [t]) == Compacts(x[..q + 1])
  {
    hide LedgerAt, CaptureUndo;
  }

  /** Up to block q the offered bodies replay. */
  lemma {:induction false} TamperedStart(cfg: Config, x: seq<Step>, q: nat, o: Output)
    requires History(cfg, x) && 0 < q < |x| && SpentAt(cfg, x, q, o.commit)
    ensures StepsOf(cfg, OwnDisk, [], ForNetwork(cfg.network), (StepBlocks(x[..q - 1]) + [Recreating(x[q - 1].block, o)]) + [x[q].block])
            == Success((x[..q - 1] + [RecreatingStep(cfg, x, q - 1, o)]) + [SpendingStep(cfg, x, q, o)])
  {
    hide History, StepsOf, Trust, LedgerAt, Recreating, SpentAt, RecreatingStep, SpendingStep, Compacts, ForNetwork;
    var m, g := q - 1, ForNetwork(cfg.network);
    var s := RecreatingStep(cfg, x, m, o);
    var a, b1, b2 := StepBlocks(x[..m]), Recreating(x[m].block, o), x[q].block;
    GenesisAt(cfg, x);
    NothingYet();
    assert x[0..m] == x[..m] && x[..0] == [];
    ReplayOf(cfg, x, 0, m);
    TamperedHeaders(cfg, x, q, o);
    StepsSnoc(cfg, OwnDisk, [], g, a, b1);
    RecreatingTrusted(cfg, x, m, o);
    EndsAt(cfg, x, m);
    StepsSnoc(cfg, OwnDisk, [], g, a + [b1], b2);
    SpendingTrusted(cfg, x, q, o);
    assert [] + Compacts(x[..m] + [s]) == Compacts(x[..q]);
  }

  /** The offered bodies replay, to the same headers and the same ledger at the end. */
  lemma {:induction false} TamperedRun(cfg: Config, x: seq<Step>, q: nat, o: Output)
    requires History(cfg, x) && 0 < q < |x| && SpentAt(cfg, x, q, o.commit)
    ensures StepsOf(cfg, OwnDisk, [], ForNetwork(cfg.network), StepBlocks(x)[q - 1 := Recreating(x[q - 1].block, o)])
            == Success(TamperedSteps(cfg, x, q, o))
    ensures SameChainOf(cfg, x, TamperedSteps(cfg, x, q, o))
  {
    hide History, StepsOf, Trust, LedgerAt, Recreating, SpentAt, RecreatingStep, SpendingStep, ForNetwork, SameChainOf, Compacts;
    var m, g := q - 1, ForNetwork(cfg.network);
    var s, t := RecreatingStep(cfg, x, m, o), SpendingStep(cfg, x, q, o);
    var start, rest := (StepBlocks(x[..m]) + [Recreating(x[m].block, o)]) + [x[q].block], StepBlocks(x[q + 1..]);
    assert StepBlocks(x)[m := Recreating(x[m].block, o)] == start + rest;
    TamperedStart(cfg, x, q, o);
    TamperedHeaders(cfg, x, q, o);
    StepsConcat(cfg, OwnDisk, [], g, start, rest);
    var two := (x[..m] + [s]) + [t];
    assert [] + Compacts(two) == Compacts(x[..q + 1]);
    LedgerAfter(cfg, x, q);
    assert x[q + 1..|x|] == x[q + 1..];
    ReplayOf(cfg, x, q + 1, |x|);
    assert TamperedSteps(cfg, x, q, o) == two + x[q + 1..];
    SameEnds(cfg, x, q, s, t);
  }

  lemma {:induction false} GenesisAt(cfg: Config, x: seq<Step>)
    ensures LedgerAt(cfg, x, 0) == ForNetwork(cfg.network)
  {
    assert x[..0] == [];
  }

  lemma {:induction false} EndsAt(cfg: Config, x: seq<Step>, m: nat)
    requires m <= |x|
    ensures EndLedger(ForNetwork(cfg.network), x[..m]) == LedgerAt(cfg, x, m) && [] + Compacts(x[..m]) == Compacts(x[..m])
  {
  }

  /** The same headers and the same work, and the same ledger at the end. */
  ghost predicate SameChainOf(cfg: Config, x: seq<Step>, z: seq<Step>) {
    && |z| == |x|
    && (forall k :: 0 <= k < |x| ==> z[k].block.header == x[k].block.header && z[k].undo.work == x[k].undo.work)
    && LedgerAt(cfg, z, |z|) == LedgerAt(cfg, x, |x|)
  }

  lemma {:induction false} SameEnds(cfg: Config, x: seq<Step>, q: nat, s: Step, t: Step)
    requires 0 < q < |x|
    requires s.block.header == x[q - 1].block.header && s.undo.work == x[q - 1].undo.work
    requires t.block.header == x[q].block.header && t.undo.work == x[q].undo.work && t.ledger == x[q].ledger
    ensures SameChainOf(cfg, x, x[..q - 1] + [s, t] + x[q + 1..])
  {
    var z := x[..q - 1] + [s, t] + x[q + 1..];
    EndsWith(cfg, x);
    EndsWith(cfg, z);
  }

  // ------------------------------------------- other bodies, same headers --

  lemma {:induction false} WorkByHeader(a: seq<Block>, b: seq<Block>)
    requires |a| == |b| && forall i :: 0 <= i < |a| ==> a[i].header == b[i].header
    ensures WorkOf(a) == WorkOf(b)
  {
    if a != [] {
      WorkByHeader(a[..|a| - 1], b[..|b| - 1]);
    }
  }

  lemma {:induction false} CommonByHeader(hashes: seq<Hash>, a: seq<Block>, b: seq<Block>)
    requires |a| == |b| && forall i :: 0 <= i < |a| ==> a[i].header == b[i].header
    ensures CommonPrefix(hashes, a) == CommonPrefix(hashes, b)
    decreases |a|
  {
    if hashes != [] && a != [] && HashOf(a[0]) == hashes[0] {
      CommonByHeader(hashes[1..], a[1..], b[1..]);
    }
  }

  /** A trusted run that ends in its own roots, and one accepted block on top. */
  lemma {:induction false} TrustedThenOne(cfg: Config, x: seq<Step>, z: seq<Step>, blocks: seq<Block>, b: Block, now: u64)
    requires x != [] && SameChainOf(cfg, x, z) && PrefixRoots(x).Pass?
    requires StepsOf(cfg, OwnDisk, [], ForNetwork(cfg.network), blocks) == Success(z) && |blocks| == |x|
    requires Accept(cfg, Compacts(x), LedgerAt(cfg, x, |x|), b, now, true).Success?
    ensures RebuiltSteps(cfg, [], ForNetwork(cfg.network), blocks + [b], |blocks|, now)
            == Success(z + [Accept(cfg, Compacts(x), LedgerAt(cfg, x, |x|), b, now, true).value])
  {
    hide Accept, StepsOf, RootsMatch, ForNetwork;
    var all := blocks + [b];
    assert all[..|blocks|] == blocks && all[|blocks|..] == [b];
    EndsWith(cfg, x);
    EndsWith(cfg, z);
    assert [] + Compacts(z) == Compacts(x);
    assert PrefixRoots(z).Pass?;
    assert z[..|z|] == z;
    OneStep(cfg, Compacts(x), LedgerAt(cfg, x, |x|), b, now);
  }

  lemma {:induction false} SameFields(cfg: Config, x: seq<Step>, z: seq<Step>, last: Step)
    requires SameChainOf(cfg, x, z)
    ensures var c, d := ArchiveOf(cfg, x + [last]), ArchiveOf(cfg, z + [last]);
            c.headers == d.headers && c.ledger == d.ledger && c.totalWork == d.totalWork
  {
    hide PushAll, UndoWork, ForNetwork, LedgerAt;
    PushAllFields(NewFair(cfg), x + [last]);
    PushAllFields(NewFair(cfg), z + [last]);
    var c, d := ArchiveOf(cfg, x + [last]), ArchiveOf(cfg, z + [last]);
    assert Compacts(x + [last]) == Compacts(z + [last]);
    assert c.headers == d.headers;
    assert c.ledger == d.ledger;
    UndoWorkPointwise(Undos(x + [last]), Undos(z + [last]));
  }

  /** Our own headers with any bodies that replay to our ledger, and one more valid block, are returned. */
  lemma {:induction false} SameHeadersReturned(cfg: Config, x: seq<Step>, z: seq<Step>, blocks: seq<Block>, b: Block, now: u64)
    requires Verified(cfg, x) && x != [] && SameChainOf(cfg, x, z)
    requires |blocks| == |x| && forall i :: 0 <= i < |x| ==> blocks[i].header == x[i].block.header
    requires StepsOf(cfg, OwnDisk, [], ForNetwork(cfg.network), blocks) == Success(z)
    requires Accept(cfg, Compacts(x), LedgerAt(cfg, x, |x|), b, now, true).Success? && AssumeValidTo(cfg, |x| + 1) <= |x|
    ensures var last := Accept(cfg, Compacts(x), LedgerAt(cfg, x, |x|), b, now, true).value;
            && EvaluateReorg(cfg, UndoWork(Undos(x)), Hashes(Compacts(x)), None, blocks + [b], now) == Success(Some(ArchiveOf(cfg, z + [last])))
            && History(cfg, z + [last])
  {
    hide Accept, History, EvaluateReorg, AssumeValidTo, PushAll, Verified, CommonPrefix, RebuiltSteps, LedgerAt, UndoWork, Hashes,
         Compacts, WorkOf, VerifySupply, StepsOf, PrefixRoots, CheckedAt, Normal;
    var ours, own, all := Hashes(Compacts(x)), StepBlocks(x) + [b], blocks + [b];
    var last := Accept(cfg, Compacts(x), LedgerAt(cfg, x, |x|), b, now, true).value;
    assert forall i :: 0 <= i < |all| ==> all[i].header == own[i].header;
    OneBlockWins(cfg, x, b, now);
    OwnHashes(x, b);
    AdoptableSteps(cfg, UndoWork(Undos(x)), ours, None, own, now);
    AdoptableShape(cfg, UndoWork(Undos(x)), ours, None, own, now);
    WorkByHeader(all, own);
    CommonByHeader(ours, all, own);
    VerifiedIsHistory(cfg, x);
    VerifiedRoots(cfg, x, |x| - 1);
    assert x[..|x| - 1 + 1] == x;
    OwnRun(cfg, x);
    TrustedThenOne(cfg, x, x, StepBlocks(x), b, now);
    TrustedThenOne(cfg, x, z, blocks, b, now);
    SameFields(cfg, x, z, last);
    EvaluateSteps(cfg, UndoWork(Undos(x)), ours, None, all, now);
    NoHistory(cfg);
    GenesisAt(cfg, []);
    NothingYet();
    RebuiltHistory(cfg, [], all, |x|, now);
    assert [] + (z + [last]) == z + [last];
  }

  lemma {:induction false} NothingYet()
    ensures Compacts([]) == []
  {
  }

  lemma {:induction false} OwnRun(cfg: Config, x: seq<Step>)
    requires History(cfg, x)
    ensures StepsOf(cfg, OwnDisk, [], ForNetwork(cfg.network), StepBlocks(x)) == Success(x) && SameChainOf(cfg, x, x)
  {
    hide History, StepsOf, LedgerAt;
    GenesisAt(cfg, x);
    NothingYet();
    assert x[..0] == [] && x[0..|x|] == x;
    ReplayOf(cfg, x, 0, |x|);
  }

  // --------------------------------------------------------- the witness --

  /**
    The failing input.  Take a validated archive node on which block q spends an output c that was unspent before block
    q - 1, and offer it its own bodies, the one of block q - 1 creating c once more, and one more valid block.  The
    candidate is returned, and satisfies the invariant; but preparing a reorganisation below block q - 1 on it gives a ledger
    without c, where replay gives one that has it.
   */
  lemma {:induction false} RecreatedIsLost(cfg: Config, x: seq<Step>, q: nat, o: Output, b: Block, now: u64)
    requires Verified(cfg, x) && 2 <= q < |x| && |x| + 2 - q <= MAX_REORG_DEPTH && SpentAt(cfg, x, q, o.commit)
    requires Accept(cfg, Compacts(x), LedgerAt(cfg, x, |x|), b, now, true).Success? && AssumeValidTo(cfg, |x| + 1) <= |x|
    ensures var offered := StepBlocks(x)[q - 1 := Recreating(x[q - 1].block, o)] + [b];
            var z := TamperedSteps(cfg, x, q, o) + [Accept(cfg, Compacts(x), LedgerAt(cfg, x, |x|), b, now, true).value];
            var c := ArchiveOf(cfg, z);
            && EvaluateReorg(cfg, UndoWork(Undos(x)), Hashes(Compacts(x)), None, offered, now) == Success(Some(c))
            && Inv(cfg, c, z) && PrepareSuffixTrial(cfg, c, q - 2).Success?
            && o.commit in LedgerAt(cfg, z, q - 1).utxos
            && o.commit !in PrepareSuffixTrial(cfg, c, q - 2).value.trial.ledger.utxos
            && PrepareSuffixTrial(cfg, c, q - 2).value != PreparedAt(cfg, z, q - 2)
  {
    hide Accept, History, EvaluateReorg, AssumeValidTo, PushAll, Verified, Inv, LedgerAt, UndoWork, Hashes, Compacts, PrepareSuffixTrial,
         StepsOf, TamperedSteps, SpentAt, SameChainOf, Undos, Newest, LooseTrial, Lost, Spends, Creates;
    VerifiedIsHistory(cfg, x);
    TamperedRun(cfg, x, q, o);
    var z0 := TamperedSteps(cfg, x, q, o);
    var blocks := StepBlocks(x)[q - 1 := Recreating(x[q - 1].block, o)];
    SameHeadersReturned(cfg, x, z0, blocks, b, now);
    var last := Accept(cfg, Compacts(x), LedgerAt(cfg, x, |x|), b, now, true).value;
    var z := z0 + [last];
    var c := ArchiveOf(cfg, z);
    ArchiveInv(cfg, z);
    TamperedAt(cfg, x, q, o, last);
    InvLedger(cfg, c, z);
    PrepareExact(cfg, c, z, q - 2);
    InvIsLoose(cfg, c, z);
    LoosePrepare(cfg, c, z, q - 2);
    LostThere(c.ledger, z, q - 1, o.commit);
    assert Missing(PrepareSuffixTrial(cfg, c, q - 2).value.trial.ledger, LedgerAt(cfg, z, q - 1), o.commit);
  }

  lemma {:induction false} LostThere(w: Ledger, z: seq<Step>, m: nat, c: Bytes32)
    requires m < |z| && !Spends(z[m].block.body.inputs, c) && Creates(z[m].block.body.outputs, c)
    ensures Lost(w, z, m, c)
  {
  }

  lemma {:induction false} TamperedAt(cfg: Config, x: seq<Step>, q: nat, o: Output, last: Step)
    requires 2 <= q < |x| && |x| + 2 - q <= MAX_REORG_DEPTH && SpentAt(cfg, x, q, o.commit)
    ensures var z := TamperedSteps(cfg, x, q, o) + [last];
            && |z| == |x| + 1 && o.commit in LedgerAt(cfg, z, q - 1).utxos
            && z[q - 1].block == Recreating(x[q - 1].block, o) && Creates(z[q - 1].block.body.outputs, o.commit)
            && !Spends(z[q - 1].block.body.inputs, o.commit)
            && |Newest(Undos(z))| >= |x| + 2 - q
  {
    hide Spends;
    var z := TamperedSteps(cfg, x, q, o) + [last];
    assert z[..q - 1] == x[..q - 1];
    var outputs := z[q - 1].block.body.outputs;
    assert outputs[|outputs| - 1] == o;
  }
}
