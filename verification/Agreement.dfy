/**
  What a header hash settles: the headers below it, the network, and on validated chains everything
  else; and what a pinned hash therefore settles for every node that reaches it.
 */
module Agreement {
  import opened Wrappers
  import opened Words
  import opened Curve
  import opened Utxos
  import opened Transactions
  import opened Ledgers
  import opened LedgerProofs
  import opened Blocks
  import opened Consensus
  import opened StepProofs
  import opened ChainInvariant
  import opened FastReorg
  import opened ForkChoice

  /** Two histories with one hash at a height have the same headers up to it, back to the same genesis. */
  lemma {:induction false} HashSettlesHeaders(cfg: Config, other: Config, x: seq<Step>, y: seq<Step>, i: nat, j: nat)
    requires History(cfg, x) && History(other, y) && i < |x| && j < |y|
    requires HashOf(x[i].block) == HashOf(y[j].block)
    ensures i == j && cfg.network == other.network
    ensures forall k :: 0 <= k <= i ==> x[k].block.header == y[k].block.header
    decreases i
  {
    hide History, CaptureUndo, ApplyStateOnly, Subsidy, Normal, LedgerAt, CheckpointAt, Work;
    HistoryLinks(cfg, x, i);
    HistoryLinks(other, y, j);
    if i > 0 {
      HashSettlesHeaders(cfg, other, x, y, i - 1, j - 1);
    }
  }

  /** Equal tip hashes: equal header chains. */
  lemma {:induction false} TipSettlesHeaders(cfg: Config, x: seq<Step>, y: seq<Step>)
    requires History(cfg, x) && History(cfg, y) && TipHash(cfg, Compacts(x)) == TipHash(cfg, Compacts(y))
    ensures Compacts(x) == Compacts(y)
  {
    hide History;
    TipOf(cfg, x);
    TipOf(cfg, y);
    if x != [] && y != [] {
      HashSettlesHeaders(cfg, cfg, x, y, |x| - 1, |y| - 1);
    }
  }

  lemma {:induction false} TipOf(cfg: Config, x: seq<Step>)
    ensures TipHash(cfg, Compacts(x)) == if x == [] then GenesisHash(cfg.network) else HashOf(x[|x| - 1].block)
  {
  }

  /** A validated body is the one its header commits to. */
  lemma {:induction false} CheckedBody(cfg: Config, x: seq<Step>, i: nat)
    requires i < |x| && CheckedAt(cfg, x, i)
    ensures RootOfBody(x[i].block.body) == x[i].block.header.bodyRoot
  {
    hide Accept, RootOfBody, Normal, CheckHeader, CaptureUndo, Apply, Subsidy, RootsMatch;
    var now: u64 :| AcceptedAt(cfg, x, i, now);
    AcceptSteps(cfg, Compacts(x[..i]), LedgerAt(cfg, x, i), x[i].block, now, true);
  }

  lemma {:induction false} CheckedOf(cfg: Config, x: seq<Step>, i: nat)
    requires Verified(cfg, x) && i < |x|
    ensures StepAt(cfg, x, i) && RootOfBody(x[i].block.body) == x[i].block.header.bodyRoot
  {
    hide StepAt, CheckedAt, RootOfBody, Trust;
    CheckedFacts(cfg, x, i);
    CheckedBody(cfg, x, i);
  }

  // ------------------------------------------- what the body hash settles --

  /** An absent offset and an explicit zero hash alike, and decode alike. */
  lemma {:induction false} HashedKeepsState(b: Body)
    ensures StripBinding(Hashed(b)) == StripBinding(b)
    ensures DecodeOffset(Hashed(b).kernelOffset) == DecodeOffset(b.kernelOffset)
  {
    assert StripInputs(Hashed(b).inputs) == StripInputs(b.inputs);
    assert StripKernels(Hashed(b).kernels) == StripKernels(b.kernels);
  }

  lemma {:induction false} EntriesByCommit(l: Ledger, a: seq<Input>, b: seq<Input>)
    requires |a| == |b| && forall i :: 0 <= i < |a| ==> a[i].commit == b[i].commit && a[i].commit in l.utxos
    ensures SpentEntries(l, a) == SpentEntries(l, b)
  {
    if a != [] {
      EntriesByCommit(l, a[1..], b[1..]);
    }
  }

  lemma {:induction false} RootSettlesParts(a: Body, b: Body)
    requires RootOfBody(a) == RootOfBody(b)
    ensures InputCommits(a) == InputCommits(b) && a.outputs == b.outputs && Excesses(a) == Excesses(b)
    ensures |a.kernels| == |b.kernels| && TotalFee(a.kernels) == TotalFee(b.kernels)
    ensures CoinbaseKernels(a.kernels) == CoinbaseKernels(b.kernels)
    ensures DecodeOffset(a.kernelOffset) == DecodeOffset(b.kernelOffset)
  {
    hide InputCommits, Excesses, TotalFee, CoinbaseKernels, DecodeOffset, StripBinding, Hashed, HasAnyBinding;
    HashedKeepsState(a);
    HashedKeepsState(b);
    StripKeepsState(a);
    StripKeepsState(b);
  }

  lemma {:induction false} CommitsPointwise(a: Body, b: Body)
    requires InputCommits(a) == InputCommits(b)
    ensures |a.inputs| == |b.inputs| && forall i :: 0 <= i < |a.inputs| ==> a.inputs[i].commit == b.inputs[i].commit
  {
    assert |InputCommits(a)| == |a.inputs| && |InputCommits(b)| == |b.inputs|;
    forall i | 0 <= i < |a.inputs| ensures a.inputs[i].commit == b.inputs[i].commit {
      assert InputCommits(a)[i] == InputCommits(b)[i];
    }
  }

  /** Bodies with one root replay to the same ledger and leave the same undo record. */
  lemma {:induction false} RootSettlesState(l: Ledger, a: Body, b: Body, height: nat, subsidy: u64)
    requires RootOfBody(a) == RootOfBody(b)
    ensures CaptureUndo(l, a) == CaptureUndo(l, b)
    ensures ApplyStateOnly(l, a, height, subsidy).Success? && ApplyStateOnly(l, b, height, subsidy).Success? ==>
              ApplyStateOnly(l, a, height, subsidy) == ApplyStateOnly(l, b, height, subsidy)
  {
    hide RootOfBody, InputCommits, Excesses, TotalFee, CoinbaseKernels, DecodeOffset, CheckSpends, Commit, NextKernelSum, NextSupply,
         SpentEntries;
    RootSettlesParts(a, b);
    CommitsPointwise(a, b);
    SpendsByCommit(a.inputs, b.inputs, {}, l.utxos);
    if CheckSpends(a.inputs, {}, l.utxos).Pass? {
      SpendsPresent(a.inputs, {}, l.utxos);
      EntriesByCommit(l, a.inputs, b.inputs);
    }
    SumByExcesses(l, a, b);
    forall sum, supply ensures Commit(l, a, height, sum, supply) == Commit(l, b, height, sum, supply) {
      CommitByParts(l, a, b, height, sum, supply);
    }
  }

  lemma {:induction false} SumByExcesses(l: Ledger, a: Body, b: Body)
    requires Excesses(a) == Excesses(b)
    ensures forall offset :: NextKernelSum(l, a, offset) == NextKernelSum(l, b, offset)
  {
    hide Excesses, Sum, Plus, TimesH;
  }

  /** Blocks with one header and one body root, in order from genesis, leave one ledger and one undo record each. */
  lemma {:induction false} BodiesSettleState(cfg: Config, x: seq<Step>, y: seq<Step>, n: nat)
    requires History(cfg, x) && History(cfg, y) && n <= |x| && n <= |y|
    requires forall k :: 0 <= k < n ==>
               x[k].block.header == y[k].block.header && RootOfBody(x[k].block.body) == RootOfBody(y[k].block.body)
    ensures forall k :: 0 <= k < n ==> x[k].ledger == y[k].ledger && x[k].undo == y[k].undo
    ensures LedgerAt(cfg, x, n) == LedgerAt(cfg, y, n)
    decreases n
  {
    hide RootOfBody, ApplyStateOnly, CaptureUndo, Subsidy, History, Normal, CheckpointAt;
    if n > 0 {
      var k := n - 1;
      BodiesSettleState(cfg, x, y, k);
      HistoryLinks(cfg, x, k);
      HistoryLinks(cfg, y, k);
      var l := LedgerAt(cfg, x, k);
      RootSettlesState(l, x[k].block.body, y[k].block.body, k, Subsidy(l, k));
    } else {
      assert x[..0] == [] && y[..0] == [];
    }
  }

  /** Headers settle the ledgers and the undo records of validated blocks. */
  lemma {:induction false} HeadersSettleState(cfg: Config, x: seq<Step>, y: seq<Step>, n: nat)
    requires Verified(cfg, x) && Verified(cfg, y) && n <= |x| && n <= |y|
    requires forall k :: 0 <= k < n ==> x[k].block.header == y[k].block.header
    ensures forall k :: 0 <= k < n ==>
              && x[k].ledger == y[k].ledger && x[k].undo == y[k].undo
              && RootOfBody(x[k].block.body) == RootOfBody(y[k].block.body)
    ensures LedgerAt(cfg, x, n) == LedgerAt(cfg, y, n)
  {
    hide CheckedAt, Verified, RootOfBody, History, LedgerAt;
    VerifiedIsHistory(cfg, x);
    VerifiedIsHistory(cfg, y);
    forall k | 0 <= k < n ensures RootOfBody(x[k].block.body) == RootOfBody(y[k].block.body) {
      CheckedOf(cfg, x, k);
      CheckedOf(cfg, y, k);
    }
    BodiesSettleState(cfg, x, y, n);
  }

  /**
    Two chains of validated blocks with one tip hash have the same headers, the same ledger after every block
    and the same undo records.  Their bodies agree but for absent fields written as zeros.
   */
  lemma {:induction false} TipSettlesState(cfg: Config, x: seq<Step>, y: seq<Step>)
    requires Verified(cfg, x) && Verified(cfg, y) && TipHash(cfg, Compacts(x)) == TipHash(cfg, Compacts(y))
    ensures |x| == |y|
    ensures forall k :: 0 <= k < |x| ==>
              && x[k].block.header == y[k].block.header && x[k].ledger == y[k].ledger && x[k].undo == y[k].undo
              && RootOfBody(x[k].block.body) == RootOfBody(y[k].block.body)
  {
    hide Verified, History, RootOfBody, TipHash, LedgerAt;
    VerifiedIsHistory(cfg, x);
    VerifiedIsHistory(cfg, y);
    TipSettlesHeaders(cfg, x, y);
    SameHeaders(x, y);
    HeadersSettleState(cfg, x, y, |x|);
  }

  lemma {:induction false} SameHeaders(x: seq<Step>, y: seq<Step>)
    requires Compacts(x) == Compacts(y)
    ensures |x| == |y| && forall k :: 0 <= k < |x| ==> x[k].block.header == y[k].block.header
  {
    assert |Compacts(x)| == |x| && |Compacts(y)| == |y|;
    forall k | 0 <= k < |x| ensures x[k].block.header == y[k].block.header {
      assert Compacts(x)[k].hash == Compacts(y)[k].hash;
    }
  }

  lemma {:induction false} UndoWorkPointwise(u: seq<TipUndo>, v: seq<TipUndo>)
    requires |u| == |v| && forall i :: 0 <= i < |u| ==> u[i].work == v[i].work
    ensures UndoWork(u) == UndoWork(v)
  {
    if u != [] {
      UndoWorkPointwise(u[..|u| - 1], v[..|v| - 1]);
    }
  }

  /** Equal tip hashes: equal work. */
  lemma {:induction false} TipSettlesWork(cfg: Config, x: seq<Step>, y: seq<Step>)
    requires History(cfg, x) && History(cfg, y) && TipHash(cfg, Compacts(x)) == TipHash(cfg, Compacts(y))
    ensures UndoWork(Undos(x)) == UndoWork(Undos(y))
  {
    hide History, TipHash, ApplyStateOnly, CaptureUndo, Subsidy, Normal, CheckpointAt, UndoWork;
    TipSettlesHeaders(cfg, x, y);
    SameHeaders(x, y);
    forall i | 0 <= i < |x| ensures Undos(x)[i].work == Undos(y)[i].work {
      HistoryLinks(cfg, x, i);
      HistoryLinks(cfg, y, i);
    }
    UndoWorkPointwise(Undos(x), Undos(y));
  }

  // -------------------------------------------------------------- splice --

  lemma {:induction false} SpliceGuard(cfg: Config, s: ChainState, x: seq<Step>, origin: seq<Step>, a: nat, y: seq<Step>)
    requires Inv(cfg, s, x) && a < |origin| && SpliceSuffix(cfg, s, ReorgOf(cfg, origin, a, y)).Some?
    ensures TipHash(cfg, Compacts(origin)) == TipHash(cfg, Compacts(x))
  {
    hide History, Window, TailUndos, UndoWork, LedgerAt, TipHash, Newest, Undos, Compacts;
  }

  lemma {:induction false} WorkOfInv(cfg: Config, s: ChainState, x: seq<Step>)
    requires Inv(cfg, s, x)
    ensures s.totalWork == UndoWork(Undos(x)) && s.headers == Compacts(x)
  {
    hide History, Window, TailUndos, UndoWork;
  }

  /** Where work in flight came from: the history of now, or one with strictly less work. */
  ghost predicate Earlier(origin: seq<Step>, now: seq<Step>) {
    origin == now || UndoWork(Undos(origin)) < UndoWork(Undos(now))
  }

  /**
    A verified suffix that the tip guard lets through lands on the very history it was verified on: the tip
    hash fixes the work, and a chain that has moved since has strictly more.
   */
  lemma {:induction false} SpliceLands(cfg: Config, s: ChainState, x: seq<Step>, origin: seq<Step>, a: nat, y: seq<Step>)
    requires Inv(cfg, s, x) && History(cfg, origin) && a < |origin| && Earlier(origin, x)
    requires History(cfg, origin[..a + 1] + y) && SpliceSuffix(cfg, s, ReorgOf(cfg, origin, a, y)).Some?
    ensures origin == x
    ensures var r := SpliceSuffix(cfg, s, ReorgOf(cfg, origin, a, y)).value;
            && Inv(cfg, r, x[..a + 1] + y)
            && r.firstHeight == s.firstHeight && r.horizon == s.horizon && r.totalWork > s.totalWork
  {
    hide Inv, SpliceSuffix, ReorgOf, UndoWork, LedgerAt, History, TipHash;
    SpliceGuard(cfg, s, x, origin, a, y);
    InvLedger(cfg, s, x);
    TipSettlesWork(cfg, origin, x);
    SpliceExact(cfg, s, x, a, y);
    WorkOfInv(cfg, s, x);
    WorkOfInv(cfg, SpliceSuffix(cfg, s, ReorgOf(cfg, x, a, y)).value, x[..a + 1] + y);
  }

  // ---------------------------------------------------------------- pins --

  /**
    Pin agreement.  Any two chains that reach a pinned height, by whatever paths their blocks were
    accepted, have identical headers at every height up to it.  The pin is compared on every network,
    so a chain that reaches it is also on the one network whose genesis the pinned hash descends from.
   */
  lemma {:induction false} PinAgreement(cfg: Config, other: Config, x: seq<Step>, y: seq<Step>, pinned: nat)
    requires History(cfg, x) && History(other, y) && cfg.checkpoints == other.checkpoints
    requires CheckpointAt(cfg.checkpoints, pinned).Some? && pinned < |x| && pinned < |y|
    ensures cfg.network == other.network
    ensures forall k :: 0 <= k <= pinned ==> x[k].block.header == y[k].block.header
  {
    hide History;
    HistoryLinks(cfg, x, pinned);
    HistoryLinks(other, y, pinned);
    HashSettlesHeaders(cfg, other, x, y, pinned, pinned);
  }

  /** The network whose genesis a hash descends from. */
  function GenesisOf(h: Hash): Option<Network> {
    match h
    case GenesisHash(network) => Some(network)
    case BlockHash(header) => GenesisOf(header.prevHash)
    case _ => None
  }

  /** Every block of a history descends from its network's genesis. */
  lemma {:induction false} GenesisOfTip(cfg: Config, x: seq<Step>)
    requires History(cfg, x)
    ensures GenesisOf(TipHash(cfg, Compacts(x))) == Some(cfg.network)
    decreases |x|
  {
    hide History, ApplyStateOnly, CaptureUndo, Subsidy, Normal, CheckpointAt, LedgerAt;
    TipOf(cfg, x);
    if x != [] {
      var n := |x| - 1;
      HistoryPrefix(cfg, x, n);
      GenesisOfTip(cfg, x[..n]);
      TipOf(cfg, x[..n]);
      HistoryLinks(cfg, x, n);
    }
  }

  /** On any network but the one a pin descends from, no block is taken at the pinned height, on either path. */
  lemma {:induction false} ForeignPinHalts(cfg: Config, x: seq<Step>, l: Ledger, block: Block, now: u64, verifyPow: bool)
    requires History(cfg, x) && CheckpointAt(cfg.checkpoints, |x|).Some?
    requires GenesisOf(CheckpointAt(cfg.checkpoints, |x|).value) != Some(cfg.network)
    ensures Trust(cfg, Compacts(x), l, block).Failure? && Accept(cfg, Compacts(x), l, block, now, verifyPow).Failure?
  {
    hide Trust, Accept, CaptureUndo, ApplyStateOnly, Subsidy, Normal, History, TipHash, GenesisOf, RootsMatch, Fresh;
    GenesisOfTip(cfg, x);
    NextOfHistory(cfg, x);
    TrustSteps(cfg, Compacts(x), l, block);
    DescendsFrom(Normal(cfg, block));
    if Accept(cfg, Compacts(x), l, block, now, verifyPow).Success? {
      AcceptRefinesTrust(cfg, Compacts(x), l, block, now, verifyPow);
    }
  }

  lemma {:induction false} DescendsFrom(b: Block)
    ensures GenesisOf(HashOf(b)) == GenesisOf(b.header.prevHash)
  {
  }

  lemma {:induction false} NextOfHistory(cfg: Config, x: seq<Step>)
    requires History(cfg, x)
    ensures NextHeight(Compacts(x)) == |x|
  {
    hide History;
    if x != [] {
      TipHeight(cfg, x);
    }
  }

  lemma {:induction false} HighestIsPinned(checkpoints: seq<(nat, Hash)>)
    requires HighestCheckpoint(checkpoints) > 0
    ensures CheckpointAt(checkpoints, HighestCheckpoint(checkpoints)).Some?
    ensures forall h: nat :: CheckpointAt(checkpoints, h).Some? ==> h <= HighestCheckpoint(checkpoints)
  {
    if HighestCheckpoint(checkpoints[1..]) > 0 {
      HighestIsPinned(checkpoints[1..]);
    } else {
      NoneAbove(checkpoints[1..]);
    }
  }

  lemma {:induction false} NoneAbove(checkpoints: seq<(nat, Hash)>)
    ensures forall h: nat :: CheckpointAt(checkpoints, h).Some? ==> h <= HighestCheckpoint(checkpoints)
  {
    if checkpoints != [] {
      NoneAbove(checkpoints[1..]);
    }
  }

  /**
    Work coverage.  In any chain `evaluate_reorg` returns, a block beyond our shared headers either passed
    every check, proof of work included, or lies at or below a pin the chain reaches and meets.
   */
  lemma {:induction false} WorkCoverage(cfg: Config, ourWork: nat, ours: seq<Hash>, blocks: seq<Block>, now: u64, i: nat)
    requires EvaluateReorg(cfg, ourWork, ours, None, blocks, now).Success?
    requires EvaluateReorg(cfg, ourWork, ours, None, blocks, now).value.Some?
    requires CommonPrefix(ours, blocks) <= i < |blocks|
    ensures CandidateSteps(cfg, ours, None, blocks, now).Success?
    ensures var z := CandidateSteps(cfg, ours, None, blocks, now).value;
            var pin := HighestCheckpoint(cfg.checkpoints);
            && |z| == |blocks| && History(cfg, z) && z[i].block.header == blocks[i].header
            && ((CheckedAt(cfg, z, i) && cfg.pow(blocks[i].header))
                || (cfg.network.Mainnet? && cfg.assumeValid && i <= pin < |z|
                    && Some(HashOf(z[pin].block)) == CheckpointAt(cfg.checkpoints, pin)))
  {
    hide EvaluateReorg, CommonPrefix, RebuiltSteps, History, CheckedAt, Normal, PrefixRoots, PushAll, WorkOf, VerifySupply;
    NoHistory(cfg);
    NewFairInv(cfg);
    assert ours[0..] == ours;
    AdoptableSteps(cfg, ourWork, ours, None, blocks, now);
    var z := CandidateSteps(cfg, ours, None, blocks, now).value;
    var trusted := TrustedOf(cfg, None, CommonPrefix(ours, blocks), |blocks|);
    EmptyHistory(cfg);
    RebuiltHistory(cfg, [], blocks, trusted, now);
    assert [] + z == z;
    NormalIdempotent(cfg, blocks[i]);
    if i >= trusted {
      CheckedFacts(cfg, z, i);
    } else {
      var pin := HighestCheckpoint(cfg.checkpoints);
      HighestIsPinned(cfg.checkpoints);
      HistoryLinks(cfg, z, pin);
    }
  }

  lemma {:induction false} EmptyHistory(cfg: Config)
    ensures Compacts([]) == [] && LedgerAt(cfg, [], 0) == ForNetwork(cfg.network)
  {
  }
}
