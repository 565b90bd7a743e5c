/**
  The chain object of crates/nightfall-consensus/src/lib.rs.  Its methods change the fields step by step as
  the program does; each is proved against the functions of module Consensus.
 */
module Chains {
  import opened Wrappers
  import opened Words
  import opened Curve
  import opened Transactions
  import opened Ledgers
  import opened LedgerProofs
  import opened Blocks
  import opened Consensus
  import opened StepProofs
  import opened ChainInvariant
  import opened FastReorg
  import opened ForkChoice
  import opened Agreement
  import Emission
  import Difficulty
  import MedianTime

  /** What one validated or refused block does to the fields and the history. */
  ghost predicate Applied(step: Result<Step, ConsensusError>, outcome: Outcome<ConsensusError>,
                          before: ChainState, after: ChainState, x: seq<Step>, y: seq<Step>)
  {
    match step
    case Failure(e) => outcome == Fail(e) && after == before && y == x
    case Success(st) => outcome == Pass && after == Push(before, st) && y == x + [st]
  }

  /** A step of either path keeps the invariant. */
  lemma {:induction false} StepKeepsInv(cfg: Config, s: ChainState, x: seq<Step>, block: Block, step: Step)
    requires Inv(cfg, s, x) && Trust(cfg, s.headers, s.ledger, block) == Success(step)
    ensures Inv(cfg, Push(s, step), x + [step])
  {
    hide Trust, History, Window, TailUndos, UndoWork, Newest;
    OneMore(cfg, OwnDisk, x, block);
    SinglePush(s, step);
    hide Inv;
    PushedInv(cfg, s, x, [step]);
  }

  /** A failed root check comes after the ledger was changed; the undo record puts it back. */
  lemma {:induction false} RootFailureRewinds(cfg: Config, l: Ledger, b: Block)
    requires Apply(l, b.body, b.header.height, Subsidy(l, b.header.height), cfg.network).Success?
    ensures CaptureUndo(l, b.body).Success?
    ensures Rewind(Apply(l, b.body, b.header.height, Subsidy(l, b.header.height), cfg.network).value,
                   CaptureUndo(l, b.body).value) == l
  {
    hide Apply, Rewind, CaptureUndo, Subsidy;
    RewindInvertsApply(l, b.body, b.header.height, Subsidy(l, b.header.height), cfg.network);
  }

  // ------------------------------------------------- runs, block by block --

  function RunThen(cfg: Config, mode: Mode, r: Result<ChainState, ConsensusError>, b: Block): Result<ChainState, ConsensusError> {
    var c :- r;
    var step :- Next(cfg, mode, c.headers, c.ledger, b);
    Success(Push(c, step))
  }

  lemma {:induction false} RunSnoc(cfg: Config, mode: Mode, s: ChainState, blocks: seq<Block>, b: Block)
    ensures Run(cfg, mode, s, blocks + [b]) == RunThen(cfg, mode, Run(cfg, mode, s, blocks), b)
  {
    hide Next, StepsOf, PushAll, Push;
    StepsSnoc(cfg, mode, s.headers, s.ledger, blocks, b);
    if StepsOf(cfg, mode, s.headers, s.ledger, blocks).Success? {
      var x := StepsOf(cfg, mode, s.headers, s.ledger, blocks).value;
      PushAllFields(s, x);
      if Next(cfg, mode, s.headers + Compacts(x), EndLedger(s.ledger, x), b).Success? {
        PushAllOneMore(s, x, Next(cfg, mode, s.headers + Compacts(x), EndLedger(s.ledger, x), b).value);
      }
    }
  }

  lemma {:induction false} PushAllOneMore(s: ChainState, x: seq<Step>, step: Step)
    ensures PushAll(s, x + [step]) == Push(PushAll(s, x), step)
  {
    hide Push;
    assert (x + [step])[..|x|] == x;
  }

  lemma {:induction false} RunOfNone(cfg: Config, mode: Mode, s: ChainState)
    ensures Run(cfg, mode, s, []) == Success(s)
  {
    hide Next;
  }

  /** An error stops a run for good. */
  lemma {:induction false} RunFails(cfg: Config, mode: Mode, s: ChainState, a: seq<Block>, b: seq<Block>)
    requires Run(cfg, mode, s, a).Failure?
    ensures Run(cfg, mode, s, a + b) == Run(cfg, mode, s, a)
  {
    hide StepsOf, PushAll;
    StepsConcat(cfg, mode, s.headers, s.ledger, a, b);
  }

  /** One applied block, seen as a run one block longer. */
  lemma {:induction false} RunStep(cfg: Config, mode: Mode, s: ChainState, blocks: seq<Block>, i: nat, before: ChainState, step: Result<Step, ConsensusError>)
    requires i < |blocks| && Run(cfg, mode, s, blocks[..i]) == Success(before)
    requires step == Next(cfg, mode, before.headers, before.ledger, blocks[i])
    ensures step.Success? ==> Run(cfg, mode, s, blocks[..i + 1]) == Success(Push(before, step.value))
    ensures step.Failure? ==> Run(cfg, mode, s, blocks) == Failure(step.error)
  {
    hide Next, Run, Push;
    assert blocks[..i + 1] == blocks[..i] + [blocks[i]];
    assert blocks == blocks[..i + 1] + blocks[i + 1..];
    RunSnoc(cfg, mode, s, blocks[..i], blocks[i]);
    if step.Failure? {
      RunFails(cfg, mode, s, blocks[..i + 1], blocks[i + 1..]);
    }
  }

  lemma {:induction false} RewindStep(l: Ledger, undos: seq<TipUndo>, n: nat)
    requires 0 < n <= |undos|
    ensures RewindMany(l, undos, n) == RewindMany(Rewind(l, undos[|undos| - 1].state), undos[..|undos| - 1], n - 1)
  {
    hide Rewind;
  }

  lemma {:induction false} WorkSnoc(blocks: seq<Block>, i: nat)
    requires i < |blocks|
    ensures WorkOf(blocks[..i + 1]) == WorkOf(blocks[..i]) + Work(blocks[i].header.difficulty)
  {
    assert blocks[..i + 1][..i] == blocks[..i];
  }

  lemma {:induction false} AdvanceSnoc(l: Ledger, work: nat, blocks: seq<Block>, i: nat)
    requires i < |blocks| && Advance(l, work, blocks[..i]).Success?
    ensures var (h, w) := Advance(l, work, blocks[..i]).value;
            var next := ApplyStateOnly(h, blocks[i].body, blocks[i].header.height, Subsidy(h, blocks[i].header.height));
            Advance(l, work, blocks[..i + 1])
            == if next.Success? then Success((next.value, w + Work(blocks[i].header.difficulty))) else Failure(LedgerFailed(next.error))
  {
    hide ApplyStateOnly, Subsidy;
    assert blocks[..i + 1][..i] == blocks[..i];
  }

  /** A trial chain and what it was prepared from. */
  datatype Trial = Trial(chain: Chain, basedOn: Hash, rewind: nat, ourWork: nat)

  ghost function TrialState(t: Trial): SuffixTrial
    reads t.chain
  {
    SuffixTrial(t.chain.State(), t.basedOn, t.rewind, t.ourWork)
  }

  class Chain {
    const cfg: Config
    var ledger: Ledger
    var blocks: seq<Block>
    var headers: Headers
    var firstHeight: nat
    var horizon: Option<Ledger>
    var horizonWork: nat
    var totalWork: nat
    var undos: seq<TipUndo>
    /** Every block ever applied to this chain, with the ledger each left behind. */
    ghost var history: seq<Step>

    function State(): ChainState
      reads this
    {
      ChainState(ledger, blocks, headers, firstHeight, horizon, horizonWork, totalWork, undos)
    }

    ghost predicate Valid()
      reads this
    {
      Inv(cfg, State(), history)
    }

    /** Without headers there are no bodies either; the trial of a reorganisation has headers only. */
    predicate Aligned()
      reads this
    {
      headers == [] ==> blocks == [] && firstHeight == 0
    }

    constructor (cfg: Config)
      ensures this.cfg == cfg && State() == NewFair(cfg) && history == []
      ensures Valid() && Aligned()
    {
      this.cfg := cfg;
      ledger := ForNetwork(cfg.network);
      blocks := [];
      headers := [];
      firstHeight := 0;
      horizon := None;
      horizonWork := 0;
      totalWork := 0;
      undos := [];
      history := [];
      new;
      NewFairInv(cfg);
    }

    // -------------------------------------------------------- accessors --

    function TipHeight(): Option<nat>
      reads this
    {
      if headers != [] then Some(headers[|headers| - 1].height)
      else if blocks != [] then Some(blocks[|blocks| - 1].header.height)
      else None
    }

    function NextHeight(): (h: nat)
      reads this
      ensures Aligned() ==> h == Consensus.NextHeight(headers)
    {
      match TipHeight()
      case Some(h) => h + 1
      case None => firstHeight
    }

    function BlockCount(): (n: nat)
      reads this
      ensures Aligned() ==> n == |headers|
    {
      if headers != [] then |headers| else firstHeight + |blocks|
    }

    function TipHash(): (h: Hash)
      reads this
      ensures Aligned() ==> h == Consensus.TipHash(cfg, headers)
    {
      if headers != [] then headers[|headers| - 1].hash
      else if blocks != [] then HashOf(blocks[|blocks| - 1])
      else GenesisHash(cfg.network)
    }

    function HashChain(): (h: seq<Hash>)
      reads this
      ensures Aligned() ==> h == Hashes(headers)
    {
      if headers != [] then Hashes(headers) else seq(|blocks|, i requires 0 <= i < |blocks| reads this => HashOf(blocks[i]))
    }

    function NextDifficulty(): (d: u64)
      reads this
      ensures Aligned() ==> d == Consensus.NextDifficulty(cfg, headers)
    {
      var history :=
        if headers != [] then DifficultyHistory(headers)
        else seq(|blocks|, i requires 0 <= i < |blocks| reads this => (blocks[i].header.timestamp, blocks[i].header.difficulty));
      Difficulty.NextDifficulty(history, InitialDifficulty(cfg.network), MinDifficulty(cfg.network))
    }

    function MedianTimePast(): (t: u64)
      reads this
      ensures Aligned() ==> t == Consensus.MedianTimePast(headers)
    {
      var ts :=
        if headers != [] then Timestamps(headers)
        else seq(|blocks|, i requires 0 <= i < |blocks| reads this => blocks[i].header.timestamp);
      MedianTime.MedianTimePast(MedianTime.MTP_WINDOW, ts)
    }

    // ------------------------------------------------------- one block --

    method PushBlock(block: Block)
      modifies this`headers, this`blocks
      ensures headers == old(headers) + [Compact(block)] && blocks == old(blocks) + [block]
    {
      headers := headers + [Compact(block)];
      blocks := blocks + [block];
    }

    method RememberUndo(state: StateUndo, work: nat)
      modifies this`undos
      ensures undos == Newest(old(undos) + [TipUndo(work, state)])
    {
      undos := undos + [TipUndo(work, state)];
      TrimUndos();
    }

    /** The shared tail of both paths: a step that passed is stored. */
    method Store(b: Block, undo: StateUndo, ghost step: Step)
      requires step == Step(b, ledger, TipUndo(Work(b.header.difficulty), undo))
      modifies this`headers, this`blocks, this`totalWork, this`undos, this`history
      ensures State() == Push(old(State()), step) && history == old(history) + [step]
    {
      hide Newest;
      var work := Work(b.header.difficulty);
      totalWork := totalWork + work;
      PushBlock(b);
      RememberUndo(undo, work);
      history := history + [step];
    }

    /**
      `apply_block_inner`: the checks, the ledger changed in place, and the ledger taken back when a root does
      not match.  A refused block leaves every field as it was.
     */
    method ApplyBlockInner(block: Block, now: u64, verifyPow: bool) returns (r: Outcome<ConsensusError>)
      requires Aligned()
      modifies this
      ensures Applied(Accept(cfg, old(headers), old(ledger), block, now, verifyPow), r, old(State()), State(), old(history), history)
      ensures Aligned() && (old(Valid()) ==> Valid())
    {
      hide Push, Normal, ExceedsSizeLimits, Consensus.NextHeight, Consensus.TipHash, Consensus.MedianTimePast, Consensus.NextDifficulty,
           Subsidy, CoinbaseDue, TotalFee, RootOfBody, CaptureUndo, Apply, Rewind, RootOf, Inv, SaturatingAdd, CheckpointAt;
      var b := Normal(cfg, block);
      if b.header.version != PROTOCOL_VERSION {
        return Fail(BadVersion);
      }
      if b.body.outputs == [] || b.body.kernels == [] {
        return Fail(BadTxCount);
      }
      if ExceedsSizeLimits(b.body) {
        return Fail(LedgerFailed(BlockTooLarge));
      }
      if b.header.height != NextHeight() {
        return Fail(BadHeight);
      }
      if b.header.prevHash != TipHash() {
        return Fail(BadPrev);
      }
      var pin := CheckpointAt(cfg.checkpoints, b.header.height);
      if pin.Some? && HashOf(b) != pin.value {
        return Fail(CheckpointMismatch);
      }
      if verifyPow && b.header.timestamp > SaturatingAdd(now, MAX_FUTURE_DRIFT) {
        return Fail(TimestampTooFarAhead);
      }
      if BlockCount() > 0 && b.header.timestamp <= MedianTimePast() {
        return Fail(TimestampBeforeMedian);
      }
      if b.header.difficulty != NextDifficulty() {
        return Fail(BadDifficulty);
      }
      if verifyPow && !cfg.pow(b.header) {
        return Fail(BadPow);
      }
      var subsidy := Subsidy(ledger, b.header.height);
      if b.header.reward != CoinbaseDue(subsidy, TotalFee(b.body.kernels)) {
        return Fail(BadReward);
      }
      if RootOfBody(b.body) != b.header.bodyRoot {
        return Fail(BadTxRoot);
      }
      var undo := CaptureUndo(ledger, b.body);
      if undo.Failure? {
        return Fail(LedgerFailed(undo.error));
      }
      var next := Apply(ledger, b.body, b.header.height, subsidy, cfg.network);
      if next.Failure? {
        return Fail(LedgerFailed(next.error));
      }
      RootFailureRewinds(cfg, ledger, b);
      ledger := next.value;
      if RootOf(ledger.utxos) != b.header.utxoRoot {
        ledger := Rewind(ledger, undo.value);
        return Fail(BadUtxoRoot);
      }
      if ledger.kernelSum != b.header.kernelSum {
        ledger := Rewind(ledger, undo.value);
        return Fail(BadKernelSum);
      }
      ghost var step := Step(b, ledger, TipUndo(Work(b.header.difficulty), undo.value));
      assert Accept(cfg, old(headers), old(ledger), block, now, verifyPow) == Success(step);
      AcceptedKeepsInv(cfg, old(State()), old(history), block, now, verifyPow);
      assert State() == old(State()).(ledger := step.ledger);
      PushFields(old(State()), step);
      Store(b, undo.value, step);
      return Pass;
    }

    /** `apply_block`. */
    method ApplyBlock(block: Block, now: u64) returns (r: Outcome<ConsensusError>)
      requires Aligned()
      modifies this
      ensures Applied(Accept(cfg, old(headers), old(ledger), block, now, true), r, old(State()), State(), old(history), history)
      ensures Aligned() && (old(Valid()) ==> Valid())
    {
      hide *;
      r := ApplyBlockInner(block, now, true);
    }

    /** `apply_block_locally_trusted`. */
    method ApplyBlockLocallyTrusted(block: Block, now: u64) returns (r: Outcome<ConsensusError>)
      requires Aligned()
      modifies this
      ensures Applied(Accept(cfg, old(headers), old(ledger), block, now, false), r, old(State()), State(), old(history), history)
      ensures Aligned() && (old(Valid()) ==> Valid())
    {
      hide *;
      r := ApplyBlockInner(block, now, false);
    }

    /** `apply_block_from_own_disk`: linkage, pin and state, no other check. */
    method ApplyBlockFromOwnDisk(block: Block) returns (r: Outcome<ConsensusError>)
      requires Aligned()
      modifies this
      ensures Applied(Trust(cfg, old(headers), old(ledger), block), r, old(State()), State(), old(history), history)
      ensures Aligned() && (old(Valid()) ==> Valid())
    {
      hide Push, Normal, Consensus.NextHeight, Consensus.TipHash, Subsidy, CaptureUndo, ApplyStateOnly, Inv, CheckpointAt;
      var b := Normal(cfg, block);
      if b.header.version != PROTOCOL_VERSION {
        return Fail(BadVersion);
      }
      if b.header.height != NextHeight() {
        return Fail(BadHeight);
      }
      if b.header.prevHash != TipHash() {
        return Fail(BadPrev);
      }
      var pin := CheckpointAt(cfg.checkpoints, b.header.height);
      if pin.Some? && HashOf(b) != pin.value {
        return Fail(CheckpointMismatch);
      }
      var subsidy := Subsidy(ledger, b.header.height);
      var undo := CaptureUndo(ledger, b.body);
      if undo.Failure? {
        return Fail(LedgerFailed(undo.error));
      }
      var next := ApplyStateOnly(ledger, b.body, b.header.height, subsidy);
      if next.Failure? {
        return Fail(LedgerFailed(next.error));
      }
      ledger := next.value;
      ghost var step := Step(b, ledger, TipUndo(Work(b.header.difficulty), undo.value));
      assert Trust(cfg, old(headers), old(ledger), block) == Success(step);
      if old(Valid()) {
        StepKeepsInv(cfg, old(State()), old(history), block, step);
      }
      assert State() == old(State()).(ledger := step.ledger);
      PushFields(old(State()), step);
      Store(b, undo.value, step);
      return Pass;
    }

    // ------------------------------------------------------------ ingest --

    /**
      `try_ingest_blocks`: an error leaves the chain as it was; otherwise the chain is extended by exactly the
      first n blocks, as if each had been applied in turn, and block n, if there is one, was refused.
     */
    method TryIngestBlocks(batch: seq<Block>, now: u64) returns (r: Result<nat, ConsensusError>)
      requires Aligned()
      modifies this
      ensures r.Failure? ==> State() == old(State()) && history == old(history)
      ensures r.Success? ==>
                && r.value <= |batch|
                && Run(cfg, Full(now), old(State()), batch[..r.value]) == Success(State())
                && (r.value < |batch| ==> Accept(cfg, headers, ledger, batch[r.value], now, true).Failure?)
      ensures var first := if batch == [] then Failure(BadPrev) else Accept(cfg, old(headers), old(ledger), batch[0], now, true);
              if first.Failure? && first.error != BadPrev && first.error != BadHeight
              then r == Failure(first.error) else r.Success?
      ensures Aligned() && (old(Valid()) ==> Valid())
    {
      hide Accept, Run, Push, Inv;
      var applied := 0;
      RunOfNone(cfg, Full(now), State());
      assert batch[..0] == [];
      while applied < |batch|
        invariant applied <= |batch|
        invariant Run(cfg, Full(now), old(State()), batch[..applied]) == Success(State())
        invariant applied == 0 ==> State() == old(State()) && history == old(history)
        invariant applied > 0 ==> Accept(cfg, old(headers), old(ledger), batch[0], now, true).Success?
        invariant Aligned() && (old(Valid()) ==> Valid())
      {
        ghost var before := State();
        var outcome := ApplyBlock(batch[applied], now);
        RunStep(cfg, Full(now), old(State()), batch, applied, before,
                Accept(cfg, before.headers, before.ledger, batch[applied], now, true));
        if outcome.Fail? {
          if outcome.error != BadPrev && outcome.error != BadHeight && applied == 0 {
            return Failure(outcome.error);
          }
          break;
        }
        applied := applied + 1;
      }
      return Success(applied);
    }

    // ------------------------------------------------------------- prune --

    /**
      `prune_keep`.  A body that does not replay stops it with the horizon moved and the bodies still there; on a
      chain that satisfies the invariant there is none, and nothing but bodies is forgotten.
     */
    method PruneKeep(keep: nat) returns (r: Result<nat, ConsensusError>)
      modifies this
      ensures State() == AfterPrune(cfg, old(State()), keep) && history == old(history)
      ensures var spec := Consensus.PruneKeep(cfg, old(State()), keep);
              if spec.Failure? then r == Failure(spec.error) else r == Success(|old(blocks)| - |blocks|)
      ensures old(Valid()) ==> r.Success? && r.value == firstHeight - old(firstHeight) && Valid()
    {
      hide Inv, Advance, AdvanceFar, ApplyStateOnly, Subsidy;
      if Valid() {
        PruneKeepsInv(cfg, State(), history, keep);
      }
      var kept := if keep == 0 then 1 else keep;
      if |blocks| <= kept {
        return Success(0);
      }
      var n := |blocks| - kept;
      if horizon.None? {
        horizon := Some(ForNetwork(cfg.network));
        horizonWork := 0;
      }
      ghost var start, startWork := horizon.value, horizonWork;
      assert blocks[..n][..0] == [] && blocks[..n][..n] == blocks[..n];
      AdvanceOfNone(start, startWork);
      for i := 0 to n
        invariant horizon.Some? && blocks == old(blocks) && firstHeight == old(firstHeight) && headers == old(headers)
        invariant ledger == old(ledger) && totalWork == old(totalWork) && undos == old(undos) && history == old(history)
        invariant Advance(start, startWork, blocks[..n][..i]) == Success((horizon.value, horizonWork))
      {
        AdvanceSnoc(start, startWork, blocks[..n], i);
        var b := blocks[i];
        var subsidy := Subsidy(horizon.value, b.header.height);
        var next := ApplyStateOnly(horizon.value, b.body, b.header.height, subsidy);
        if next.Failure? {
          AdvanceStops(start, startWork, blocks[..n], i);
          return Failure(LedgerFailed(next.error));
        }
        horizon := Some(next.value);
        horizonWork := horizonWork + Work(b.header.difficulty);
      }
      blocks := blocks[n..];
      firstHeight := firstHeight + n;
      return Success(n);
    }

    /** `pruned_base`. */
    function PrunedBase(): (base: Option<PrunedBase>)
      reads this
    {
      BaseOf(State())
    }

    // -------------------------------------------------- fast reorganisation --

    /** `rewound_work`, newest record first. */
    method RewoundWork(rewind: nat) returns (work: Option<nat>)
      ensures work == if rewind > |undos| then None else Some(UndoWork(undos[|undos| - rewind..]))
    {
      hide UndoWork;
      if rewind > |undos| {
        return None;
      }
      var sum := 0;
      assert undos[|undos|..] == [];
      EmptyWork();
      for i := 0 to rewind
        invariant sum == UndoWork(undos[|undos| - i..])
      {
        var k := |undos| - 1 - i;
        sum := sum + undos[k].work;
        assert undos[k..] == [undos[k]] + undos[k + 1..];
        UndoWorkConcat([undos[k]], undos[k + 1..]);
        OneUndo(undos[k]);
      }
      return Some(sum);
    }

    /** `prepare_suffix_trial`: a new chain with the headers up to the ancestor and the rewound ledger, no bodies. */
    method PrepareSuffixTrial(ancestor: nat) returns (r: Result<Trial, ConsensusError>)
      requires Aligned()
      ensures var spec := Consensus.PrepareSuffixTrial(cfg, State(), ancestor);
              if spec.Failure? then r == Failure(spec.error)
              else r.Success? && fresh(r.value.chain) && r.value.chain.cfg == cfg && r.value.chain.Aligned()
                   && TrialState(r.value) == spec.value
    {
      hide UndoWork, RewindMany, Rewind, Inv, Consensus.TipHash;
      var tip := if TipHeight().Some? then TipHeight().value else 0;
      if ancestor > tip {
        return Failure(BadHeight);
      }
      var rewind := tip - ancestor;
      if rewind > MAX_REORG_DEPTH || rewind > |undos| {
        return Failure(ReorgTooDeep);
      }
      if ancestor >= |headers| {
        return Failure(BadHeight);
      }
      var rewound := RewoundWork(rewind);
      if rewound.None? || rewound.value > totalWork {
        return Failure(ReorgTooDeep);
      }
      var l := ledger;
      assert undos[..|undos|] == undos;
      for i := 0 to rewind
        invariant RewindMany(ledger, undos, rewind) == RewindMany(l, undos[..|undos| - i], rewind - i)
      {
        RewindStep(l, undos[..|undos| - i], rewind - i);
        assert undos[..|undos| - i][..|undos| - i - 1] == undos[..|undos| - (i + 1)];
        l := Rewind(l, undos[|undos| - 1 - i].state);
      }
      RewindNothing(l, undos[..|undos| - rewind]);
      var trial := new Chain(cfg);
      trial.ledger := l;
      trial.totalWork := totalWork - rewound.value;
      trial.headers := headers[..ancestor + 1];
      return Success(Trial(trial, TipHash(), rewind, totalWork));
    }

    /** `finish_suffix`: only the trial chain changes, by the blocks of the suffix in turn. */
    static method FinishSuffix(t: Trial, suffix: seq<Block>, now: u64) returns (r: Result<Option<SuffixReorg>, ConsensusError>)
      requires t.chain.Aligned()
      modifies t.chain
      ensures r == Consensus.FinishSuffix(t.chain.cfg, old(TrialState(t)), suffix, now)
    {
      hide Accept, WorkOf, Run, Push, Inv;
      var c := t.chain;
      if suffix == [] {
        return Success(None);
      }
      var declared := 0;
      assert suffix[..0] == [] && suffix[..|suffix|] == suffix;
      NoBlocksNoWork();
      for i := 0 to |suffix|
        invariant declared == WorkOf(suffix[..i]) && c.State() == old(c.State()) && c.Aligned()
      {
        WorkSnoc(suffix, i);
        declared := declared + Work(suffix[i].header.difficulty);
      }
      if c.totalWork + declared <= t.ourWork {
        return Success(None);
      }
      RunOfNone(c.cfg, Full(now), c.State());
      for i := 0 to |suffix|
        invariant Run(c.cfg, Full(now), old(c.State()), suffix[..i]) == Success(c.State())
        invariant c.Aligned()
      {
        ghost var before := c.State();
        var outcome := c.ApplyBlock(suffix[i], now);
        RunStep(c.cfg, Full(now), old(c.State()), suffix, i, before,
                Accept(c.cfg, before.headers, before.ledger, suffix[i], now, true));
        if outcome.Fail? {
          return Failure(outcome.error);
        }
      }
      if c.totalWork <= t.ourWork {
        return Success(None);
      }
      return Success(Some(SuffixReorg(c.ledger, c.headers, c.blocks, c.undos, c.totalWork, t.rewind, t.basedOn)));
    }

    /**
      `splice_suffix`.  The ghost arguments say which history the suffix was verified on, and from where; a splice
      that goes through is on that very history, and keeps the invariant.
     */
    method SpliceSuffix(reorg: SuffixReorg, ghost origin: seq<Step>, ghost ancestor: nat, ghost suffix: seq<Step>) returns (ok: bool)
      requires Aligned() && ancestor < |origin|
      modifies this
      ensures ok == Consensus.SpliceSuffix(cfg, old(State()), reorg).Some?
      ensures State() == if ok then Consensus.SpliceSuffix(cfg, old(State()), reorg).value else old(State())
      ensures history == if ok then origin[..ancestor + 1] + suffix else old(history)
      ensures ok && old(Valid()) && Earlier(origin, old(history)) && History(cfg, origin)
              && History(cfg, origin[..ancestor + 1] + suffix) && reorg == ReorgOf(cfg, origin, ancestor, suffix)
              ==> Valid() && old(history) == origin
    {
      hide Newest, Inv, Consensus.TipHash, History, ReorgOf, Earlier;
      if TipHash() != reorg.basedOn || reorg.totalWork <= totalWork {
        return false;
      }
      if reorg.rewind > |blocks| || reorg.rewind > |undos| {
        return false;
      }
      blocks := blocks[..|blocks| - reorg.rewind] + reorg.suffix;
      headers := reorg.headers;
      ledger := reorg.ledger;
      totalWork := reorg.totalWork;
      ghost var before := undos;
      for i := 0 to reorg.rewind
        invariant undos == before[..|before| - i]
        invariant blocks == old(blocks)[..|old(blocks)| - reorg.rewind] + reorg.suffix && headers == reorg.headers
        invariant ledger == reorg.ledger && totalWork == reorg.totalWork && history == old(history)
        invariant firstHeight == old(firstHeight) && horizon == old(horizon) && horizonWork == old(horizonWork)
      {
        undos := undos[..|undos| - 1];
      }
      undos := undos + reorg.undos;
      TrimUndos();
      history := origin[..ancestor + 1] + suffix;
      if old(Valid()) && Earlier(origin, old(history)) && History(cfg, origin)
         && History(cfg, origin[..ancestor + 1] + suffix) && reorg == ReorgOf(cfg, origin, ancestor, suffix) {
        SpliceLands(cfg, old(State()), old(history), origin, ancestor, suffix);
      }
      return true;
    }

    method TrimUndos()
      modifies this`undos
      ensures undos == Newest(old(undos))
    {
      ghost var all := undos;
      ghost var dropped := 0;
      while |undos| > MAX_REORG_DEPTH
        invariant dropped <= |all| && undos == all[dropped..]
        invariant dropped > 0 ==> |undos| >= MAX_REORG_DEPTH
      {
        undos := undos[1..];
        dropped := dropped + 1;
      }
    }

    // -------------------------------------------------- slow reorganisation --

    /** `check_tip_roots`. */
    function CheckTipRoots(): (r: Outcome<ConsensusError>)
      reads this
      ensures r == Consensus.CheckTipRoots(State())
    {
      if blocks == [] then Pass
      else
        var tip := blocks[|blocks| - 1];
        if RootOf(ledger.utxos) != tip.header.utxoRoot then Fail(BadUtxoRoot)
        else if ledger.kernelSum != tip.header.kernelSum then Fail(BadKernelSum)
        else Pass
    }

    /** The replay loop of both rebuilds. */
    method Replay(list: seq<Block>, trusted: nat, now: u64) returns (r: Outcome<ConsensusError>)
      requires Aligned() && blocks == []
      modifies this
      ensures var spec := RebuildFrom(cfg, old(State()), list, trusted, now);
              if spec.Failure? then r == Fail(spec.error) else r == Pass && State() == spec.value
      ensures Aligned() && (old(Valid()) ==> Valid())
    {
      hide Accept, Trust, Run, Push, Inv, RootsMatch, RootOf;
      ghost var start := State();
      ghost var k := if trusted <= |list| then trusted else |list|;
      ghost var prefix := start;
      RunOfNone(cfg, OwnDisk, start);
      assert list[..0] == [] && list[..k][..k] == list[..k] && list[k..][..|list| - k] == list[k..];
      for i := 0 to |list|
        invariant Aligned() && (old(Valid()) ==> Valid())
        invariant i <= k ==> Run(cfg, OwnDisk, start, list[..k][..i]) == Success(State())
        invariant i > k ==>
                    && Run(cfg, OwnDisk, start, list[..k]) == Success(prefix)
                    && (trusted > 0 ==> Consensus.CheckTipRoots(prefix).Pass?)
                    && Run(cfg, Full(now), prefix, list[k..][..i - k]) == Success(State())
        invariant |blocks| == i
      {
        ghost var before := State();
        if i < trusted {
          r := ApplyBlockFromOwnDisk(list[i]);
          RunStep(cfg, OwnDisk, start, list[..k], i, before, Trust(cfg, before.headers, before.ledger, list[i]));
        } else {
          if i == trusted && trusted > 0 {
            r := CheckTipRoots();
            if r.Fail? {
              return;
            }
          }
          if i == k {
            prefix := before;
            RunOfNone(cfg, Full(now), prefix);
            assert list[k..][..0] == [];
          }
          r := ApplyBlock(list[i], now);
          RunStep(cfg, Full(now), prefix, list[k..], i - k, before, Accept(cfg, before.headers, before.ledger, list[i], now, true));
        }
        if r.Fail? {
          return;
        }
        PushCounts(before);
      }
      if |list| <= k {
        RunOfNone(cfg, Full(now), State());
      }
      if trusted > 0 && trusted >= |blocks| {
        return CheckTipRoots();
      }
      return Pass;
    }

    /** `rebuild_from_blocks_trusted_prefix`: a reached mainnet pin widens the trusted prefix. */
    static method RebuildFromBlocks(cfg: Config, list: seq<Block>, trusted: nat, now: u64) returns (r: Result<Chain, ConsensusError>)
      ensures var spec := Rebuild(cfg, list, trusted, now);
              if spec.Failure? then r == Failure(spec.error)
              else r.Success? && fresh(r.value) && r.value.cfg == cfg && r.value.State() == spec.value
                   && r.value.Aligned() && r.value.Valid()
    {
      hide RebuildFrom, Inv, Consensus.NewFair;
      var pin := HighestCheckpoint(cfg.checkpoints);
      var assumed := if cfg.network.Mainnet? && pin > 0 && |list| > pin && cfg.assumeValid then pin + 1 else 0;
      var chain := new Chain(cfg);
      ChainStarts(cfg);
      var outcome := chain.Replay(list, if trusted >= assumed then trusted else assumed, now);
      if outcome.Fail? {
        return Failure(outcome.error);
      }
      return Success(chain);
    }

    /** `rebuild_from_pruned_base`; `below` is the history the base was taken from, up to its horizon. */
    static method RebuildFromPrunedBase(cfg: Config, base: PrunedBase, list: seq<Block>, trusted: nat, now: u64, ghost below: seq<Step>)
      returns (r: Result<Chain, ConsensusError>)
      requires base.headers != []
      ensures var spec := RebuildFrom(cfg, PrunedStart(cfg, base), list, trusted, now);
              if spec.Failure? then r == Failure(spec.error)
              else r.Success? && fresh(r.value) && r.value.cfg == cfg && r.value.State() == spec.value
                   && r.value.Aligned() && (Inv(cfg, PrunedStart(cfg, base), below) ==> r.value.Valid())
    {
      hide RebuildFrom, Inv;
      var chain := new Chain(cfg);
      var horizon := base.horizon.(bindingHeight := BindingForkHeight(cfg.network));
      chain.ledger := horizon;
      chain.horizon := Some(horizon);
      chain.horizonWork := base.horizonWork;
      chain.firstHeight := base.firstHeight;
      chain.headers := base.headers;
      chain.totalWork := base.horizonWork;
      chain.history := below;
      var outcome := chain.Replay(list, trusted, now);
      if outcome.Fail? {
        return Failure(outcome.error);
      }
      return Success(chain);
    }

    /** The number of leading blocks with our hashes. */
    static method CountCommon(hashes: seq<Hash>, list: seq<Block>) returns (n: nat)
      ensures n == CommonPrefix(hashes, list)
    {
      n := 0;
      assert hashes[0..] == hashes && list[0..] == list;
      while n < |hashes| && n < |list| && HashOf(list[n]) == hashes[n]
        invariant n <= |hashes| && n <= |list|
        invariant CommonPrefix(hashes, list) == n + CommonPrefix(hashes[n..], list[n..])
      {
        assert hashes[n..][1..] == hashes[n + 1..] && list[n..][1..] == list[n + 1..];
        n := n + 1;
      }
    }

    static method DeclaredWork(list: seq<Block>) returns (work: nat)
      ensures work == WorkOf(list)
    {
      work := 0;
      assert list[..|list|] == list;
      for i := 0 to |list|
        invariant work == WorkOf(list[..i])
      {
        WorkSnoc(list, i);
        work := work + Work(list[i].header.difficulty);
      }
    }

    /** `evaluate_reorg_at`: decide a reorganisation from borrowed facts; no existing chain is touched. */
    static method EvaluateReorgAt(cfg: Config, ourWork: nat, ourHashes: seq<Hash>, base: Option<PrunedBase>, list: seq<Block>, now: u64,
                                  ghost below: seq<Step>)
      returns (r: Result<Option<Chain>, ConsensusError>)
      requires base.Some? ==> base.value.headers != []
      ensures var spec := EvaluateReorg(cfg, ourWork, ourHashes, base, list, now);
              if spec.Failure? then r == Failure(spec.error)
              else if spec.value.None? then r == Success(None)
              else r.Success? && r.value.Some? && fresh(r.value.value) && r.value.value.cfg == cfg
                   && r.value.value.State() == spec.value.value && r.value.value.Aligned()
                   && (Inv(cfg, StartOf(cfg, base), below) ==> r.value.value.Valid())
    {
      hide RebuildFrom, Rebuild, Inv, CommonPrefix, WorkOf, Consensus.NewFair, VerifySupply, PrunedStart;
      if list == [] {
        return Success(None);
      }
      var start := if base.Some? then base.value.firstHeight else 0;
      if list[0].header.height != start {
        return Failure(BadHeight);
      }
      var suffixWork := DeclaredWork(list);
      var claimed := (if base.Some? then base.value.horizonWork else 0) + suffixWork;
      if claimed <= ourWork {
        return Success(None);
      }
      if |ourHashes| < start {
        return Failure(ReorgTooDeep);
      }
      var window := CountCommon(ourHashes[start..], list);
      var common := start + window;
      if |ourHashes| - common > MAX_REORG_DEPTH {
        return Failure(ReorgTooDeep);
      }
      var rebuilt: Result<Chain, ConsensusError>;
      if base.Some? {
        rebuilt := RebuildFromPrunedBase(cfg, base.value, list, window, now, below);
      } else {
        rebuilt := RebuildFromBlocks(cfg, list, common, now);
      }
      if rebuilt.Failure? {
        return Failure(rebuilt.error);
      }
      var candidate := rebuilt.value;
      var supply := VerifySupply(candidate.ledger);
      if supply.Fail? {
        return Failure(LedgerFailed(supply.error));
      }
      return Success(if candidate.totalWork > ourWork then Some(candidate) else None);
    }

    /** `adopt_reorg`: the candidate's work against the work the chain has by now. */
    method AdoptReorg(candidate: Chain) returns (ok: bool)
      requires candidate.cfg == cfg && candidate.Aligned() && Aligned()
      modifies this
      ensures ok == (old(candidate.totalWork) > old(totalWork))
      ensures State() == Consensus.AdoptReorg(old(State()), old(candidate.State()))
      ensures history == if ok then old(candidate.history) else old(history)
      ensures Aligned() && (old(Valid()) && old(candidate.Valid()) ==> Valid())
    {
      hide Inv;
      if candidate.totalWork > totalWork {
        ledger, blocks, headers := candidate.ledger, candidate.blocks, candidate.headers;
        firstHeight, horizon, horizonWork := candidate.firstHeight, candidate.horizon, candidate.horizonWork;
        totalWork, undos, history := candidate.totalWork, candidate.undos, candidate.history;
        return true;
      }
      return false;
    }

    /** `maybe_reorg_to`: adopt the blocks exactly when the evaluation says they win. */
    method MaybeReorgTo(list: seq<Block>, now: u64) returns (r: Result<bool, ConsensusError>)
      requires Valid() && Aligned()
      modifies this
      ensures var spec := EvaluateReorg(cfg, old(totalWork), Hashes(old(headers)), BaseOf(old(State())), list, now);
              if spec.Failure? then r == Failure(spec.error) && State() == old(State())
              else if spec.value.None? then r == Success(false) && State() == old(State())
              else r == Success(true) && State() == spec.value.value
      ensures Valid() && Aligned()
    {
      hide EvaluateReorg, Inv, StartOf, BaseOf;
      BaseOk(cfg, State(), history);
      BaseHasHeaders(cfg, State(), history);
      ghost var below := history[..StartOf(cfg, BaseOf(State())).firstHeight];
      WinnerIsHeavier(cfg, totalWork, Hashes(headers), BaseOf(State()), list, now);
      var verdict := EvaluateReorgAt(cfg, totalWork, HashChain(), PrunedBase(), list, now, below);
      if verdict.Failure? {
        return Failure(verdict.error);
      }
      if verdict.value.None? {
        return Success(false);
      }
      var ok := AdoptReorg(verdict.value.value);
      return Success(ok);
    }
  }

  lemma {:induction false} ChainStarts(cfg: Config)
    ensures Consensus.NewFair(cfg).blocks == []
  {
  }

  lemma {:induction false} BaseHasHeaders(cfg: Config, s: ChainState, x: seq<Step>)
    requires Inv(cfg, s, x)
    ensures BaseOf(s).Some? ==> BaseOf(s).value.headers != []
  {
    hide History, TailUndos, UndoWork;
  }

  lemma {:induction false} WinnerIsHeavier(cfg: Config, ourWork: nat, ours: seq<Hash>, base: Option<PrunedBase>, list: seq<Block>, now: u64)
    ensures var spec := EvaluateReorg(cfg, ourWork, ours, base, list, now);
            spec.Success? && spec.value.Some? ==> spec.value.value.totalWork > ourWork
  {
    hide RebuildFrom, Rebuild, VerifySupply, WorkOf, CommonPrefix;
  }

  lemma {:induction false} PushCounts(s: ChainState)
    ensures forall step :: |Push(s, step).blocks| == |s.blocks| + 1
  {
  }

  lemma {:induction false} OneUndo(u: TipUndo)
    ensures UndoWork([u]) == u.work
  {
    assert [u][..0] == [];
  }

  lemma {:induction false} AdvanceOfNone(l: Ledger, work: nat)
    ensures Advance(l, work, []) == Success((l, work))
  {
  }

  /** A body that does not replay is the error of the walk, which then has come as far as the body before. */
  lemma {:induction false} AdvanceStops(l: Ledger, work: nat, blocks: seq<Block>, i: nat)
    requires i < |blocks| && Advance(l, work, blocks[..i]).Success? && Advance(l, work, blocks[..i + 1]).Failure?
    ensures Advance(l, work, blocks) == Failure(Advance(l, work, blocks[..i + 1]).error)
    ensures AdvanceFar(l, work, blocks) == Advance(l, work, blocks[..i]).value
    decreases |blocks|
  {
    hide ApplyStateOnly, Subsidy;
    var n := |blocks| - 1;
    if i < n {
      assert blocks[..n][..i] == blocks[..i] && blocks[..n][..i + 1] == blocks[..i + 1];
      AdvanceStops(l, work, blocks[..n], i);
    } else {
      assert blocks[..i + 1] == blocks;
    }
  }

  lemma {:induction false} RewindNothing(l: Ledger, undos: seq<TipUndo>)
    ensures RewindMany(l, undos, 0) == l
  {
  }

  lemma {:induction false} NoBlocksNoWork()
    ensures WorkOf([]) == 0
  {
  }

  lemma {:induction false} AcceptedKeepsInv(cfg: Config, s: ChainState, x: seq<Step>, block: Block, now: u64, verifyPow: bool)
    requires Accept(cfg, s.headers, s.ledger, block, now, verifyPow).Success?
    ensures var step := Accept(cfg, s.headers, s.ledger, block, now, verifyPow).value;
            Inv(cfg, s, x) ==> Inv(cfg, Push(s, step), x + [step])
  {
    hide Inv, Accept, Trust, Push;
    AcceptRefinesTrust(cfg, s.headers, s.ledger, block, now, verifyPow);
    if Inv(cfg, s, x) {
      StepKeepsInv(cfg, s, x, block, Accept(cfg, s.headers, s.ledger, block, now, verifyPow).value);
    }
  }

  /** The ledger in place before the push does not matter, and afterwards there is a header. */
  lemma {:induction false} PushFields(s: ChainState, step: Step)
    ensures Push(s, step) == Push(s.(ledger := step.ledger), step)
    ensures Push(s, step).headers != []
  {
  }
}
