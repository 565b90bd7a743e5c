/**
  Block validation and chain selection of crates/nightfall-consensus/src/lib.rs, as functions from a
  chain's fields to its next fields.  The methods of class Chain are proved against these.
 */
module Consensus {
  import opened Wrappers
  import opened Words
  import opened Curve
  import opened Utxos
  import opened Transactions
  import opened Ledgers
  import opened Blocks
  import opened Emission
  import Difficulty
  import MedianTime

  datatype ConsensusError =
    | LedgerFailed(error: LedgerError) | BadVersion | BadTxCount | BadPow | CheckpointMismatch | BadDifficulty | BadPrev
    | BadHeight | BadReward | BadTxRoot | BadUtxoRoot | BadKernelSum | TimestampTooFarAhead | TimestampBeforeMedian
    | ReorgTooDeep | TxFeeOutOfRange | BadAddress

  datatype TipUndo = TipUndo(work: nat, state: StateUndo)

  /** One applied block: what was stored, the ledger it left, and the record that takes it back. */
  datatype Step = Step(block: Block, ledger: Ledger, undo: TipUndo)

  type Headers = seq<CompactHeader>

  function Lift<T>(r: Result<T, LedgerError>): Result<T, ConsensusError> {
    match r
    case Success(v) => Success(v)
    case Failure(e) => Failure(LedgerFailed(e))
  }

  // ------------------------------------------------------------- the tip --

  function TipHash(cfg: Config, hs: Headers): Hash {
    if hs == [] then GenesisHash(cfg.network) else hs[|hs| - 1].hash
  }

  function NextHeight(hs: Headers): nat {
    if hs == [] then 0 else hs[|hs| - 1].height + 1
  }

  function DifficultyHistory(hs: Headers): Difficulty.History {
    seq(|hs|, i requires 0 <= i < |hs| => (hs[i].timestamp, hs[i].difficulty))
  }

  function Timestamps(hs: Headers): seq<u64> {
    seq(|hs|, i requires 0 <= i < |hs| => hs[i].timestamp)
  }

  function NextDifficulty(cfg: Config, hs: Headers): u64 {
    Difficulty.NextDifficulty(DifficultyHistory(hs), InitialDifficulty(cfg.network), MinDifficulty(cfg.network))
  }

  function MedianTimePast(hs: Headers): u64 {
    MedianTime.MedianTimePast(MedianTime.MTP_WINDOW, Timestamps(hs))
  }

  function Subsidy(l: Ledger, height: nat): u64 {
    RewardAt(MAINNET, height, l.minted)
  }

  /** Below the binding fork a block is stored, hashed and judged in its 1.0.x shape. */
  function Normal(cfg: Config, b: Block): Block {
    if b.header.height >= BindingForkHeight(cfg.network) then b else b.(body := StripBinding(b.body))
  }

  // ------------------------------------------------------------ one block --

  /** Height, parent and pin: the linkage every path enforces. */
  function CheckLink(cfg: Config, hs: Headers, b: Block): Outcome<ConsensusError> {
    if b.header.height != NextHeight(hs) then Fail(BadHeight)
    else if b.header.prevHash != TipHash(cfg, hs) then Fail(BadPrev)
    else
      var pin := CheckpointAt(cfg.checkpoints, b.header.height);
      if pin.Some? && HashOf(b) != pin.value then Fail(CheckpointMismatch) else Pass
  }

  function SaturatingAdd(a: u64, b: nat): u64 {
    if a + b >= TWO64 then TWO64 - 1 else a + b
  }

  /** Every check that looks at headers only, cheapest first, proof of work last. */
  function CheckHeader(cfg: Config, hs: Headers, b: Block, now: u64, verifyPow: bool): Outcome<ConsensusError> {
    if b.header.version != PROTOCOL_VERSION then Fail(BadVersion)
    else if b.body.outputs == [] || b.body.kernels == [] then Fail(BadTxCount)
    else if ExceedsSizeLimits(b.body) then Fail(LedgerFailed(BlockTooLarge))
    else if CheckLink(cfg, hs, b).Fail? then CheckLink(cfg, hs, b)
    else if verifyPow && b.header.timestamp > SaturatingAdd(now, MAX_FUTURE_DRIFT) then Fail(TimestampTooFarAhead)
    else if |hs| > 0 && b.header.timestamp <= MedianTimePast(hs) then Fail(TimestampBeforeMedian)
    else if b.header.difficulty != NextDifficulty(cfg, hs) then Fail(BadDifficulty)
    else if verifyPow && !cfg.pow(b.header) then Fail(BadPow)
    else Pass
  }

  function CoinbaseDue(subsidy: u64, fees: u64): u64 {
    if subsidy > 0 then subsidy else fees
  }

  function RootsMatch(l: Ledger, h: BlockHeader): Outcome<ConsensusError> {
    if RootOf(l.utxos) != h.utxoRoot then Fail(BadUtxoRoot)
    else if l.kernelSum != h.kernelSum then Fail(BadKernelSum)
    else Pass
  }

  /** `apply_block_inner`, up to the point where the block is committed. */
  function Accept(cfg: Config, hs: Headers, l: Ledger, block: Block, now: u64, verifyPow: bool): Result<Step, ConsensusError> {
    var b := Normal(cfg, block);
    :- CheckHeader(cfg, hs, b, now, verifyPow);
    var subsidy := Subsidy(l, b.header.height);
    :- Need(b.header.reward == CoinbaseDue(subsidy, TotalFee(b.body.kernels)), BadReward);
    :- Need(RootOfBody(b.body) == b.header.bodyRoot, BadTxRoot);
    var undo :- Lift(CaptureUndo(l, b.body));
    var next :- Lift(Apply(l, b.body, b.header.height, subsidy, cfg.network));
    :- RootsMatch(next, b.header);
    Success(Step(b, next, TipUndo(Work(b.header.difficulty), undo)))
  }

  /** `apply_block_from_own_disk`: linkage and state only. */
  function Trust(cfg: Config, hs: Headers, l: Ledger, block: Block): Result<Step, ConsensusError> {
    var b := Normal(cfg, block);
    :- Need(b.header.version == PROTOCOL_VERSION, BadVersion);
    :- CheckLink(cfg, hs, b);
    var undo :- Lift(CaptureUndo(l, b.body));
    var next :- Lift(ApplyStateOnly(l, b.body, b.header.height, Subsidy(l, b.header.height)));
    Success(Step(b, next, TipUndo(Work(b.header.difficulty), undo)))
  }

  /** Which of the two paths a block takes. */
  datatype Mode = OwnDisk | Full(now: u64)

  function Next(cfg: Config, mode: Mode, hs: Headers, l: Ledger, block: Block): Result<Step, ConsensusError> {
    match mode
    case OwnDisk => Trust(cfg, hs, l, block)
    case Full(now) => Accept(cfg, hs, l, block, now, true)
  }

  // ---------------------------------------------------------- many blocks --

  function StepBlocks(steps: seq<Step>): seq<Block> {
    seq(|steps|, i requires 0 <= i < |steps| => steps[i].block)
  }

  function Compacts(steps: seq<Step>): Headers {
    seq(|steps|, i requires 0 <= i < |steps| => Compact(steps[i].block))
  }

  function Undos(steps: seq<Step>): seq<TipUndo> {
    seq(|steps|, i requires 0 <= i < |steps| => steps[i].undo)
  }

  function EndLedger(l: Ledger, steps: seq<Step>): Ledger {
    if steps == [] then l else steps[|steps| - 1].ledger
  }

  /** Sum of the work of a run of blocks. */
  function WorkOf(blocks: seq<Block>): nat {
    if blocks == [] then 0 else WorkOf(blocks[..|blocks| - 1]) + Work(blocks[|blocks| - 1].header.difficulty)
  }

  /** The blocks applied in order on top of (hs, l), or the first error. */
  function StepsOf(cfg: Config, mode: Mode, hs: Headers, l: Ledger, blocks: seq<Block>): Result<seq<Step>, ConsensusError> {
    if blocks == [] then Success([])
    else
      var n := |blocks| - 1;
      var before :- StepsOf(cfg, mode, hs, l, blocks[..n]);
      var step :- Next(cfg, mode, hs + Compacts(before), EndLedger(l, before), blocks[n]);
      Success(before + [step])
  }

  // ------------------------------------------------------ the chain's fields --

  datatype ChainState = ChainState(ledger: Ledger, blocks: seq<Block>, headers: Headers, firstHeight: nat,
                                   horizon: Option<Ledger>, horizonWork: nat, totalWork: nat, undos: seq<TipUndo>)

  datatype PrunedBase = PrunedBase(firstHeight: nat, horizon: Ledger, horizonWork: nat, headers: Headers)

  datatype SuffixTrial = SuffixTrial(trial: ChainState, basedOn: Hash, rewind: nat, ourWork: nat)

  datatype SuffixReorg = SuffixReorg(ledger: Ledger, headers: Headers, suffix: seq<Block>, undos: seq<TipUndo>,
                                     totalWork: nat, rewind: nat, basedOn: Hash)

  function NewFair(cfg: Config): ChainState {
    ChainState(ForNetwork(cfg.network), [], [], 0, None, 0, 0, [])
  }

  /** The undo deque keeps the newest `MAX_REORG_DEPTH` records. */
  function Newest<T>(s: seq<T>): seq<T> {
    if |s| > MAX_REORG_DEPTH then s[|s| - MAX_REORG_DEPTH..] else s
  }

  function Push(s: ChainState, step: Step): ChainState {
    s.(ledger := step.ledger,
       blocks := s.blocks + [step.block],
       headers := s.headers + [Compact(step.block)],
       totalWork := s.totalWork + step.undo.work,
       undos := Newest(s.undos + [step.undo]))
  }

  function PushAll(s: ChainState, steps: seq<Step>): ChainState {
    if steps == [] then s else Push(PushAll(s, steps[..|steps| - 1]), steps[|steps| - 1])
  }

  /** Blocks applied one after another to a chain, or the first error. */
  function Run(cfg: Config, mode: Mode, s: ChainState, blocks: seq<Block>): Result<ChainState, ConsensusError> {
    var steps :- StepsOf(cfg, mode, s.headers, s.ledger, blocks);
    Success(PushAll(s, steps))
  }

  // ---------------------------------------------------------------- prune --

  /** The horizon moved over a run of bodies, with its work; `None` if a body does not replay. */
  function Advance(l: Ledger, work: nat, blocks: seq<Block>): Result<(Ledger, nat), ConsensusError> {
    if blocks == [] then Success((l, work))
    else
      var n := |blocks| - 1;
      var before :- Advance(l, work, blocks[..n]);
      var next :- Lift(ApplyStateOnly(before.0, blocks[n].body, blocks[n].header.height, Subsidy(before.0, blocks[n].header.height)));
      Success((next, before.1 + Work(blocks[n].header.difficulty)))
  }

  function PruneKeep(cfg: Config, s: ChainState, keep: nat): Result<ChainState, ConsensusError> {
    var keep := if keep == 0 then 1 else keep;
    if |s.blocks| <= keep then Success(s)
    else
      var n := |s.blocks| - keep;
      var start := if s.horizon.Some? then s.horizon.value else ForNetwork(cfg.network);
      var startWork := if s.horizon.Some? then s.horizonWork else 0;
      var moved :- Advance(start, startWork, s.blocks[..n]);
      Success(s.(horizon := Some(moved.0), horizonWork := moved.1, blocks := s.blocks[n..], firstHeight := s.firstHeight + n))
  }

  /** As far as the horizon moves before a body does not replay. */
  function AdvanceFar(l: Ledger, work: nat, blocks: seq<Block>): (Ledger, nat) {
    if Advance(l, work, blocks).Success? then Advance(l, work, blocks).value
    else if blocks == [] then (l, work)
    else AdvanceFar(l, work, blocks[..|blocks| - 1])
  }

  /** The fields `prune_keep` leaves: when a body does not replay the horizon has moved and the bodies are still there. */
  function AfterPrune(cfg: Config, s: ChainState, keep: nat): ChainState {
    var pruned := PruneKeep(cfg, s, keep);
    if pruned.Success? then pruned.value
    else
      var start := if s.horizon.Some? then s.horizon.value else ForNetwork(cfg.network);
      var startWork := if s.horizon.Some? then s.horizonWork else 0;
      var kept := if keep == 0 then 1 else keep;
      if |s.blocks| <= kept then s
      else
        var far := AdvanceFar(start, startWork, s.blocks[..|s.blocks| - kept]);
        s.(horizon := Some(far.0), horizonWork := far.1)
  }

  function BaseOf(s: ChainState): Option<PrunedBase> {
    if s.firstHeight == 0 || s.horizon.None? then None
    else
      var kept := if s.firstHeight <= |s.headers| then s.headers[..s.firstHeight] else s.headers;
      Some(PrunedBase(s.firstHeight, s.horizon.value, s.horizonWork, kept))
  }

  // ------------------------------------------------------------ fast reorg --

  function UndoWork(undos: seq<TipUndo>): nat {
    if undos == [] then 0 else UndoWork(undos[..|undos| - 1]) + undos[|undos| - 1].work
  }

  /** The ledger after taking back the newest `n` blocks, newest first. */
  function RewindMany(l: Ledger, undos: seq<TipUndo>, n: nat): Ledger
    requires n <= |undos|
    decreases n
  {
    if n == 0 then l else RewindMany(Rewind(l, undos[|undos| - 1].state), undos[..|undos| - 1], n - 1)
  }

  function PrepareSuffixTrial(cfg: Config, s: ChainState, ancestor: nat): Result<SuffixTrial, ConsensusError> {
    var tip := if s.headers == [] then 0 else s.headers[|s.headers| - 1].height;
    :- Need(ancestor <= tip, BadHeight);
    var rewind := tip - ancestor;
    :- Need(rewind <= MAX_REORG_DEPTH && rewind <= |s.undos|, ReorgTooDeep);
    :- Need(ancestor < |s.headers|, BadHeight);
    var rewound := UndoWork(s.undos[|s.undos| - rewind..]);
    :- Need(rewound <= s.totalWork, ReorgTooDeep);
    var trial := NewFair(cfg).(ledger := RewindMany(s.ledger, s.undos, rewind),
                               totalWork := s.totalWork - rewound,
                               headers := s.headers[..ancestor + 1]);
    Success(SuffixTrial(trial, TipHash(cfg, s.headers), rewind, s.totalWork))
  }

  function FinishSuffix(cfg: Config, t: SuffixTrial, suffix: seq<Block>, now: u64): Result<Option<SuffixReorg>, ConsensusError> {
    if suffix == [] then Success(None)
    else if t.trial.totalWork + WorkOf(suffix) <= t.ourWork then Success(None)
    else
      var c :- Run(cfg, Full(now), t.trial, suffix);
      if c.totalWork <= t.ourWork then Success(None)
      else Success(Some(SuffixReorg(c.ledger, c.headers, c.blocks, c.undos, c.totalWork, t.rewind, t.basedOn)))
  }

  /** The chain after `splice_suffix`, or `None` when it refuses. */
  function SpliceSuffix(cfg: Config, s: ChainState, r: SuffixReorg): Option<ChainState> {
    if TipHash(cfg, s.headers) != r.basedOn || r.totalWork <= s.totalWork then None
    else if r.rewind > |s.blocks| || r.rewind > |s.undos| then None
    else
      Some(s.(blocks := s.blocks[..|s.blocks| - r.rewind] + r.suffix,
              headers := r.headers,
              ledger := r.ledger,
              totalWork := r.totalWork,
              undos := Newest(s.undos[..|s.undos| - r.rewind] + r.undos)))
  }

  // ------------------------------------------------------------ slow reorg --

  /** The last applied header must describe the ledger. */
  function CheckTipRoots(s: ChainState): Outcome<ConsensusError> {
    if s.blocks == [] then Pass else RootsMatch(s.ledger, s.blocks[|s.blocks| - 1].header)
  }

  /** Replay `blocks` on `start`: the first `trusted` as our own file, then a root check, the rest in full. */
  function RebuildFrom(cfg: Config, start: ChainState, blocks: seq<Block>, trusted: nat, now: u64): Result<ChainState, ConsensusError> {
    var k := if trusted <= |blocks| then trusted else |blocks|;
    var prefix :- Run(cfg, OwnDisk, start, blocks[..k]);
    :- if trusted > 0 then CheckTipRoots(prefix) else Pass;
    Run(cfg, Full(now), prefix, blocks[k..])
  }

  /** How many leading blocks a reached pin vouches for. */
  function AssumeValidTo(cfg: Config, n: nat): nat {
    var pin := HighestCheckpoint(cfg.checkpoints);
    if cfg.network.Mainnet? && pin > 0 && n > pin && cfg.assumeValid then pin + 1 else 0
  }

  /** `rebuild_from_blocks_trusted_prefix`. */
  function Rebuild(cfg: Config, blocks: seq<Block>, trusted: nat, now: u64): Result<ChainState, ConsensusError> {
    var assumed := AssumeValidTo(cfg, |blocks|);
    RebuildFrom(cfg, NewFair(cfg), blocks, if trusted >= assumed then trusted else assumed, now)
  }

  function PrunedStart(cfg: Config, base: PrunedBase): ChainState {
    var horizon := base.horizon.(bindingHeight := BindingForkHeight(cfg.network));
    ChainState(horizon, [], base.headers, base.firstHeight, Some(horizon), base.horizonWork, base.horizonWork, [])
  }

  function Hashes(hs: Headers): seq<Hash> {
    seq(|hs|, i requires 0 <= i < |hs| => hs[i].hash)
  }

  /** `reorg_common_prefix`: how many leading blocks have these hashes. */
  function CommonPrefix(hashes: seq<Hash>, blocks: seq<Block>): nat {
    if hashes == [] || blocks == [] || HashOf(blocks[0]) != hashes[0] then 0
    else 1 + CommonPrefix(hashes[1..], blocks[1..])
  }

  /** `evaluate_reorg_at`. */
  function EvaluateReorg(cfg: Config, ourWork: nat, ourHashes: seq<Hash>, base: Option<PrunedBase>, blocks: seq<Block>, now: u64)
    : Result<Option<ChainState>, ConsensusError>
  {
    if blocks == [] then Success(None)
    else
      var start := if base.Some? then base.value.firstHeight else 0;
      :- Need(blocks[0].header.height == start, BadHeight);
      var claimed := (if base.Some? then base.value.horizonWork else 0) + WorkOf(blocks);
      if claimed <= ourWork then Success(None)
      else
        :- Need(start <= |ourHashes|, ReorgTooDeep);
        var window := CommonPrefix(ourHashes[start..], blocks);
        :- Need(|ourHashes| - (start + window) <= MAX_REORG_DEPTH, ReorgTooDeep);
        var candidate :- if base.Some? then RebuildFrom(cfg, PrunedStart(cfg, base.value), blocks, window, now)
                         else Rebuild(cfg, blocks, window, now);
        :- match VerifySupply(candidate.ledger) case Pass => Pass case Fail(e) => Fail(LedgerFailed(e));
        if candidate.totalWork > ourWork then Success(Some(candidate)) else Success(None)
  }

  /** `adopt_reorg`: the candidate, if it still wins. */
  function AdoptReorg(s: ChainState, candidate: ChainState): ChainState {
    if candidate.totalWork > s.totalWork then candidate else s
  }
}
