/**
  What `evaluate_reorg` decides: the fast path reaches the same verdict, pruning does not show, and
  every block beyond the shared and the pinned prefix has passed proof of work.
 */
module ForkChoice {
  import opened Wrappers
  import opened Words
  import opened Curve
  import opened Transactions
  import opened Ledgers
  import opened LedgerProofs
  import opened Blocks
  import opened Consensus
  import opened StepProofs
  import opened ChainInvariant
  import opened FastReorg

  // ------------------------------------------------------ shared history --

  lemma {:induction false} CommonBounds(hashes: seq<Hash>, blocks: seq<Block>)
    ensures CommonPrefix(hashes, blocks) <= |hashes| && CommonPrefix(hashes, blocks) <= |blocks|
    ensures forall i :: 0 <= i < CommonPrefix(hashes, blocks) ==> HashOf(blocks[i]) == hashes[i]
    decreases |blocks|
  {
    if hashes == [] || blocks == [] || HashOf(blocks[0]) != hashes[0] {
    } else {
      CommonBounds(hashes[1..], blocks[1..]);
      forall i | 0 <= i < CommonPrefix(hashes, blocks) ensures HashOf(blocks[i]) == hashes[i] {
        if i > 0 {
          assert blocks[i] == blocks[1..][i - 1] && hashes[i] == hashes[1..][i - 1];
        }
      }
    }
  }

  /** Our own leading blocks are common; what follows decides. */
  lemma {:induction false} CommonOfOwn(hashes: seq<Hash>, own: seq<Block>, rest: seq<Block>)
    requires |own| <= |hashes| && forall i :: 0 <= i < |own| ==> HashOf(own[i]) == hashes[i]
    ensures CommonPrefix(hashes, own + rest) == |own| + CommonPrefix(hashes[|own|..], rest)
    decreases |own|
  {
    if own == [] {
      assert own + rest == rest && hashes[0..] == hashes;
    } else {
      assert (own + rest)[1..] == own[1..] + rest;
      assert hashes[1..][|own| - 1..] == hashes[|own|..];
      CommonOfOwn(hashes[1..], own[1..], rest);
    }
  }

  lemma {:induction false} CommonOfHistory(x: seq<Step>, f: nat, rest: seq<Block>)
    requires f <= |x|
    ensures CommonPrefix(Hashes(Compacts(x)), StepBlocks(x[..f]) + rest) == f + CommonPrefix(Hashes(Compacts(x))[f..], rest)
  {
    CommonOfOwn(Hashes(Compacts(x)), StepBlocks(x[..f]), rest);
  }

  // -------------------------------------------------- the decision, in steps --

  /** The last stage: a rebuilt candidate must satisfy the supply equation and win. */
  function Judge(start: ChainState, ourWork: nat, r: Result<seq<Step>, ConsensusError>): Result<Option<ChainState>, ConsensusError> {
    var c :- Pushed(start, r);
    var supply := VerifySupply(c.ledger);
    if supply.Fail? then Failure(LedgerFailed(supply.error))
    else if c.totalWork > ourWork then Success(Some(c))
    else Success(None)
  }

  function StartOf(cfg: Config, base: Option<PrunedBase>): ChainState {
    if base.Some? then PrunedStart(cfg, base.value) else NewFair(cfg)
  }

  /** How many leading blocks the evaluation takes on trust. */
  function TrustedOf(cfg: Config, base: Option<PrunedBase>, window: nat, n: nat): nat {
    if base.Some? || window >= AssumeValidTo(cfg, n) then window else AssumeValidTo(cfg, n)
  }

  lemma {:induction false} EvaluateSteps(cfg: Config, ourWork: nat, ours: seq<Hash>, base: Option<PrunedBase>, blocks: seq<Block>, now: u64)
    requires blocks != [] && blocks[0].header.height == StartOf(cfg, base).firstHeight
    requires StartOf(cfg, base).totalWork + WorkOf(blocks) > ourWork
    ensures StartOf(cfg, base).blocks == []
    ensures EvaluateReorg(cfg, ourWork, ours, base, blocks, now)
            == (var start := StartOf(cfg, base);
                if start.firstHeight > |ours| then Failure(ReorgTooDeep)
                else
                  var window := CommonPrefix(ours[start.firstHeight..], blocks);
                  if |ours| - (start.firstHeight + window) > MAX_REORG_DEPTH then Failure(ReorgTooDeep)
                  else Judge(start, ourWork,
                             RebuiltSteps(cfg, start.headers, start.ledger, blocks, TrustedOf(cfg, base, window, |blocks|), now)))
  {
    hide RebuiltSteps, RebuildFrom, Rebuild, VerifySupply, WorkOf, CommonPrefix, PushAll, TrustedOf, NewFair, PrunedStart, Pushed;
    StartShape(cfg, base);
    var start := StartOf(cfg, base);
    if start.firstHeight <= |ours| {
      RebuildInSteps(cfg, base, blocks, CommonPrefix(ours[start.firstHeight..], blocks), now);
    }
  }

  lemma {:induction false} StartShape(cfg: Config, base: Option<PrunedBase>)
    ensures var start := StartOf(cfg, base);
            && start.blocks == []
            && start.firstHeight == (if base.Some? then base.value.firstHeight else 0)
            && start.totalWork == (if base.Some? then base.value.horizonWork else 0)
  {
  }

  lemma {:induction false} RebuildInSteps(cfg: Config, base: Option<PrunedBase>, blocks: seq<Block>, window: nat, now: u64)
    ensures (if base.Some? then RebuildFrom(cfg, PrunedStart(cfg, base.value), blocks, window, now) else Rebuild(cfg, blocks, window, now))
            == (var start := StartOf(cfg, base);
                Pushed(start, RebuiltSteps(cfg, start.headers, start.ledger, blocks, TrustedOf(cfg, base, window, |blocks|), now)))
  {
    hide RebuiltSteps, RebuildFrom, AssumeValidTo, NewFair, PrunedStart;
    StartShape(cfg, base);
    RebuildFromSteps(cfg, StartOf(cfg, base), blocks, TrustedOf(cfg, base, window, |blocks|), now);
  }

  lemma {:induction false} NotWinning(cfg: Config, ourWork: nat, ours: seq<Hash>, base: Option<PrunedBase>, blocks: seq<Block>, now: u64)
    requires blocks == [] || blocks[0].header.height == StartOf(cfg, base).firstHeight
    requires StartOf(cfg, base).totalWork + WorkOf(blocks) <= ourWork
    ensures EvaluateReorg(cfg, ourWork, ours, base, blocks, now) == Success(None)
  {
    hide WorkOf, CommonPrefix, ForNetwork;
  }

  lemma {:induction false} NothingCommon(hashes: seq<Hash>, blocks: seq<Block>)
    requires hashes == [] || blocks == [] || HashOf(blocks[0]) != hashes[0]
    ensures CommonPrefix(hashes, blocks) == 0
  {
  }

  // ------------------------------------------------- rebuilt candidates --

  /** A rebuild on top of a history: the trusted part p and the fully validated part q. */
  lemma {:induction false} RebuiltParts(cfg: Config, x: seq<Step>, blocks: seq<Block>, t: nat, now: u64) returns (p: seq<Step>, q: seq<Step>)
    requires RebuiltSteps(cfg, Compacts(x), LedgerAt(cfg, x, |x|), blocks, t, now).Success?
    ensures var k := if t <= |blocks| then t else |blocks|;
            && StepsOf(cfg, OwnDisk, Compacts(x), LedgerAt(cfg, x, |x|), blocks[..k]) == Success(p) && |p| == k
            && StepsOf(cfg, Full(now), Compacts(x + p), LedgerAt(cfg, x + p, |x + p|), blocks[k..]) == Success(q)
            && (t > 0 ==> PrefixRoots(p).Pass?)
    ensures RebuiltSteps(cfg, Compacts(x), LedgerAt(cfg, x, |x|), blocks, t, now).value == p + q
  {
    hide StepsOf, RootsMatch, Compacts, LedgerAt;
    var hs, l := Compacts(x), LedgerAt(cfg, x, |x|);
    var k := if t <= |blocks| then t else |blocks|;
    p := StepsOf(cfg, OwnDisk, hs, l, blocks[..k]).value;
    StepsLength(cfg, OwnDisk, hs, l, blocks[..k]);
    HistoryEnd(cfg, x, p);
    q := StepsOf(cfg, Full(now), hs + Compacts(p), EndLedger(l, p), blocks[k..]).value;
  }

  lemma {:induction false} RebuiltShape(cfg: Config, x: seq<Step>, blocks: seq<Block>, t: nat, now: u64)
    requires RebuiltSteps(cfg, Compacts(x), LedgerAt(cfg, x, |x|), blocks, t, now).Success?
    ensures var z := RebuiltSteps(cfg, Compacts(x), LedgerAt(cfg, x, |x|), blocks, t, now).value;
            && |z| == |blocks|
            && (forall i :: 0 <= i < |z| ==> z[i].block == Normal(cfg, blocks[i]))
            && UndoWork(Undos(z)) == WorkOf(blocks)
            && (t > 0 ==> PrefixRoots(if t <= |z| then z[..t] else z).Pass?)
  {
    hide StepsOf, RebuiltSteps, RootsMatch, Normal, UndoWork, WorkOf, Compacts, Undos, LedgerAt;
    var p, q := RebuiltParts(cfg, x, blocks, t, now);
    var k := |p|;
    StepsWork(cfg, OwnDisk, Compacts(x), LedgerAt(cfg, x, |x|), blocks[..k]);
    StepsWork(cfg, Full(now), Compacts(x + p), LedgerAt(cfg, x + p, |x + p|), blocks[k..]);
    assert blocks == blocks[..k] + blocks[k..];
    WorkConcat(blocks[..k], blocks[k..]);
    UndosConcat(p, q);
    assert (p + q)[..k] == p;
    assert k == |blocks| ==> p + q == p;
  }

  /** A rebuild on top of a history extends it; beyond the trusted blocks everything was checked in full. */
  lemma {:induction false} RebuiltHistory(cfg: Config, x: seq<Step>, blocks: seq<Block>, t: nat, now: u64)
    requires History(cfg, x) && RebuiltSteps(cfg, Compacts(x), LedgerAt(cfg, x, |x|), blocks, t, now).Success?
    ensures var z := RebuiltSteps(cfg, Compacts(x), LedgerAt(cfg, x, |x|), blocks, t, now).value;
            && |z| == |blocks|
            && (forall i :: 0 <= i < |z| ==> z[i].block == Normal(cfg, blocks[i]))
            && UndoWork(Undos(z)) == WorkOf(blocks)
            && History(cfg, x + z)
            && (forall i :: |x| + t <= i < |x + z| ==> CheckedAt(cfg, x + z, i))
            && (t > 0 ==> PrefixRoots(if t <= |z| then z[..t] else z).Pass?)
  {
    hide StepsOf, RebuiltSteps, History, StepAt, CheckedAt, PrefixRoots, Normal, UndoWork, WorkOf, Compacts, Undos, LedgerAt;
    RebuiltShape(cfg, x, blocks, t, now);
    var p, q := RebuiltParts(cfg, x, blocks, t, now);
    HistoryExtends(cfg, OwnDisk, x, blocks[..|p|]);
    HistoryExtends(cfg, Full(now), x + p, blocks[|p|..]);
    assert x + (p + q) == (x + p) + q;
  }

  lemma {:induction false} UndosConcat(p: seq<Step>, q: seq<Step>)
    ensures UndoWork(Undos(p + q)) == UndoWork(Undos(p)) + UndoWork(Undos(q))
  {
    hide UndoWork;
    assert Undos(p + q) == Undos(p) + Undos(q);
    UndoWorkConcat(Undos(p), Undos(q));
  }

  lemma {:induction false} HistoryEnd(cfg: Config, x: seq<Step>, p: seq<Step>)
    ensures Compacts(x) + Compacts(p) == Compacts(x + p)
    ensures EndLedger(LedgerAt(cfg, x, |x|), p) == LedgerAt(cfg, x + p, |x + p|)
  {
    assert x[..|x|] == x && (x + p)[..|x + p|] == x + p;
    EndOfConcat([], ForNetwork(cfg.network), x, p);
  }

  /** Two decisions agree: the same error, the same refusal, or the same winning chain. */
  ghost predicate SameVerdict(a: Result<Option<ChainState>, ConsensusError>, b: Result<Option<ChainState>, ConsensusError>) {
    match (a, b)
    case (Failure(e), Failure(f)) => e == f
    case (Success(None), Success(None)) => true
    case (Success(Some(c)), Success(Some(d))) => SameChain(c, d)
    case _ => false
  }

  // -------------------------------------------------- the fast verdict --

  /** The fast path's verdict as a chain. */
  ghost function FastVerdict(cfg: Config, x: seq<Step>, a: nat, suffix: seq<Block>, now: u64): Result<Option<ChainState>, ConsensusError>
    requires a < |x|
  {
    if UndoWork(Undos(x[..a + 1])) + WorkOf(suffix) <= UndoWork(Undos(x)) then Success(None)
    else
      var y :- SuffixSteps(cfg, x, a, suffix, now);
      Success(Some(ArchiveOf(cfg, x[..a + 1] + y)))
  }

  lemma {:induction false} JudgedSuffix(cfg: Config, x: seq<Step>, a: nat, suffix: seq<Block>, now: u64)
    requires History(cfg, x) && a < |x| && suffix != []
    requires UndoWork(Undos(x[..a + 1])) + WorkOf(suffix) > UndoWork(Undos(x))
    ensures Judge(NewFair(cfg), UndoWork(Undos(x)), Prepend(x[..a + 1], SuffixSteps(cfg, x, a, suffix, now)))
            == FastVerdict(cfg, x, a, suffix, now)
  {
    hide StepsOf, PushAll, UndoWork, WorkOf, VerifySupply, History, Compacts, Undos, LedgerAt;
    if SuffixSteps(cfg, x, a, suffix, now).Success? {
      var y := SuffixSteps(cfg, x, a, suffix, now).value;
      var z := x[..a + 1] + y;
      PushAllFields(NewFair(cfg), z);
      FullRunEnd(cfg, Compacts(x[..a + 1]), LedgerAt(cfg, x, a + 1), suffix, now);
      StepsWork(cfg, Full(now), Compacts(x[..a + 1]), LedgerAt(cfg, x, a + 1), suffix);
      UndosConcat(x[..a + 1], y);
      EndsAlike(ForNetwork(cfg.network), LedgerAt(cfg, x, a + 1), x[..a + 1], y);
    }
  }

  lemma {:induction false} EndsAlike(l: Ledger, other: Ledger, x: seq<Step>, y: seq<Step>)
    requires y != []
    ensures EndLedger(l, x + y) == EndLedger(other, y)
  {
  }

  /** Declared work is the work of the shared part plus the suffix. */
  lemma {:induction false} ClaimedWork(cfg: Config, x: seq<Step>, f: nat, rest: seq<Block>)
    requires History(cfg, x) && f <= |x|
    ensures WorkOf(StepBlocks(x[..f]) + rest) == UndoWork(Undos(x[..f])) + WorkOf(rest)
  {
    hide WorkOf, UndoWork, History;
    HistoryPrefix(cfg, x, f);
    WorkOfHistory(cfg, x[..f]);
    WorkConcat(StepBlocks(x[..f]), rest);
  }

  lemma {:induction false} FirstOfHistory(cfg: Config, x: seq<Step>, f: nat, rest: seq<Block>)
    requires History(cfg, x) && 0 < f <= |x|
    ensures (StepBlocks(x[..f]) + rest)[0].header.height == 0
  {
    hide History;
    HistoryLinks(cfg, x, 0);
  }

  /**
    The blocks of a tail that only a reached pin vouches for, those past our first f blocks and the w after them
    that are taken on trust anyway, pass when they are judged in full.  Without such blocks this is nothing to ask.
   */
  ghost predicate PinnedPartPasses(cfg: Config, x: seq<Step>, f: nat, tail: seq<Block>, w: nat, now: u64)
    requires f <= |x|
  {
    var t := AssumeValidTo(cfg, f + |tail|);
    t <= f + w || (t - f <= |tail| && RebuiltSteps(cfg, Compacts(x[..f]), LedgerAt(cfg, x, f), tail[..t - f], w, now).Success?)
  }

  /** A pin that vouches only for blocks that pass anyway does not change what replay from genesis gives. */
  lemma {:induction false} PinnedAlike(cfg: Config, x: seq<Step>, f: nat, tail: seq<Block>, w: nat, now: u64)
    requires History(cfg, x) && f <= |x| && w <= |tail| && PrefixRoots(x[..f]).Pass? && PinnedPartPasses(cfg, x, f, tail, w, now)
    ensures var blocks := StepBlocks(x[..f]) + tail;
            RebuiltSteps(cfg, [], ForNetwork(cfg.network), blocks, TrustedOf(cfg, None, f + w, |blocks|), now)
            == RebuiltSteps(cfg, [], ForNetwork(cfg.network), blocks, f + w, now)
  {
    hide History, RebuiltSteps, PrefixRoots, AssumeValidTo, LedgerAt, Compacts, ForNetwork;
    var blocks := StepBlocks(x[..f]) + tail;
    var t := AssumeValidTo(cfg, |blocks|);
    if t > f + w {
      assert blocks[..t] == StepBlocks(x[..f]) + tail[..t - f];
      PrependHistory(cfg, x, f, tail[..t - f], w, now);
      WidenPinned(cfg, [], ForNetwork(cfg.network), blocks, f + w, t, now);
    }
  }

  /** A tail that passes as a whole passes in its pinned part. */
  lemma {:induction false} PassedIsPinned(cfg: Config, x: seq<Step>, f: nat, tail: seq<Block>, w: nat, now: u64)
    requires f <= |x| && w <= |tail| && RebuiltSteps(cfg, Compacts(x[..f]), LedgerAt(cfg, x, f), tail, w, now).Success?
    ensures PinnedPartPasses(cfg, x, f, tail, w, now)
  {
    hide RebuiltSteps, LedgerAt, Compacts;
    var t := AssumeValidTo(cfg, f + |tail|);
    if t > f + w {
      RebuiltPrefix(cfg, Compacts(x[..f]), LedgerAt(cfg, x, f), tail, w, t - f, now);
    }
  }

  /** How many headers of our own a list repeats, past our first f blocks. */
  ghost function Shared(x: seq<Step>, f: nat, tail: seq<Block>): nat
    requires f <= |x|
  {
    CommonPrefix(Hashes(Compacts(x))[f..], tail)
  }

  /**
    The blocks of a tail that only the slow path takes on trust, be it for repeating our own headers or for a reached
    pin, pass when they are judged in full.  For a tail that forks at once and reaches no pin this is nothing to ask.
   */
  ghost predicate TrustedPartPasses(cfg: Config, x: seq<Step>, f: nat, tail: seq<Block>, now: u64)
    requires f <= |x|
  {
    var t := TrustedOf(cfg, None, f + Shared(x, f, tail), f + |tail|);
    t <= f || (t - f <= |tail| && RebuiltSteps(cfg, Compacts(x[..f]), LedgerAt(cfg, x, f), tail[..t - f], 0, now).Success?)
  }

  /** A tail that forks at once is trusted by nothing but a pin. */
  lemma {:induction false} ForkingPart(cfg: Config, x: seq<Step>, f: nat, tail: seq<Block>, now: u64)
    requires f <= |x| && (f == |x| || tail == [] || HashOf(tail[0]) != HashOf(x[f].block))
    ensures TrustedPartPasses(cfg, x, f, tail, now) <==> PinnedPartPasses(cfg, x, f, tail, 0, now)
  {
    hide RebuiltSteps, AssumeValidTo, CommonPrefix, HashOf;
    NothingCommon(Hashes(Compacts(x))[f..], tail);
  }

  /** Blocks that pass anyway may as well be trusted. */
  lemma {:induction false} TrustedAlike(cfg: Config, x: seq<Step>, f: nat, tail: seq<Block>, now: u64)
    requires History(cfg, x) && f <= |x| && PrefixRoots(x[..f]).Pass? && TrustedPartPasses(cfg, x, f, tail, now)
    ensures var blocks := StepBlocks(x[..f]) + tail;
            RebuiltSteps(cfg, [], ForNetwork(cfg.network), blocks, TrustedOf(cfg, None, f + Shared(x, f, tail), |blocks|), now)
            == RebuiltSteps(cfg, [], ForNetwork(cfg.network), blocks, f, now)
  {
    hide History, RebuiltSteps, PrefixRoots, AssumeValidTo, LedgerAt, Compacts, ForNetwork, Shared;
    var blocks := StepBlocks(x[..f]) + tail;
    var t := TrustedOf(cfg, None, f + Shared(x, f, tail), |blocks|);
    if t > f {
      assert blocks[..t] == StepBlocks(x[..f]) + tail[..t - f];
      PrependHistory(cfg, x, f, tail[..t - f], 0, now);
      WidenPinned(cfg, [], ForNetwork(cfg.network), blocks, f, t, now);
    }
  }

  /** A tail that passes as a whole passes in the part that is trusted. */
  lemma {:induction false} PassedIsTrusted(cfg: Config, x: seq<Step>, f: nat, tail: seq<Block>, now: u64)
    requires f <= |x| && RebuiltSteps(cfg, Compacts(x[..f]), LedgerAt(cfg, x, f), tail, 0, now).Success?
    ensures TrustedPartPasses(cfg, x, f, tail, now)
  {
    hide RebuiltSteps, LedgerAt, CommonPrefix;
    CommonBounds(Hashes(Compacts(x))[f..], tail);
    var t := TrustedOf(cfg, None, f + Shared(x, f, tail), f + |tail|);
    if t > f {
      RebuiltPrefix(cfg, Compacts(x[..f]), LedgerAt(cfg, x, f), tail, 0, t - f, now);
    }
  }

  /**
    Evaluating our first a+1 blocks and a suffix, from genesis and under every check of `evaluate_reorg`, gives the
    verdict of the fast path from ancestor a: same errors, same refusals, same chain.  The blocks that the slow path alone
    takes on trust, for a pin or for repeating our own headers, make no difference when they pass in full.
   */
  lemma {:induction false} FastVerdictIsSlowVerdict(cfg: Config, x: seq<Step>, a: nat, suffix: seq<Block>, now: u64)
    requires History(cfg, x) && a < |x| && suffix != [] && PrefixRoots(x[..a + 1]).Pass?
    requires |x| - 1 - a <= MAX_REORG_DEPTH && TrustedPartPasses(cfg, x, a + 1, suffix, now)
    ensures EvaluateReorg(cfg, UndoWork(Undos(x)), Hashes(Compacts(x)), None, StepBlocks(x[..a + 1]) + suffix, now)
            == FastVerdict(cfg, x, a, suffix, now)
  {
    hide History, UndoWork, WorkOf, RebuiltSteps, AssumeValidTo, PrefixRoots, StepsOf, Judge, EvaluateReorg, CommonPrefix, TrustedOf,
         TrustedPartPasses;
    var blocks := StepBlocks(x[..a + 1]) + suffix;
    var ours := Hashes(Compacts(x));
    ClaimedWork(cfg, x, a + 1, suffix);
    FirstOfHistory(cfg, x, a + 1, suffix);
    CommonOfHistory(x, a + 1, suffix);
    assert ours[0..] == ours;
    if UndoWork(Undos(x[..a + 1])) + WorkOf(suffix) > UndoWork(Undos(x)) {
      EvaluateSteps(cfg, UndoWork(Undos(x)), ours, None, blocks, now);
      TrustedAlike(cfg, x, a + 1, suffix, now);
      SlowSteps(cfg, x, a, suffix, now);
      JudgedSuffix(cfg, x, a, suffix, now);
    } else {
      NotWinning(cfg, UndoWork(Undos(x)), ours, None, blocks, now);
    }
  }

  /**
    The fast path is never the looser one: whatever it lets through, or finds too light, the slow path decides in
    the same way, whatever the slow path takes on trust.
   */
  lemma {:induction false} FastNeverLooser(cfg: Config, x: seq<Step>, a: nat, suffix: seq<Block>, now: u64)
    requires History(cfg, x) && a < |x| && suffix != [] && PrefixRoots(x[..a + 1]).Pass?
    requires |x| - 1 - a <= MAX_REORG_DEPTH && FastVerdict(cfg, x, a, suffix, now).Success?
    ensures EvaluateReorg(cfg, UndoWork(Undos(x)), Hashes(Compacts(x)), None, StepBlocks(x[..a + 1]) + suffix, now)
            == FastVerdict(cfg, x, a, suffix, now)
  {
    hide History, UndoWork, WorkOf, RebuiltSteps, AssumeValidTo, PrefixRoots, StepsOf, Judge, EvaluateReorg, CommonPrefix,
         TrustedPartPasses;
    if UndoWork(Undos(x[..a + 1])) + WorkOf(suffix) > UndoWork(Undos(x)) {
      ZeroTrust(cfg, Compacts(x[..a + 1]), LedgerAt(cfg, x, a + 1), suffix, now);
      PassedIsTrusted(cfg, x, a + 1, suffix, now);
      FastVerdictIsSlowVerdict(cfg, x, a, suffix, now);
    } else {
      ClaimedWork(cfg, x, a + 1, suffix);
      FirstOfHistory(cfg, x, a + 1, suffix);
      NotWinning(cfg, UndoWork(Undos(x)), Hashes(Compacts(x)), None, StepBlocks(x[..a + 1]) + suffix, now);
    }
  }

  /** Of the candidates the slow path returns, the fast path returns exactly those whose trusted part passes in full. */
  lemma {:induction false} FastFollowsExactly(cfg: Config, x: seq<Step>, a: nat, suffix: seq<Block>, now: u64)
    requires History(cfg, x) && a < |x| && suffix != [] && PrefixRoots(x[..a + 1]).Pass?
    requires |x| - 1 - a <= MAX_REORG_DEPTH
    requires var slow := EvaluateReorg(cfg, UndoWork(Undos(x)), Hashes(Compacts(x)), None, StepBlocks(x[..a + 1]) + suffix, now);
             slow.Success? && slow.value.Some?
    ensures EvaluateReorg(cfg, UndoWork(Undos(x)), Hashes(Compacts(x)), None, StepBlocks(x[..a + 1]) + suffix, now)
            == FastVerdict(cfg, x, a, suffix, now)
            <==> TrustedPartPasses(cfg, x, a + 1, suffix, now)
  {
    hide History, UndoWork, WorkOf, RebuiltSteps, AssumeValidTo, PrefixRoots, StepsOf, EvaluateReorg, TrustedPartPasses, ArchiveOf;
    if FastVerdict(cfg, x, a, suffix, now).Success? && FastVerdict(cfg, x, a, suffix, now).value.Some? {
      ZeroTrust(cfg, Compacts(x[..a + 1]), LedgerAt(cfg, x, a + 1), suffix, now);
      PassedIsTrusted(cfg, x, a + 1, suffix, now);
    }
    if TrustedPartPasses(cfg, x, a + 1, suffix, now) {
      FastVerdictIsSlowVerdict(cfg, x, a, suffix, now);
    }
  }

  /** The reorganisation the fast path carries is the candidate the slow path built. */
  ghost predicate SameDecision(own: seq<Block>, fast: Result<Option<SuffixReorg>, ConsensusError>,
                               slow: Result<Option<ChainState>, ConsensusError>)
  {
    match (fast, slow)
    case (Failure(e), Failure(f)) => e == f
    case (Success(None), Success(None)) => true
    case (Success(Some(r)), Success(Some(c))) =>
      && r.headers == c.headers && r.ledger == c.ledger && r.totalWork == c.totalWork && c.blocks == own + r.suffix
      && |r.undos| <= |c.undos| && r.undos == c.undos[|c.undos| - |r.undos|..]
    case _ => false
  }

  lemma {:induction false} CarriedIsBuilt(cfg: Config, x: seq<Step>, a: nat, y: seq<Step>)
    requires a < |x|
    ensures var r, c := ReorgOf(cfg, x, a, y), ArchiveOf(cfg, x[..a + 1] + y);
            && r.headers == c.headers && r.ledger == c.ledger && r.totalWork == c.totalWork
            && c.blocks == StepBlocks(x[..a + 1]) + r.suffix
            && |r.undos| <= |c.undos| && r.undos == c.undos[|c.undos| - |r.undos|..]
  {
    hide PushAll, UndoWork, TipHash;
    var z := x[..a + 1] + y;
    PushAllFields(NewFair(cfg), z);
    PushAllUndos(NewFair(cfg), z);
    EndOfConcat([], ForNetwork(cfg.network), x[..a + 1], y);
    assert Undos(z) == Undos(x[..a + 1]) + Undos(y);
    assert [] + Undos(z) == Undos(z);
  }

  /**
    On a chain of fully validated blocks, the fast path decides a suffix exactly as the slow path decides
    the whole candidate: the same error, the same refusal, or the same new chain.
   */
  lemma {:induction false} FastDecidesLikeSlow(cfg: Config, s: ChainState, x: seq<Step>, a: nat, suffix: seq<Block>, now: u64)
    requires Inv(cfg, s, x) && Verified(cfg, x) && PrepareSuffixTrial(cfg, s, a).Success? && a < |x|
    requires suffix != [] && TrustedPartPasses(cfg, x, a + 1, suffix, now)
    ensures SameDecision(StepBlocks(x[..a + 1]),
                         FinishSuffix(cfg, PrepareSuffixTrial(cfg, s, a).value, suffix, now),
                         EvaluateReorg(cfg, s.totalWork, Hashes(s.headers), None, StepBlocks(x[..a + 1]) + suffix, now))
  {
    hide PrepareSuffixTrial, FinishSuffix, EvaluateReorg, History, Verified, StepsOf, UndoWork, WorkOf, ReorgOf, ArchiveOf,
         PreparedAt, Window, LedgerAt, AssumeValidTo, PrefixRoots, FreshAt, TailUndos, Hashes, Compacts, StepBlocks, Undos,
         TrustedPartPasses;
    VerifiedFacts(cfg, x);
    PrepareFresh(cfg, s, x, a);
    UndosBounded(s.undos, x);
    FinishExact(cfg, x, a, suffix, now);
    VerifiedRoots(cfg, x, a);
    FastVerdictIsSlowVerdict(cfg, x, a, suffix, now);
    if SuffixSteps(cfg, x, a, suffix, now).Success? {
      CarriedIsBuilt(cfg, x, a, SuffixSteps(cfg, x, a, suffix, now).value);
    }
  }

  // ------------------------------------------------- pruned and archive --

  lemma {:induction false} LedgerParameters(cfg: Config, x: seq<Step>, i: nat)
    requires History(cfg, x) && i <= |x|
    ensures LedgerAt(cfg, x, i).bindingHeight == BindingForkHeight(cfg.network)
    ensures LedgerAt(cfg, x, i).maturity == CoinbaseMaturity(cfg.network)
    decreases i
  {
    hide History, Subsidy, CaptureUndo, CheckSpends, NextSupply, NextKernelSum, DecodeOffset, CoinbaseKernels, InsertOutputs;
    if i > 0 {
      LedgerParameters(cfg, x, i - 1);
      HistoryLinks(cfg, x, i - 1);
      assert x[..i][i - 1] == x[i - 1];
    }
  }

  /** What a pruned chain hands to the evaluation. */
  lemma {:induction false} BaseOfPruned(cfg: Config, s: ChainState, x: seq<Step>)
    requires Inv(cfg, s, x) && s.firstHeight > 0
    ensures BaseOf(s).Some?
    ensures var f, start := s.firstHeight, StartOf(cfg, BaseOf(s));
            && f <= |x| && start.firstHeight == f && start.headers == Compacts(x[..f]) && start.ledger == LedgerAt(cfg, x, f)
            && start.totalWork == UndoWork(Undos(x[..f]))
            && Inv(cfg, start, x[..f])
  {
    hide History, UndoWork;
    var f := s.firstHeight;
    LedgerParameters(cfg, x, f);
    HistoryPrefix(cfg, x, f);
    assert x[..f][..f] == x[..f];
    assert x[..f][f..] == [] && StepBlocks([]) == [];
    assert Compacts(x)[..f] == Compacts(x[..f]);
    assert |x[..f]| == f && Undos(x[..f][f..]) == [];
  }

  /** Pruned or not, an evaluation starts from a state of our own history. */
  lemma {:induction false} BaseOk(cfg: Config, s: ChainState, x: seq<Step>)
    requires Inv(cfg, s, x)
    ensures var f := StartOf(cfg, BaseOf(s)).firstHeight; f <= |x| && Inv(cfg, StartOf(cfg, BaseOf(s)), x[..f])
  {
    hide History, Window, TailUndos, UndoWork, Inv;
    if s.firstHeight > 0 {
      BaseOfPruned(cfg, s, x);
    } else {
      NewFairInv(cfg);
      assert x[..0] == [];
    }
  }

  /** A chain pushed onto a pruned start and the archive of the same history are the same chain. */
  lemma {:induction false} JudgedAlike(cfg: Config, s: ChainState, x: seq<Step>, ourWork: nat, z: Result<seq<Step>, ConsensusError>)
    requires Inv(cfg, s, x) && s.firstHeight > 0
    requires z.Success? ==> History(cfg, x[..s.firstHeight] + z.value)
    ensures SameVerdict(Judge(StartOf(cfg, BaseOf(s)), ourWork, z),
                        Judge(NewFair(cfg), ourWork, Prepend(x[..s.firstHeight], z)))
  {
    hide History, UndoWork, PushAll, VerifySupply, Window, TailUndos, BaseOf, StartOf, SameChain, Undos, Compacts, LedgerAt;
    BaseOfPruned(cfg, s, x);
    if z.Success? {
      var start := StartOf(cfg, BaseOf(s));
      var b := x[..s.firstHeight];
      PushedInv(cfg, start, b, z.value);
      SameHistorySameChain(cfg, PushAll(start, z.value), b + z.value);
      SameChainFields(PushAll(start, z.value), ArchiveOf(cfg, b + z.value));
    }
  }

  lemma {:induction false} SameChainFields(a: ChainState, b: ChainState)
    requires SameChain(a, b)
    ensures a.ledger == b.ledger && a.totalWork == b.totalWork
  {
  }

  lemma {:induction false} PushedInv(cfg: Config, s: ChainState, x: seq<Step>, y: seq<Step>)
    requires Inv(cfg, s, x) && History(cfg, x + y)
    ensures Inv(cfg, PushAll(s, y), x + y)
  {
    hide History, PushAll, UndoWork, Window, Newest, Undos, Compacts, LedgerAt;
    UndosBounded(s.undos, x);
    PushAllFields(s, y);
    PushAllUndos(s, y);
    PushInv(cfg, s, x, y, PushAll(s, y));
  }

  lemma {:induction false} HistoryAtEnd(cfg: Config, x: seq<Step>, f: nat)
    requires f <= |x|
    ensures LedgerAt(cfg, x[..f], |x[..f]|) == LedgerAt(cfg, x, f)
  {
    assert x[..f][..f] == x[..f];
  }

  /** The steps a candidate takes on a pruned node extend the history below the horizon. */
  lemma {:induction false} TailExtends(cfg: Config, x: seq<Step>, f: nat, tail: seq<Block>, w: nat, now: u64)
    requires History(cfg, x) && f <= |x|
    ensures var z := RebuiltSteps(cfg, Compacts(x[..f]), LedgerAt(cfg, x, f), tail, w, now);
            z.Success? ==> History(cfg, x[..f] + z.value)
  {
    hide History, RebuiltSteps, LedgerAt, Compacts, StepsOf, PrefixRoots;
    HistoryPrefix(cfg, x, f);
    HistoryAtEnd(cfg, x, f);
    if RebuiltSteps(cfg, Compacts(x[..f]), LedgerAt(cfg, x, f), tail, w, now).Success? {
      RebuiltHistory(cfg, x[..f], tail, w, now);
    }
  }

  /**
    Pruning is invisible to fork choice.  For a candidate that shares our blocks below the horizon, judging
    its tail from the pruned base gives the verdict of judging all of it on an archive node.  A pin above the
    fork, which only the archive node heeds, makes no difference when the blocks it vouches for pass in full.
   */
  lemma {:induction false} PrunedDecidesLikeArchive(cfg: Config, s: ChainState, x: seq<Step>, tail: seq<Block>, now: u64)
    requires Inv(cfg, s, x) && s.firstHeight > 0 && PrefixRoots(x[..s.firstHeight]).Pass?
    requires tail != [] ==> tail[0].header.height == s.firstHeight
    requires PinnedPartPasses(cfg, x, s.firstHeight, tail, CommonPrefix(Hashes(s.headers)[s.firstHeight..], tail), now)
    ensures SameVerdict(EvaluateReorg(cfg, s.totalWork, Hashes(s.headers), BaseOf(s), tail, now),
                        EvaluateReorg(cfg, s.totalWork, Hashes(s.headers), None, StepBlocks(x[..s.firstHeight]) + tail, now))
  {
    hide History, UndoWork, WorkOf, RebuiltSteps, AssumeValidTo, PrefixRoots, Judge, EvaluateReorg, CommonPrefix, Window, TailUndos,
         BaseOf, StartOf, LedgerAt, Undos, PinnedPartPasses;
    var f := s.firstHeight;
    var ours := Hashes(s.headers);
    BaseOfPruned(cfg, s, x);
    var blocks := StepBlocks(x[..f]) + tail;
    ArchiveStart(cfg);
    ClaimedWork(cfg, x, f, tail);
    FirstOfHistory(cfg, x, f, tail);
    CommonOfHistory(x, f, tail);
    var w := CommonPrefix(ours[f..], tail);
    CommonBounds(ours[f..], tail);
    assert ours[0..] == ours;
    if UndoWork(Undos(x[..f])) + WorkOf(tail) > s.totalWork {
      TailNotEmpty(cfg, s, x, tail);
      EvaluateSteps(cfg, s.totalWork, ours, BaseOf(s), tail, now);
      EvaluateSteps(cfg, s.totalWork, ours, None, blocks, now);
      PinnedAlike(cfg, x, f, tail, w, now);
      PrependHistory(cfg, x, f, tail, w, now);
      TailExtends(cfg, x, f, tail, w, now);
      JudgedAlike(cfg, s, x, s.totalWork, RebuiltSteps(cfg, Compacts(x[..f]), LedgerAt(cfg, x, f), tail, w, now));
    } else {
      NotWinning(cfg, s.totalWork, ours, BaseOf(s), tail, now);
      NotWinning(cfg, s.totalWork, ours, None, blocks, now);
    }
  }

  /** Of the candidates the archive node returns, the pruned node returns exactly those whose pinned part passes in full. */
  lemma {:induction false} PrunedFollowsExactly(cfg: Config, s: ChainState, x: seq<Step>, tail: seq<Block>, now: u64)
    requires Inv(cfg, s, x) && s.firstHeight > 0 && PrefixRoots(x[..s.firstHeight]).Pass?
    requires tail != [] ==> tail[0].header.height == s.firstHeight
    requires var archive := EvaluateReorg(cfg, s.totalWork, Hashes(s.headers), None, StepBlocks(x[..s.firstHeight]) + tail, now);
             archive.Success? && archive.value.Some?
    ensures SameVerdict(EvaluateReorg(cfg, s.totalWork, Hashes(s.headers), BaseOf(s), tail, now),
                        EvaluateReorg(cfg, s.totalWork, Hashes(s.headers), None, StepBlocks(x[..s.firstHeight]) + tail, now))
            <==> PinnedPartPasses(cfg, x, s.firstHeight, tail, CommonPrefix(Hashes(s.headers)[s.firstHeight..], tail), now)
  {
    hide History, UndoWork, WorkOf, RebuiltSteps, AssumeValidTo, PrefixRoots, EvaluateReorg, CommonPrefix, TailUndos, BaseOf, StartOf,
         LedgerAt, Undos, PinnedPartPasses, SameChain, PushAll, VerifySupply;
    BaseOfPruned(cfg, s, x);
    var ours := Hashes(s.headers);
    var w := CommonPrefix(ours[s.firstHeight..], tail);
    var pruned := EvaluateReorg(cfg, s.totalWork, ours, BaseOf(s), tail, now);
    if pruned.Success? && pruned.value.Some? {
      AdoptableSteps(cfg, s.totalWork, ours, BaseOf(s), tail, now);
      CommonBounds(ours[s.firstHeight..], tail);
      PassedIsPinned(cfg, x, s.firstHeight, tail, w, now);
    }
    if PinnedPartPasses(cfg, x, s.firstHeight, tail, w, now) {
      PrunedDecidesLikeArchive(cfg, s, x, tail, now);
    }
  }

  lemma {:induction false} ArchiveStart(cfg: Config)
    ensures StartOf(cfg, None) == NewFair(cfg)
  {
  }

  lemma {:induction false} TailNotEmpty(cfg: Config, s: ChainState, x: seq<Step>, tail: seq<Block>)
    requires Inv(cfg, s, x) && s.firstHeight <= |x| && UndoWork(Undos(x[..s.firstHeight])) + WorkOf(tail) > s.totalWork
    ensures tail != []
  {
    hide UndoWork, History;
    var f := s.firstHeight;
    assert x == x[..f] + x[f..];
    UndosConcat(x[..f], x[f..]);
  }

  /** Both fail, both refuse, or both win. */
  ghost predicate SameKind(a: Result<Option<ChainState>, ConsensusError>, b: Result<Option<ChainState>, ConsensusError>) {
    && a.Failure? == b.Failure?
    && (a.Success? ==> a.value.Some? == b.value.Some?)
  }

  lemma {:induction false} SameVerdictSameKind(a: Result<Option<ChainState>, ConsensusError>, b: Result<Option<ChainState>, ConsensusError>)
    requires SameVerdict(a, b)
    ensures SameKind(a, b)
  {
  }

  /** A candidate whose next block has the wrong height never verifies on the archive node, however much of it is trusted. */
  lemma {:induction false} WrongHeightFails(cfg: Config, x: seq<Step>, f: nat, tail: seq<Block>, trusted: nat, now: u64)
    requires f <= |x| && tail != [] && tail[0].header.height != f
    ensures RebuiltSteps(cfg, [], ForNetwork(cfg.network), StepBlocks(x[..f]) + tail, trusted, now).Failure?
  {
    hide History, RebuiltSteps, StepsOf, PrefixRoots, Normal, ForNetwork, CheckedAt, UndoWork, WorkOf;
    var blocks := StepBlocks(x[..f]) + tail;
    NoHistory(cfg);
    assert Compacts([]) == [] && LedgerAt(cfg, [], 0) == ForNetwork(cfg.network);
    if RebuiltSteps(cfg, [], ForNetwork(cfg.network), blocks, trusted, now).Success? {
      var z := RebuiltSteps(cfg, [], ForNetwork(cfg.network), blocks, trusted, now).value;
      RebuiltHistory(cfg, [], blocks, trusted, now);
      assert [] + z == z;
      HistoryLinks(cfg, z, f);
      assert blocks[f] == tail[0];
      NormalIdempotent(cfg, tail[0]);
      assert false;
    }
  }

  /**
    Without the condition on the tail's height the two nodes agree in kind exactly when the tail is empty,
    starts at the horizon, or claims enough work: a light tail with a wrong height is an error on the
    pruned node and merely not heavier on the archive node.
   */
  lemma {:induction false} PrunedSameKindExactly(cfg: Config, s: ChainState, x: seq<Step>, tail: seq<Block>, now: u64)
    requires Inv(cfg, s, x) && s.firstHeight > 0 && PrefixRoots(x[..s.firstHeight]).Pass?
    requires tail == [] || tail[0].header.height == s.firstHeight ==>
               PinnedPartPasses(cfg, x, s.firstHeight, tail, CommonPrefix(Hashes(s.headers)[s.firstHeight..], tail), now)
    ensures SameKind(EvaluateReorg(cfg, s.totalWork, Hashes(s.headers), BaseOf(s), tail, now),
                     EvaluateReorg(cfg, s.totalWork, Hashes(s.headers), None, StepBlocks(x[..s.firstHeight]) + tail, now))
            <==> tail == [] || tail[0].header.height == s.firstHeight || s.horizonWork + WorkOf(tail) > s.totalWork
  {
    hide History, UndoWork, WorkOf, RebuiltSteps, AssumeValidTo, PrefixRoots, Judge, EvaluateReorg, CommonPrefix, TailUndos,
         BaseOf, StartOf, LedgerAt, Undos, SameVerdict, PinnedPartPasses;
    if tail == [] || tail[0].header.height == s.firstHeight {
      PrunedDecidesLikeArchive(cfg, s, x, tail, now);
      SameVerdictSameKind(EvaluateReorg(cfg, s.totalWork, Hashes(s.headers), BaseOf(s), tail, now),
                          EvaluateReorg(cfg, s.totalWork, Hashes(s.headers), None, StepBlocks(x[..s.firstHeight]) + tail, now));
    } else {
      BaseOfPruned(cfg, s, x);
      WrongHeightKinds(cfg, s, x, tail, now);
    }
  }

  lemma {:induction false} WrongHeightKinds(cfg: Config, s: ChainState, x: seq<Step>, tail: seq<Block>, now: u64)
    requires Inv(cfg, s, x) && s.firstHeight > 0 && PrefixRoots(x[..s.firstHeight]).Pass?
    requires tail != [] && tail[0].header.height != s.firstHeight
    ensures EvaluateReorg(cfg, s.totalWork, Hashes(s.headers), BaseOf(s), tail, now) == Failure(BadHeight)
    ensures var archive := EvaluateReorg(cfg, s.totalWork, Hashes(s.headers), None, StepBlocks(x[..s.firstHeight]) + tail, now);
            if s.horizonWork + WorkOf(tail) > s.totalWork then archive.Failure? else archive == Success(None)
  {
    hide History, UndoWork, WorkOf, RebuiltSteps, AssumeValidTo, PrefixRoots, EvaluateReorg, CommonPrefix, TailUndos,
         BaseOf, LedgerAt, Undos, PushAll, VerifySupply;
    var f := s.firstHeight;
    var blocks := StepBlocks(x[..f]) + tail;
    var ours := Hashes(s.headers);
    BaseOfPruned(cfg, s, x);
    BadHeightOfBase(cfg, s.totalWork, ours, BaseOf(s), tail, now);
    ClaimedWork(cfg, x, f, tail);
    FirstOfHistory(cfg, x, f, tail);
    CommonOfHistory(x, f, tail);
    assert ours[0..] == ours;
    if s.horizonWork + WorkOf(tail) > s.totalWork {
      WrongHeightFails(cfg, x, f, tail, TrustedOf(cfg, None, CommonPrefix(ours, blocks), |blocks|), now);
      EvaluateSteps(cfg, s.totalWork, ours, None, blocks, now);
    } else {
      NotWinning(cfg, s.totalWork, ours, None, blocks, now);
    }
  }

  lemma {:induction false} BadHeightOfBase(cfg: Config, ourWork: nat, ours: seq<Hash>, base: Option<PrunedBase>, blocks: seq<Block>, now: u64)
    requires blocks != [] && blocks[0].header.height != StartOf(cfg, base).firstHeight
    ensures EvaluateReorg(cfg, ourWork, ours, base, blocks, now) == Failure(BadHeight)
  {
    hide WorkOf, CommonPrefix, ForNetwork;
  }

  /** On every pruned node with a body in its window, one block of minimal work and a wrong height tells them apart. */
  lemma {:induction false} LightWrongHeightDiffers(cfg: Config, s: ChainState, x: seq<Step>, b: Block, now: u64)
    requires Inv(cfg, s, x) && 0 < s.firstHeight < |x| && PrefixRoots(x[..s.firstHeight]).Pass?
    requires b.header.height != s.firstHeight && b.header.difficulty <= 1
    ensures EvaluateReorg(cfg, s.totalWork, Hashes(s.headers), BaseOf(s), [b], now) == Failure(BadHeight)
    ensures EvaluateReorg(cfg, s.totalWork, Hashes(s.headers), None, StepBlocks(x[..s.firstHeight]) + [b], now) == Success(None)
  {
    hide History, AssumeValidTo, PrefixRoots, EvaluateReorg, TailUndos, BaseOf, LedgerAt;
    WrongHeightKinds(cfg, s, x, [b], now);
    assert WorkOf([b]) == 1 by { OneBlockWork(b); }
    WindowWork(cfg, x, s.firstHeight);
  }

  lemma {:induction false} OneBlockWork(b: Block)
    ensures WorkOf([b]) == Work(b.header.difficulty)
  {
    assert [b][..0] == [];
  }

  lemma {:induction false} WindowWork(cfg: Config, x: seq<Step>, f: nat)
    requires History(cfg, x) && f < |x|
    ensures UndoWork(Undos(x)) >= UndoWork(Undos(x[..f])) + 1
  {
    hide History, UndoWork, WorkOf;
    WorkOfHistory(cfg, x);
    ClaimedWork(cfg, x, f, StepBlocks(x[f..]));
    assert StepBlocks(x) == StepBlocks(x[..f]) + StepBlocks(x[f..]);
    WorkFits(StepBlocks(x[f..]));
  }

  // ------------------------------------------------- proof-of-work coverage --

  /** The steps of the candidate an evaluation builds, on top of the history it starts from. */
  function CandidateSteps(cfg: Config, ours: seq<Hash>, base: Option<PrunedBase>, blocks: seq<Block>, now: u64)
    : Result<seq<Step>, ConsensusError>
    requires StartOf(cfg, base).firstHeight <= |ours|
  {
    var start := StartOf(cfg, base);
    RebuiltSteps(cfg, start.headers, start.ledger, blocks,
                 TrustedOf(cfg, base, CommonPrefix(ours[start.firstHeight..], blocks), |blocks|), now)
  }

  lemma {:induction false} AdoptableSteps(cfg: Config, ourWork: nat, ours: seq<Hash>, base: Option<PrunedBase>, blocks: seq<Block>, now: u64)
    requires EvaluateReorg(cfg, ourWork, ours, base, blocks, now).Success?
    requires EvaluateReorg(cfg, ourWork, ours, base, blocks, now).value.Some?
    ensures var start := StartOf(cfg, base);
            var c := EvaluateReorg(cfg, ourWork, ours, base, blocks, now).value.value;
            && blocks != [] && blocks[0].header.height == start.firstHeight <= |ours|
            && |ours| - (start.firstHeight + CommonPrefix(ours[start.firstHeight..], blocks)) <= MAX_REORG_DEPTH
            && CandidateSteps(cfg, ours, base, blocks, now).Success?
            && c == PushAll(start, CandidateSteps(cfg, ours, base, blocks, now).value)
            && c.totalWork > ourWork && VerifySupply(c.ledger).Pass?
  {
    hide RebuiltSteps, EvaluateReorg, VerifySupply, WorkOf, CommonPrefix, PushAll, TrustedOf;
    AdoptableShape(cfg, ourWork, ours, base, blocks, now);
    EvaluateSteps(cfg, ourWork, ours, base, blocks, now);
  }

  lemma {:induction false} AdoptableShape(cfg: Config, ourWork: nat, ours: seq<Hash>, base: Option<PrunedBase>, blocks: seq<Block>, now: u64)
    requires EvaluateReorg(cfg, ourWork, ours, base, blocks, now).Success?
    requires EvaluateReorg(cfg, ourWork, ours, base, blocks, now).value.Some?
    ensures blocks != [] && blocks[0].header.height == StartOf(cfg, base).firstHeight
    ensures StartOf(cfg, base).totalWork + WorkOf(blocks) > ourWork
  {
    hide RebuildFrom, Rebuild, VerifySupply, WorkOf, CommonPrefix, ForNetwork;
  }

  /**
    What is known of a candidate's steps z on top of the history x: it links, it shares `common` headers
    with ours, it abandons at most 500 of our blocks, and every block beyond the first `trusted` passed every
    check, proof of work included; the trusted prefix ends in a header that describes its ledger.
   */
  ghost predicate CheckedCandidate(cfg: Config, x: seq<Step>, z: seq<Step>, ours: seq<Hash>, common: nat, trusted: nat) {
    && History(cfg, x + z)
    && |x| <= common <= |ours| && common <= |x + z| && |ours| - common <= MAX_REORG_DEPTH
    && (forall i :: |x| <= i < common ==> HashOf((x + z)[i].block) == ours[i])
    && (forall i :: |x| + trusted <= i < |x + z| ==> CheckedAt(cfg, x + z, i))
    && (trusted > 0 ==> PrefixRoots(if trusted <= |z| then z[..trusted] else z).Pass?)
  }

  lemma {:induction false} CandidateIsChecked(cfg: Config, x: seq<Step>, ours: seq<Hash>, blocks: seq<Block>, trusted: nat, now: u64)
    requires History(cfg, x) && |x| <= |ours|
    requires RebuiltSteps(cfg, Compacts(x), LedgerAt(cfg, x, |x|), blocks, trusted, now).Success?
    requires |ours| - (|x| + CommonPrefix(ours[|x|..], blocks)) <= MAX_REORG_DEPTH
    ensures CheckedCandidate(cfg, x, RebuiltSteps(cfg, Compacts(x), LedgerAt(cfg, x, |x|), blocks, trusted, now).value, ours,
                             |x| + CommonPrefix(ours[|x|..], blocks), trusted)
  {
    hide CommonPrefix, RebuiltSteps, History, CheckedAt, PrefixRoots, Normal, UndoWork, LedgerAt, WorkOf;
    RebuiltHistory(cfg, x, blocks, trusted, now);
    var z := RebuiltSteps(cfg, Compacts(x), LedgerAt(cfg, x, |x|), blocks, trusted, now).value;
    var window := CommonPrefix(ours[|x|..], blocks);
    CommonBounds(ours[|x|..], blocks);
    forall i | |x| <= i < |x| + window ensures HashOf((x + z)[i].block) == ours[i] {
      NormalIdempotent(cfg, blocks[i - |x|]);
      assert HashOf(blocks[i - |x|]) == ours[|x|..][i - |x|];
    }
  }

  /** Every candidate that `evaluate_reorg` returns, from genesis or from a pruned base. */
  lemma {:induction false} AdoptableIsChecked(cfg: Config, x: seq<Step>, ourWork: nat, ours: seq<Hash>, base: Option<PrunedBase>,
                           blocks: seq<Block>, now: u64)
    requires Inv(cfg, StartOf(cfg, base), x) && |x| == StartOf(cfg, base).firstHeight
    requires EvaluateReorg(cfg, ourWork, ours, base, blocks, now).Success?
    requires EvaluateReorg(cfg, ourWork, ours, base, blocks, now).value.Some?
    ensures |x| <= |ours| && CandidateSteps(cfg, ours, base, blocks, now).Success?
    ensures var c := EvaluateReorg(cfg, ourWork, ours, base, blocks, now).value.value;
            var z := CandidateSteps(cfg, ours, base, blocks, now).value;
            var window := CommonPrefix(ours[|x|..], blocks);
            && Inv(cfg, c, x + z) && c.totalWork > ourWork && VerifySupply(c.ledger).Pass?
            && CheckedCandidate(cfg, x, z, ours, |x| + window, TrustedOf(cfg, base, window, |blocks|))
  {
    hide EvaluateReorg, VerifySupply, WorkOf, CommonPrefix, PushAll, TrustedOf, RebuiltSteps, History,
         UndoWork, LedgerAt, Window, TailUndos, StartOf, CheckedCandidate;
    AdoptableSteps(cfg, ourWork, ours, base, blocks, now);
    var start := StartOf(cfg, base);
    var window := CommonPrefix(ours[|x|..], blocks);
    CandidateIsChecked(cfg, x, ours, blocks, TrustedOf(cfg, base, window, |blocks|), now);
    var z := CandidateSteps(cfg, ours, base, blocks, now).value;
    CandidateHistory(cfg, x, z, ours, |x| + window, TrustedOf(cfg, base, window, |blocks|));
    PushedInv(cfg, start, x, z);
  }

  lemma {:induction false} CandidateHistory(cfg: Config, x: seq<Step>, z: seq<Step>, ours: seq<Hash>, common: nat, trusted: nat)
    requires CheckedCandidate(cfg, x, z, ours, common, trusted)
    ensures History(cfg, x + z)
  {
  }
}
