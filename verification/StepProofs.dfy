/** Runs of blocks: the two validation paths, concatenation, and what pushing a run does to the fields. */
module StepProofs {
  import opened Wrappers
  import opened Words
  import opened Curve
  import opened Transactions
  import opened Ledgers
  import opened LedgerProofs
  import opened Blocks
  import opened Consensus

  // ----------------------------------------------------- full and trusted --

  lemma {:induction false} NormalIdempotent(cfg: Config, b: Block)
    ensures Normal(cfg, Normal(cfg, b)) == Normal(cfg, b)
    ensures Normal(cfg, b).header == b.header
  {
    StripRemovesBinding(b.body);
  }

  /** What acceptance established, without looking into the checks. */
  lemma {:induction false} AcceptSteps(cfg: Config, hs: Headers, l: Ledger, block: Block, now: u64, verifyPow: bool)
    requires Accept(cfg, hs, l, block, now, verifyPow).Success?
    ensures var b := Normal(cfg, block);
            var subsidy := Subsidy(l, b.header.height);
            && CheckHeader(cfg, hs, b, now, verifyPow).Pass?
            && b.header.reward == CoinbaseDue(subsidy, TotalFee(b.body.kernels))
            && RootOfBody(b.body) == b.header.bodyRoot
            && CaptureUndo(l, b.body).Success?
            && Apply(l, b.body, b.header.height, subsidy, cfg.network).Success?
            && RootsMatch(Apply(l, b.body, b.header.height, subsidy, cfg.network).value, b.header).Pass?
            && Accept(cfg, hs, l, block, now, verifyPow).value
               == Step(b, Apply(l, b.body, b.header.height, subsidy, cfg.network).value,
                       TipUndo(Work(b.header.difficulty), CaptureUndo(l, b.body).value))
  {
    hide CheckHeader, CaptureUndo, Apply, RootsMatch, RootOfBody, Subsidy, CoinbaseDue, TotalFee, Normal;
  }

  lemma {:induction false} TrustSteps(cfg: Config, hs: Headers, l: Ledger, block: Block)
    ensures var b := Normal(cfg, block);
            var subsidy := Subsidy(l, b.header.height);
            Trust(cfg, hs, l, block).Success? <==>
              && b.header.version == PROTOCOL_VERSION
              && CheckLink(cfg, hs, b).Pass?
              && CaptureUndo(l, b.body).Success?
              && ApplyStateOnly(l, b.body, b.header.height, subsidy).Success?
    ensures Trust(cfg, hs, l, block).Success? ==>
              var b := Normal(cfg, block);
              Trust(cfg, hs, l, block).value
              == Step(b, ApplyStateOnly(l, b.body, b.header.height, Subsidy(l, b.header.height)).value,
                      TipUndo(Work(b.header.difficulty), CaptureUndo(l, b.body).value))
  {
    hide CheckLink, CaptureUndo, ApplyStateOnly, Subsidy, Normal;
  }

  lemma {:induction false} HeaderLinks(cfg: Config, hs: Headers, b: Block, now: u64, verifyPow: bool)
    requires CheckHeader(cfg, hs, b, now, verifyPow).Pass?
    ensures b.header.version == PROTOCOL_VERSION && CheckLink(cfg, hs, b).Pass?
    ensures |hs| > 0 ==> b.header.timestamp > MedianTimePast(hs)
    ensures b.header.difficulty == NextDifficulty(cfg, hs)
    ensures verifyPow ==> cfg.pow(b.header)
  {
    hide CheckLink, MedianTimePast, NextDifficulty, SaturatingAdd;
  }

  /** Full validation refines the trusted path: the same step, with fresh outputs and matching roots. */
  lemma {:induction false} AcceptRefinesTrust(cfg: Config, hs: Headers, l: Ledger, block: Block, now: u64, verifyPow: bool)
    requires Accept(cfg, hs, l, block, now, verifyPow).Success?
    ensures Trust(cfg, hs, l, block) == Accept(cfg, hs, l, block, now, verifyPow)
    ensures var step := Accept(cfg, hs, l, block, now, verifyPow).value;
            && step.block == Normal(cfg, block)
            && Fresh(l, step.block.body)
            && RootsMatch(step.ledger, step.block.header).Pass?
  {
    hide Accept, Trust, Apply, ApplyStateOnly, CaptureUndo, CheckHeader, CheckLink, RootsMatch, RootOfBody, Subsidy, CoinbaseDue,
         TotalFee, Fresh, Normal;
    var b := Normal(cfg, block);
    AcceptSteps(cfg, hs, l, block, now, verifyPow);
    TrustSteps(cfg, hs, l, block);
    HeaderLinks(cfg, hs, b, now, verifyPow);
    ApplyRefinesReplay(l, b.body, b.header.height, Subsidy(l, b.header.height), cfg.network);
  }

  /** Both paths store the normal form, and record its work. */
  lemma {:induction false} NextStores(cfg: Config, mode: Mode, hs: Headers, l: Ledger, block: Block)
    requires Next(cfg, mode, hs, l, block).Success?
    ensures var step := Next(cfg, mode, hs, l, block).value;
            && step.block == Normal(cfg, block)
            && step.block.header == block.header
            && step.undo.work == Work(block.header.difficulty)
            && Trust(cfg, hs, l, block) == Success(step)
  {
    hide Accept, Trust, Normal;
    NormalIdempotent(cfg, block);
    if mode.Full? {
      AcceptRefinesTrust(cfg, hs, l, block, mode.now, true);
    }
    TrustSteps(cfg, hs, l, block);
  }

  /** A stored block takes the same path again. */
  lemma {:induction false} TrustNormal(cfg: Config, hs: Headers, l: Ledger, block: Block)
    ensures Trust(cfg, hs, l, Normal(cfg, block)) == Trust(cfg, hs, l, block)
  {
    hide CheckLink, CaptureUndo, ApplyStateOnly, Normal;
    NormalIdempotent(cfg, block);
  }

  lemma {:induction false} AcceptNormal(cfg: Config, hs: Headers, l: Ledger, block: Block, now: u64, verifyPow: bool)
    ensures Accept(cfg, hs, l, Normal(cfg, block), now, verifyPow) == Accept(cfg, hs, l, block, now, verifyPow)
  {
    hide CheckHeader, CaptureUndo, Apply, Normal;
    NormalIdempotent(cfg, block);
  }

  /**
    The own-disk path never looks at the body root: below the pins any header root replays to the same ledger,
    where full validation takes only the body's own hash.
   */
  lemma {:induction false} OwnDiskIgnoresBodyRoot(cfg: Config, hs: Headers, l: Ledger, block: Block, root: Hash, now: u64)
    requires Trust(cfg, hs, l, block).Success? && CheckpointAt(cfg.checkpoints, block.header.height).None?
    ensures var other := block.(header := block.header.(bodyRoot := root));
            && Trust(cfg, hs, l, other).Success?
            && Trust(cfg, hs, l, other).value.ledger == Trust(cfg, hs, l, block).value.ledger
            && (root != RootOfBody(Normal(cfg, block).body) ==> Accept(cfg, hs, l, other, now, true).Failure?)
  {
    hide CaptureUndo, ApplyStateOnly, Subsidy, Apply, RootOfBody, StripBinding, CheckHeader;
    var other := block.(header := block.header.(bodyRoot := root));
    TrustSteps(cfg, hs, l, block);
    TrustSteps(cfg, hs, l, other);
    if Accept(cfg, hs, l, other, now, true).Success? {
      AcceptSteps(cfg, hs, l, other, now, true);
    }
  }

  // ---------------------------------------------------------------- runs --

  lemma {:induction false} OneStep(cfg: Config, hs: Headers, l: Ledger, b: Block, now: u64)
    requires Accept(cfg, hs, l, b, now, true).Success?
    ensures StepsOf(cfg, Full(now), hs, l, [b]) == Success([Accept(cfg, hs, l, b, now, true).value])
  {
    hide Accept;
    assert [b][..0] == [];
    assert StepsOf(cfg, Full(now), hs, l, []) == Success([]);
    assert hs + Compacts([]) == hs && EndLedger(l, []) == l;
    var step := Accept(cfg, hs, l, b, now, true).value;
    assert [] + [step] == [step];
  }

  lemma {:induction false} LinkByHeader(cfg: Config, hs: Headers, a: Block, b: Block)
    requires a.header == b.header
    ensures CheckLink(cfg, hs, a) == CheckLink(cfg, hs, b)
  {
  }

  lemma {:induction false} StepsLength(cfg: Config, mode: Mode, hs: Headers, l: Ledger, blocks: seq<Block>)
    requires StepsOf(cfg, mode, hs, l, blocks).Success?
    ensures |StepsOf(cfg, mode, hs, l, blocks).value| == |blocks|
    decreases |blocks|
  {
    hide Next;
    if blocks != [] {
      StepsLength(cfg, mode, hs, l, blocks[..|blocks| - 1]);
    }
  }

  /** A run continued by `more` from where a first run ended, or the first run's error. */
  function Continue(cfg: Config, mode: Mode, hs: Headers, l: Ledger, first: Result<seq<Step>, ConsensusError>, more: seq<Block>)
    : Result<seq<Step>, ConsensusError>
  {
    var x :- first;
    var y :- StepsOf(cfg, mode, hs + Compacts(x), EndLedger(l, x), more);
    Success(x + y)
  }

  function Snoc(cfg: Config, mode: Mode, hs: Headers, l: Ledger, first: Result<seq<Step>, ConsensusError>, b: Block)
    : Result<seq<Step>, ConsensusError>
  {
    var x :- first;
    var step :- Next(cfg, mode, hs + Compacts(x), EndLedger(l, x), b);
    Success(x + [step])
  }

  /** One more block at the end. */
  lemma {:induction false} StepsSnoc(cfg: Config, mode: Mode, hs: Headers, l: Ledger, blocks: seq<Block>, b: Block)
    ensures StepsOf(cfg, mode, hs, l, blocks + [b])
            == Snoc(cfg, mode, hs, l, StepsOf(cfg, mode, hs, l, blocks), b)
  {
    hide Next;
    assert (blocks + [b])[..|blocks|] == blocks;
  }

  /** A run splits anywhere; an error in the first part is the error of the whole. */
  lemma {:induction false} StepsConcat(cfg: Config, mode: Mode, hs: Headers, l: Ledger, a: seq<Block>, b: seq<Block>)
    ensures StepsOf(cfg, mode, hs, l, a + b)
            == Continue(cfg, mode, hs, l, StepsOf(cfg, mode, hs, l, a), b)
    decreases |b|
  {
    hide Next, Compacts, EndLedger;
    if b == [] {
      assert a + b == a;
      EmptyRun(cfg, mode, hs, l, StepsOf(cfg, mode, hs, l, a));
    } else {
      hide StepsOf;
      var n := |b| - 1;
      StepsConcat(cfg, mode, hs, l, a, b[..n]);
      assert a + b == (a + b[..n]) + [b[n]];
      assert b == b[..n] + [b[n]];
      StepsSnoc(cfg, mode, hs, l, a + b[..n], b[n]);
      if StepsOf(cfg, mode, hs, l, a).Success? {
        var x := StepsOf(cfg, mode, hs, l, a).value;
        StepsSnoc(cfg, mode, hs + Compacts(x), EndLedger(l, x), b[..n], b[n]);
        if StepsOf(cfg, mode, hs + Compacts(x), EndLedger(l, x), b[..n]).Success? {
          var y := StepsOf(cfg, mode, hs + Compacts(x), EndLedger(l, x), b[..n]).value;
          EndOfConcat(hs, l, x, y);
          assert forall s: Step :: x + (y + [s]) == (x + y) + [s];
        }
      }
    }
  }

  lemma {:induction false} EmptyRun(cfg: Config, mode: Mode, hs: Headers, l: Ledger, first: Result<seq<Step>, ConsensusError>)
    ensures Continue(cfg, mode, hs, l, first, []) == first
  {
    if first.Success? {
      assert first.value + [] == first.value;
    }
  }

  lemma {:induction false} EndOfConcat(hs: Headers, l: Ledger, x: seq<Step>, y: seq<Step>)
    ensures (hs + Compacts(x)) + Compacts(y) == hs + Compacts(x + y)
    ensures EndLedger(EndLedger(l, x), y) == EndLedger(l, x + y)
  {
  }

  /** Fields after a run, in closed form. */
  lemma {:induction false} PushAllFields(s: ChainState, x: seq<Step>)
    ensures var r := PushAll(s, x);
            && r.ledger == EndLedger(s.ledger, x)
            && r.blocks == s.blocks + StepBlocks(x)
            && r.headers == s.headers + Compacts(x)
            && r.firstHeight == s.firstHeight && r.horizon == s.horizon && r.horizonWork == s.horizonWork
            && r.totalWork == s.totalWork + UndoWork(Undos(x))
  {
    if x != [] {
      var n := |x| - 1;
      PushAllFields(s, x[..n]);
      assert StepBlocks(x) == StepBlocks(x[..n]) + [x[n].block];
      assert Compacts(x) == Compacts(x[..n]) + [Compact(x[n].block)];
      assert Undos(x)[..n] == Undos(x[..n]);
    }
  }

  lemma {:induction false} SinglePush(s: ChainState, step: Step)
    ensures PushAll(s, [step]) == Push(s, step)
  {
    assert [step][..0] == [];
  }

  lemma {:induction false} PushAllUndos(s: ChainState, x: seq<Step>)
    requires |s.undos| <= MAX_REORG_DEPTH
    ensures PushAll(s, x).undos == Newest(s.undos + Undos(x))
  {
    if x == [] {
      assert s.undos + Undos(x) == s.undos;
    } else {
      var n := |x| - 1;
      PushAllUndos(s, x[..n]);
      assert s.undos + Undos(x) == (s.undos + Undos(x[..n])) + [x[n].undo];
      NewestTwice(s.undos + Undos(x[..n]), [x[n].undo]);
    }
  }

  lemma {:induction false} LastStep(cfg: Config, mode: Mode, hs: Headers, l: Ledger, blocks: seq<Block>)
    requires blocks != [] && StepsOf(cfg, mode, hs, l, blocks).Success?
    ensures var n := |blocks| - 1;
            var before := StepsOf(cfg, mode, hs, l, blocks[..n]);
            var x := StepsOf(cfg, mode, hs, l, blocks).value;
            && before.Success? && x != [] && x == before.value + [x[|x| - 1]]
            && x[|x| - 1].block == Normal(cfg, blocks[n])
            && x[|x| - 1].undo.work == Work(blocks[n].header.difficulty)
  {
    hide Next, Normal, Compacts, EndLedger;
    var n := |blocks| - 1;
    var before := StepsOf(cfg, mode, hs, l, blocks[..n]).value;
    NextStores(cfg, mode, hs + Compacts(before), EndLedger(l, before), blocks[n]);
  }

  lemma {:induction false} StepsNormal(cfg: Config, mode: Mode, hs: Headers, l: Ledger, blocks: seq<Block>)
    requires StepsOf(cfg, mode, hs, l, blocks).Success?
    ensures var x := StepsOf(cfg, mode, hs, l, blocks).value;
            |x| == |blocks| && forall i :: 0 <= i < |x| ==> x[i].block == Normal(cfg, blocks[i])
    decreases |blocks|
  {
    hide StepsOf, Normal;
    if blocks != [] {
      LastStep(cfg, mode, hs, l, blocks);
      StepsNormal(cfg, mode, hs, l, blocks[..|blocks| - 1]);
    } else {
      StepsLength(cfg, mode, hs, l, blocks);
    }
  }

  lemma {:induction false} UndosSnoc(before: seq<Step>, step: Step)
    ensures UndoWork(Undos(before + [step])) == UndoWork(Undos(before)) + step.undo.work
  {
    assert Undos(before + [step])[..|before|] == Undos(before);
  }

  lemma {:induction false} StepsAddWork(cfg: Config, mode: Mode, hs: Headers, l: Ledger, blocks: seq<Block>)
    requires StepsOf(cfg, mode, hs, l, blocks).Success?
    ensures UndoWork(Undos(StepsOf(cfg, mode, hs, l, blocks).value)) == WorkOf(blocks)
    decreases |blocks|
  {
    hide StepsOf, Normal, UndoWork, Undos;
    if blocks != [] {
      LastStep(cfg, mode, hs, l, blocks);
      StepsAddWork(cfg, mode, hs, l, blocks[..|blocks| - 1]);
      var x := StepsOf(cfg, mode, hs, l, blocks).value;
      UndosSnoc(StepsOf(cfg, mode, hs, l, blocks[..|blocks| - 1]).value, x[|x| - 1]);
    } else {
      NoSteps(cfg, mode, hs, l);
    }
  }

  lemma {:induction false} NoSteps(cfg: Config, mode: Mode, hs: Headers, l: Ledger)
    ensures StepsOf(cfg, mode, hs, l, []) == Success([]) && UndoWork(Undos([])) == 0
  {
    hide Next;
  }

  /** The work a run declares is the work it adds, and it stores the normal form of each block. */
  lemma {:induction false} StepsWork(cfg: Config, mode: Mode, hs: Headers, l: Ledger, blocks: seq<Block>)
    requires StepsOf(cfg, mode, hs, l, blocks).Success?
    ensures var x := StepsOf(cfg, mode, hs, l, blocks).value;
            && |x| == |blocks|
            && UndoWork(Undos(x)) == WorkOf(blocks)
            && forall i :: 0 <= i < |x| ==> x[i].block == Normal(cfg, blocks[i])
  {
    hide StepsOf, Normal, UndoWork, Undos, WorkOf;
    StepsNormal(cfg, mode, hs, l, blocks);
    StepsAddWork(cfg, mode, hs, l, blocks);
  }

  lemma {:induction false} WorkConcat(a: seq<Block>, b: seq<Block>)
    ensures WorkOf(a + b) == WorkOf(a) + WorkOf(b)
  {
    if b == [] {
      assert a + b == a;
    } else {
      var n := |b| - 1;
      assert (a + b)[..|a + b| - 1] == a + b[..n];
      WorkConcat(a, b[..n]);
    }
  }

  lemma {:induction false} UndoWorkConcat(a: seq<TipUndo>, b: seq<TipUndo>)
    ensures UndoWork(a + b) == UndoWork(a) + UndoWork(b)
  {
    if b == [] {
      assert a + b == a;
    } else {
      var n := |b| - 1;
      assert (a + b)[..|a + b| - 1] == a + b[..n];
      UndoWorkConcat(a, b[..n]);
    }
  }

  /** Cumulative work of up to 2^64 blocks fits 128 bits: the saturating additions never saturate. */
  lemma {:induction false} WorkFits(blocks: seq<Block>)
    ensures |blocks| <= WorkOf(blocks) <= |blocks| * (TWO64 - 1)
  {
    if blocks != [] {
      WorkFits(blocks[..|blocks| - 1]);
    }
  }

  /** A fully validated run is also a trusted run with the same steps. */
  lemma {:induction false} FullRunIsTrustedRun(cfg: Config, hs: Headers, l: Ledger, blocks: seq<Block>, now: u64)
    requires StepsOf(cfg, Full(now), hs, l, blocks).Success?
    ensures StepsOf(cfg, OwnDisk, hs, l, blocks) == StepsOf(cfg, Full(now), hs, l, blocks)
  {
    hide Accept, Trust;
    if blocks != [] {
      var n := |blocks| - 1;
      FullRunIsTrustedRun(cfg, hs, l, blocks[..n], now);
      var before := StepsOf(cfg, Full(now), hs, l, blocks[..n]).value;
      AcceptRefinesTrust(cfg, hs + Compacts(before), EndLedger(l, before), blocks[n], now, true);
    }
  }

  lemma {:induction false} DropDrop<T>(s: seq<T>, i: nat, j: nat)
    requires i + j <= |s|
    ensures s[i..][j..] == s[i + j..]
  {
  }

  lemma {:induction false} DropConcat<T>(a: seq<T>, b: seq<T>, k: nat)
    requires k <= |a|
    ensures (a + b)[k..] == a[k..] + b
  {
  }

  lemma {:induction false} DropRight<T>(a: seq<T>, b: seq<T>, k: nat)
    requires k <= |b|
    ensures (a + b)[|a| + k..] == b[k..]
  {
  }

  lemma {:induction false} NewestIs<T>(s: seq<T>, k: nat)
    requires |s| >= MAX_REORG_DEPTH && k == |s| - MAX_REORG_DEPTH
    ensures Newest(s) == s[k..]
  {
    if k == 0 {
      assert s[0..] == s;
    }
  }

  lemma {:induction false} NewestLeft<T>(a: seq<T>, b: seq<T>)
    ensures Newest(Newest(a) + b) == Newest(a + b)
  {
    hide Newest;
    if |a| >= MAX_REORG_DEPTH {
      var k := |a| - MAX_REORG_DEPTH;
      NewestIs(a, k);
      DropConcat(a, b, k);
      NewestIs(a[k..] + b, |b|);
      DropDrop(a + b, k, |b|);
      NewestIs(a + b, k + |b|);
    } else {
      Short(a);
    }
  }

  lemma {:induction false} NewestRight<T>(a: seq<T>, b: seq<T>)
    ensures Newest(a + Newest(b)) == Newest(a + b)
  {
    hide Newest;
    if |b| >= MAX_REORG_DEPTH {
      var k := |b| - MAX_REORG_DEPTH;
      NewestIs(b, k);
      DropRight(a, b, k);
      NewestIs(a + b, |a| + k);
      DropRight(a, b[k..], 0);
      assert b[k..][0..] == b[k..];
      NewestIs(a + b[k..], |a|);
    } else {
      Short(b);
    }
  }

  lemma {:induction false} Short<T>(s: seq<T>)
    requires |s| < MAX_REORG_DEPTH
    ensures Newest(s) == s
  {
  }

  /** Dropping old records early loses nothing that is kept later. */
  lemma {:induction false} NewestTwice<T>(a: seq<T>, b: seq<T>)
    ensures Newest(Newest(a) + b) == Newest(a + b)
    ensures Newest(a + Newest(b)) == Newest(a + b)
  {
    hide Newest;
    NewestLeft(a, b);
    NewestRight(a, b);
  }
}
