/**
  The fast reorganisation against the slow one: rewinding undo records, validating only the suffix and
  splicing it in leaves the chain that replaying the whole candidate from genesis would build.
 */
module FastReorg {
  import opened Wrappers
  import opened Words
  import opened Curve
  import opened Transactions
  import opened Ledgers
  import opened LedgerProofs
  import opened Blocks
  import opened Consensus
  import opened StepProofs
  import opened ChainInvariant

  /** The chain a history leaves on an archive node. */
  ghost function ArchiveOf(cfg: Config, x: seq<Step>): ChainState {
    PushAll(NewFair(cfg), x)
  }

  /** The body-less chain positioned at an ancestor. */
  ghost function TrialAt(cfg: Config, x: seq<Step>, a: nat): ChainState
    requires a < |x|
  {
    NewFair(cfg).(ledger := LedgerAt(cfg, x, a + 1), totalWork := UndoWork(Undos(x[..a + 1])), headers := Compacts(x[..a + 1]))
  }

  /** The trial prepared from the chain with history x at ancestor a. */
  ghost function PreparedAt(cfg: Config, x: seq<Step>, a: nat): SuffixTrial
    requires a < |x|
  {
    SuffixTrial(TrialAt(cfg, x, a), TipHash(cfg, Compacts(x)), |x| - 1 - a, UndoWork(Undos(x)))
  }

  /** The verified suffix y, ready to replace everything above ancestor a. */
  ghost function ReorgOf(cfg: Config, x: seq<Step>, a: nat, y: seq<Step>): SuffixReorg
    requires a < |x|
  {
    SuffixReorg(EndLedger(LedgerAt(cfg, x, a + 1), y), Compacts(x[..a + 1] + y), StepBlocks(y), Newest(Undos(y)),
                UndoWork(Undos(x[..a + 1] + y)), |x| - 1 - a, TipHash(cfg, Compacts(x)))
  }

  /** The suffix replayed in full on top of ancestor a. */
  ghost function SuffixSteps(cfg: Config, x: seq<Step>, a: nat, suffix: seq<Block>, now: u64): Result<seq<Step>, ConsensusError>
    requires a < |x|
  {
    StepsOf(cfg, Full(now), Compacts(x[..a + 1]), LedgerAt(cfg, x, a + 1), suffix)
  }

  // ------------------------------------------------------------- prepare --

  /** Heights are indices, so the tip height is one less than the number of headers. */
  lemma {:induction false} TipHeight(cfg: Config, x: seq<Step>)
    requires History(cfg, x) && x != []
    ensures Compacts(x)[|x| - 1].height == |x| - 1
  {
    hide History;
    HistoryLinks(cfg, x, |x| - 1);
  }

  lemma {:induction false} UndoTail(undos: seq<TipUndo>, x: seq<Step>, n: nat)
    requires TailUndos(undos, x) && n <= |undos|
    ensures UndoWork(undos[|undos| - n..]) == UndoWork(Undos(x)) - UndoWork(Undos(x[..|x| - n]))
    ensures UndoWork(Undos(x)) >= UndoWork(Undos(x[..|x| - n]))
  {
    hide UndoWork;
    assert undos[|undos| - n..] == Undos(x[|x| - n..]);
    assert Undos(x) == Undos(x[..|x| - n]) + Undos(x[|x| - n..]);
    UndoWorkConcat(Undos(x[..|x| - n]), Undos(x[|x| - n..]));
  }

  /** A trial that is what preparation gives on this history, but for lost outputs. */
  ghost predicate LooseTrial(cfg: Config, t: SuffixTrial, x: seq<Step>, a: nat)
    requires a < |x|
  {
    && t.(trial := t.trial.(ledger := LedgerAt(cfg, x, a + 1))) == PreparedAt(cfg, x, a)
    && Within(t.trial.ledger, LedgerAt(cfg, x, a + 1))
  }

  /**
    Preparation succeeds exactly within the undo window.  It then holds headers and work at the ancestor, and the ledger
    there exactly when no output of that ledger was created again above it without having been spent first.
   */
  lemma {:induction false} PrepareExact(cfg: Config, s: ChainState, x: seq<Step>, a: nat)
    requires Inv(cfg, s, x)
    ensures PrepareSuffixTrial(cfg, s, a).Success? <==> a < |x| && |x| - 1 - a <= |s.undos|
    ensures PrepareSuffixTrial(cfg, s, a).Success? ==>
              var t := PrepareSuffixTrial(cfg, s, a).value;
              && LooseTrial(cfg, t, x, a)
              && (t == PreparedAt(cfg, x, a) <==> NothingLost(cfg, s.ledger, x, a + 1))
  {
    hide History, UndoWork, RewindMany, Window, ForNetwork, TailUndos, Compacts, LedgerAt, TipHash, Undos, Within, NothingLost;
    CompactsTake(x, a);
    UndosBounded(s.undos, x);
    if x != [] {
      TipHeight(cfg, x);
      var rewind := |x| - 1 - a;
      if 0 <= rewind <= |s.undos| {
        UndoTail(s.undos, x, rewind);
        TailOf(s.undos, x);
        WithinItself(s.ledger);
        RewindManyExact(cfg, x, s.ledger, s.undos, rewind);
        assert |x| - rewind == a + 1;
      }
    }
  }

  lemma {:induction false} WithinItself(l: Ledger)
    ensures Within(l, l)
  {
  }

  lemma {:induction false} TailOf(undos: seq<TipUndo>, x: seq<Step>)
    requires TailUndos(undos, x)
    ensures |undos| <= |x| && undos == Undos(x[|x| - |undos|..])
  {
  }

  /** On validated blocks nothing is lost. */
  lemma {:induction false} PrepareFresh(cfg: Config, s: ChainState, x: seq<Step>, a: nat)
    requires Inv(cfg, s, x) && forall i :: a < i < |x| ==> FreshAt(cfg, x, i)
    requires PrepareSuffixTrial(cfg, s, a).Success?
    ensures a < |x| && |x| - 1 - a <= |s.undos| && PrepareSuffixTrial(cfg, s, a).value == PreparedAt(cfg, x, a)
  {
    hide Inv, PrepareSuffixTrial, FreshAt, History, LedgerAt, PreparedAt, NothingLost, LooseTrial;
    InvLedger(cfg, s, x);
    PrepareExact(cfg, s, x, a);
    FreshLosesNothing(cfg, x, a + 1);
  }

  lemma {:induction false} InvLedger(cfg: Config, s: ChainState, x: seq<Step>)
    requires Inv(cfg, s, x)
    ensures History(cfg, x) && s.ledger == LedgerAt(cfg, x, |x|)
  {
    hide History, Window, TailUndos, UndoWork, LedgerAt;
  }

  lemma {:induction false} CompactsTake(x: seq<Step>, a: nat)
    ensures |Compacts(x)| == |x| && (a < |x| ==> Compacts(x)[..a + 1] == Compacts(x[..a + 1]))
  {
  }

  lemma {:induction false} UndosBounded(undos: seq<TipUndo>, x: seq<Step>)
    requires TailUndos(undos, x)
    ensures |undos| <= MAX_REORG_DEPTH && |undos| <= |x|
  {
  }

  // -------------------------------------------------------------- finish --

  ghost function FinishedAt(cfg: Config, x: seq<Step>, a: nat, suffix: seq<Block>, now: u64)
    : Result<Option<SuffixReorg>, ConsensusError>
    requires a < |x|
  {
    if UndoWork(Undos(x[..a + 1])) + WorkOf(suffix) <= UndoWork(Undos(x)) then Success(None)
    else
      var y :- SuffixSteps(cfg, x, a, suffix, now);
      Success(Some(ReorgOf(cfg, x, a, y)))
  }

  /** Validation of the suffix decides; the second work comparison never turns a valid suffix away. */
  lemma {:induction false} FinishExact(cfg: Config, x: seq<Step>, a: nat, suffix: seq<Block>, now: u64)
    requires a < |x|
    ensures FinishSuffix(cfg, PreparedAt(cfg, x, a), suffix, now) == FinishedAt(cfg, x, a, suffix, now)
  {
    hide UndoWork, StepsOf, PushAll, LedgerAt, WorkOf, TipHash, ForNetwork, Compacts, Undos, Newest;
    NoWork(x, a);
    if SuffixSteps(cfg, x, a, suffix, now).Success? {
      var y := SuffixSteps(cfg, x, a, suffix, now).value;
      StepsWork(cfg, Full(now), Compacts(x[..a + 1]), LedgerAt(cfg, x, a + 1), suffix);
      TrialAfter(cfg, x, a, y);
    }
  }

  /** The trial after a run holds what the reorganisation carries. */
  lemma {:induction false} TrialAfter(cfg: Config, x: seq<Step>, a: nat, y: seq<Step>)
    requires a < |x|
    ensures var c := PushAll(TrialAt(cfg, x, a), y);
            && c.ledger == EndLedger(LedgerAt(cfg, x, a + 1), y)
            && c.headers == Compacts(x[..a + 1] + y) && c.blocks == StepBlocks(y) && c.undos == Newest(Undos(y))
            && c.totalWork == UndoWork(Undos(x[..a + 1] + y)) == UndoWork(Undos(x[..a + 1])) + UndoWork(Undos(y))
  {
    hide UndoWork, PushAll, LedgerAt, ForNetwork, Newest;
    var t := TrialAt(cfg, x, a);
    PushAllFields(t, y);
    PushAllUndos(t, y);
    assert Undos(x[..a + 1] + y) == Undos(x[..a + 1]) + Undos(y);
    UndoWorkConcat(Undos(x[..a + 1]), Undos(y));
    assert Compacts(x[..a + 1] + y) == Compacts(x[..a + 1]) + Compacts(y);
    assert t.undos + Undos(y) == Undos(y);
    assert t.blocks + StepBlocks(y) == StepBlocks(y);
  }

  lemma {:induction false} NoWork(x: seq<Step>, a: nat)
    requires a < |x|
    ensures WorkOf([]) == 0 && UndoWork(Undos(x[..a + 1])) <= UndoWork(Undos(x))
  {
    hide UndoWork;
    assert Undos(x) == Undos(x[..a + 1]) + Undos(x[a + 1..]);
    UndoWorkConcat(Undos(x[..a + 1]), Undos(x[a + 1..]));
  }

  // -------------------------------------------------------------- splice --

  lemma {:induction false} WindowSpliced(cfg: Config, s: ChainState, x: seq<Step>, a: nat, y: seq<Step>, r: ChainState)
    requires Window(cfg, s, x) && a < |x| && |x| - 1 - a <= |s.blocks|
    requires r.firstHeight == s.firstHeight && r.horizon == s.horizon && r.horizonWork == s.horizonWork
    requires r.blocks == s.blocks[..|s.blocks| - (|x| - 1 - a)] + StepBlocks(y)
    ensures Window(cfg, r, x[..a + 1] + y)
  {
    hide UndoWork;
    var f := s.firstHeight;
    var z := x[..a + 1] + y;
    assert |s.blocks| == |x| - f && f <= a + 1;
    assert z[..f] == x[..f];
    assert z[f..] == x[f..a + 1] + y;
    assert s.blocks[..a + 1 - f] == StepBlocks(x[f..a + 1]);
  }

  lemma {:induction false} UndosSpliced(undos: seq<TipUndo>, x: seq<Step>, a: nat, y: seq<Step>)
    requires TailUndos(undos, x) && a < |x| && |x| - 1 - a <= |undos|
    ensures TailUndos(Newest(undos[..|undos| - (|x| - 1 - a)] + Newest(Undos(y))), x[..a + 1] + y)
  {
    var kept := undos[..|undos| - (|x| - 1 - a)];
    assert kept == Undos(x[..a + 1][|x[..a + 1]| - |kept|..]);
    NewestTwice(kept, Undos(y));
    NewestOfTail(kept, x[..a + 1], y);
  }

  /** A verified suffix splices exactly when it wins and its fork is still in the window; the invariant is kept. */
  lemma {:induction false} SpliceExact(cfg: Config, s: ChainState, x: seq<Step>, a: nat, y: seq<Step>)
    requires Inv(cfg, s, x) && a < |x| && History(cfg, x[..a + 1] + y)
    ensures SpliceSuffix(cfg, s, ReorgOf(cfg, x, a, y)).Some? <==>
              && UndoWork(Undos(x[..a + 1] + y)) > UndoWork(Undos(x))
              && |x| - 1 - a <= |s.blocks| && |x| - 1 - a <= |s.undos|
    ensures SpliceSuffix(cfg, s, ReorgOf(cfg, x, a, y)).Some? ==>
              var r := SpliceSuffix(cfg, s, ReorgOf(cfg, x, a, y)).value;
              && Inv(cfg, r, x[..a + 1] + y)
              && r.firstHeight == s.firstHeight && r.horizon == s.horizon && r.horizonWork == s.horizonWork
              && r.undos == Newest(s.undos[..|s.undos| - (|x| - 1 - a)] + Undos(y))
  {
    hide History, UndoWork, Window, TailUndos, Newest, TipHash;
    var reorg := ReorgOf(cfg, x, a, y);
    if SpliceSuffix(cfg, s, reorg).Some? {
      var r := SpliceSuffix(cfg, s, reorg).value;
      var z := x[..a + 1] + y;
      WindowSpliced(cfg, s, x, a, y, r);
      UndosSpliced(s.undos, x, a, y);
      NewestTwice(s.undos[..|s.undos| - (|x| - 1 - a)], Undos(y));
      EndOfConcat([], ForNetwork(cfg.network), x[..a + 1], y);
      assert z[..|z|] == z;
    }
  }

  // -------------------------------------------------------------- replay --

  lemma {:induction false} HistorySlice(cfg: Config, x: seq<Step>, f: nat, n: nat)
    requires f <= n <= |x|
    ensures Compacts(x[..f]) + Compacts(x[f..n]) == Compacts(x[..n])
    ensures EndLedger(LedgerAt(cfg, x, f), x[f..n]) == LedgerAt(cfg, x, n)
  {
    assert x[..n] == x[..f] + x[f..n];
    EndOfConcat([], ForNetwork(cfg.network), x[..f], x[f..n]);
  }

  lemma {:induction false} ReplayOne(cfg: Config, x: seq<Step>, i: nat)
    requires History(cfg, x) && i < |x|
    ensures Next(cfg, OwnDisk, Compacts(x[..i]), LedgerAt(cfg, x, i), x[i].block) == Success(x[i])
  {
    hide Trust;
    assert StepAt(cfg, x, i);
  }

  /** The bodies of a history replay to that history, from any of its states. */
  lemma {:induction false} ReplayOf(cfg: Config, x: seq<Step>, f: nat, n: nat)
    requires History(cfg, x) && f <= n <= |x|
    ensures StepsOf(cfg, OwnDisk, Compacts(x[..f]), LedgerAt(cfg, x, f), StepBlocks(x[f..n])) == Success(x[f..n])
    decreases n
  {
    hide Next, History, Compacts, LedgerAt;
    if f < n {
      hide StepsOf;
      ReplayOf(cfg, x, f, n - 1);
      HistorySlice(cfg, x, f, n - 1);
      ReplayOne(cfg, x, n - 1);
      StepsSnoc(cfg, OwnDisk, Compacts(x[..f]), LedgerAt(cfg, x, f), StepBlocks(x[f..n - 1]), x[n - 1].block);
      assert StepBlocks(x[f..n]) == StepBlocks(x[f..n - 1]) + [x[n - 1].block];
      assert x[f..n] == x[f..n - 1] + [x[n - 1]];
    } else {
      assert x[f..n] == [] && StepBlocks(x[f..n]) == [];
    }
  }

  lemma {:induction false} PushAllConcat(s: ChainState, p: seq<Step>, q: seq<Step>)
    ensures PushAll(PushAll(s, p), q) == PushAll(s, p + q)
    decreases |q|
  {
    hide Push;
    if q == [] {
      assert p + q == p;
    } else {
      PushAllConcat(s, p, q[..|q| - 1]);
      assert (p + q)[..|p + q| - 1] == p + q[..|q| - 1];
    }
  }

  /** The end of a trusted prefix describes its own ledger. */
  function PrefixRoots(p: seq<Step>): Outcome<ConsensusError> {
    if p == [] then Pass else RootsMatch(p[|p| - 1].ledger, p[|p| - 1].block.header)
  }

  /** A rebuild as the steps it takes: a trusted run, a root check, a fully validated run. */
  function RebuiltSteps(cfg: Config, hs: Headers, l: Ledger, blocks: seq<Block>, trusted: nat, now: u64)
    : Result<seq<Step>, ConsensusError>
  {
    var k := if trusted <= |blocks| then trusted else |blocks|;
    var p :- StepsOf(cfg, OwnDisk, hs, l, blocks[..k]);
    :- if trusted > 0 then PrefixRoots(p) else Pass;
    Continue(cfg, Full(now), hs, l, Success(p), blocks[k..])
  }

  function Pushed(s: ChainState, r: Result<seq<Step>, ConsensusError>): Result<ChainState, ConsensusError> {
    var z :- r;
    Success(PushAll(s, z))
  }

  lemma {:induction false} RootsAfterRun(start: ChainState, p: seq<Step>)
    requires start.blocks == []
    ensures CheckTipRoots(PushAll(start, p)) == PrefixRoots(p)
  {
    hide RootsMatch, PushAll;
    PushAllFields(start, p);
    if p != [] {
      assert (start.blocks + StepBlocks(p))[|p| - 1] == p[|p| - 1].block;
    }
  }

  /** Both rebuilds are these steps, pushed onto an empty window. */
  lemma {:induction false} RebuildFromSteps(cfg: Config, start: ChainState, blocks: seq<Block>, trusted: nat, now: u64)
    requires start.blocks == []
    ensures RebuildFrom(cfg, start, blocks, trusted, now)
            == Pushed(start, RebuiltSteps(cfg, start.headers, start.ledger, blocks, trusted, now))
  {
    hide StepsOf, PushAll, PrefixRoots, CheckTipRoots, Compacts;
    var k := if trusted <= |blocks| then trusted else |blocks|;
    if StepsOf(cfg, OwnDisk, start.headers, start.ledger, blocks[..k]).Success? {
      var p := StepsOf(cfg, OwnDisk, start.headers, start.ledger, blocks[..k]).value;
      RootsAfterRun(start, p);
      PushAllFields(start, p);
      if StepsOf(cfg, Full(now), start.headers + Compacts(p), EndLedger(start.ledger, p), blocks[k..]).Success? {
        PushAllConcat(start, p, StepsOf(cfg, Full(now), start.headers + Compacts(p), EndLedger(start.ledger, p), blocks[k..]).value);
      }
    }
  }

  /** The last block of a fully validated run matches its ledger, which satisfies the supply equation. */
  lemma {:induction false} FullRunEnd(cfg: Config, hs: Headers, l: Ledger, blocks: seq<Block>, now: u64)
    requires blocks != [] && StepsOf(cfg, Full(now), hs, l, blocks).Success?
    ensures var y := StepsOf(cfg, Full(now), hs, l, blocks).value;
            y != [] && PrefixRoots(y).Pass? && VerifySupply(EndLedger(l, y)).Pass?
  {
    hide Accept, RootsMatch, VerifySupply, Fresh, Apply;
    var n := |blocks| - 1;
    var before := StepsOf(cfg, Full(now), hs, l, blocks[..n]).value;
    AcceptRefinesTrust(cfg, hs + Compacts(before), EndLedger(l, before), blocks[n], now, true);
    AcceptSteps(cfg, hs + Compacts(before), EndLedger(l, before), blocks[n], now, true);
    var b := Normal(cfg, blocks[n]);
    ApplySteps(EndLedger(l, before), b.body, b.header.height, Subsidy(EndLedger(l, before), b.header.height), cfg.network);
  }

  /** Trusting more of a list changes nothing when the part newly trusted passes in full, whatever comes after it. */
  lemma {:induction false} WidenPinned(cfg: Config, hs: Headers, l: Ledger, blocks: seq<Block>, t: nat, wider: nat, now: u64)
    requires t <= wider <= |blocks| && RebuiltSteps(cfg, hs, l, blocks[..wider], t, now).Success?
    ensures RebuiltSteps(cfg, hs, l, blocks, wider, now) == RebuiltSteps(cfg, hs, l, blocks, t, now)
  {
    hide StepsOf, RootsMatch;
    assert blocks[..wider][..t] == blocks[..t] && blocks[..wider][t..] == blocks[t..wider];
    var p := StepsOf(cfg, OwnDisk, hs, l, blocks[..t]).value;
    var hs', l' := hs + Compacts(p), EndLedger(l, p);
    var middle, rest := blocks[t..wider], blocks[wider..];
    assert blocks[..wider] == blocks[..t] + middle && blocks[t..] == middle + rest;
    StepsConcat(cfg, OwnDisk, hs, l, blocks[..t], middle);
    StepsConcat(cfg, Full(now), hs', l', middle, rest);
    FullRunIsTrustedRun(cfg, hs', l', middle, now);
    var y := StepsOf(cfg, Full(now), hs', l', middle).value;
    EndOfConcat(hs, l, p, y);
    assert forall r: seq<Step> :: (p + y) + r == p + (y + r);
    if t < wider {
      FullRunEnd(cfg, hs', l', middle, now);
    } else {
      StepsLength(cfg, Full(now), hs', l', middle);
      StepsLength(cfg, OwnDisk, hs, l, blocks[..t]);
      assert p + y == p;
    }
  }

  /** A list that passes passes up to every point beyond the trusted part. */
  lemma {:induction false} RebuiltPrefix(cfg: Config, hs: Headers, l: Ledger, blocks: seq<Block>, t: nat, n: nat, now: u64)
    requires t <= n <= |blocks| && RebuiltSteps(cfg, hs, l, blocks, t, now).Success?
    ensures RebuiltSteps(cfg, hs, l, blocks[..n], t, now).Success?
  {
    hide StepsOf, RootsMatch;
    assert blocks[..n][..t] == blocks[..t] && blocks[..n][t..] == blocks[t..n];
    var p := StepsOf(cfg, OwnDisk, hs, l, blocks[..t]).value;
    assert blocks[t..] == blocks[t..n] + blocks[n..];
    StepsConcat(cfg, Full(now), hs + Compacts(p), EndLedger(l, p), blocks[t..n], blocks[n..]);
  }

  /** Trusting more of a list that already passed changes nothing. */
  lemma {:induction false} WidenTrust(cfg: Config, hs: Headers, l: Ledger, blocks: seq<Block>, t: nat, wider: nat, now: u64)
    requires t <= wider && RebuiltSteps(cfg, hs, l, blocks, t, now).Success?
    ensures RebuiltSteps(cfg, hs, l, blocks, wider, now) == RebuiltSteps(cfg, hs, l, blocks, t, now)
  {
    hide StepsOf, RootsMatch, RebuiltSteps;
    var n := |blocks|;
    if t <= n {
      var j := if wider <= n then wider else n;
      RebuiltPrefix(cfg, hs, l, blocks, t, j, now);
      WidenPinned(cfg, hs, l, blocks, t, j, now);
      BeyondTheEnd(cfg, hs, l, blocks, j, wider, now);
    } else {
      BeyondTheEnd(cfg, hs, l, blocks, t, wider, now);
    }
  }

  /** Trusting more blocks than there are is trusting all of them. */
  lemma {:induction false} BeyondTheEnd(cfg: Config, hs: Headers, l: Ledger, blocks: seq<Block>, j: nat, wider: nat, now: u64)
    requires j == wider || |blocks| <= j <= wider
    requires j == 0 ==> wider == 0 || blocks == []
    ensures RebuiltSteps(cfg, hs, l, blocks, wider, now) == RebuiltSteps(cfg, hs, l, blocks, j, now)
  {
    hide RootsMatch, Next;
  }

  function Prepend(x: seq<Step>, r: Result<seq<Step>, ConsensusError>): Result<seq<Step>, ConsensusError> {
    var z :- r;
    Success(x + z)
  }

  /** Replaying our own first f blocks and then the rest is continuing from our state at f. */
  lemma {:induction false} PrependHistory(cfg: Config, x: seq<Step>, f: nat, blocks: seq<Block>, w: nat, now: u64)
    requires History(cfg, x) && f <= |x| && w <= |blocks| && PrefixRoots(x[..f]).Pass?
    ensures RebuiltSteps(cfg, [], ForNetwork(cfg.network), StepBlocks(x[..f]) + blocks, f + w, now)
            == Prepend(x[..f], RebuiltSteps(cfg, Compacts(x[..f]), LedgerAt(cfg, x, f), blocks, w, now))
  {
    hide StepsOf, RootsMatch, History;
    var all := StepBlocks(x[..f]) + blocks;
    assert x[..0] == [] && x[0..f] == x[..f] && Compacts(x[..0]) == [] && LedgerAt(cfg, x, 0) == ForNetwork(cfg.network);
    ReplayOf(cfg, x, 0, f);
    assert all[..f + w] == StepBlocks(x[..f]) + blocks[..w] && all[f + w..] == blocks[w..];
    StepsConcat(cfg, OwnDisk, [], ForNetwork(cfg.network), StepBlocks(x[..f]), blocks[..w]);
    assert [] + Compacts(x[..f]) == Compacts(x[..f]);
    assert EndLedger(ForNetwork(cfg.network), x[..f]) == LedgerAt(cfg, x, f);
    if StepsOf(cfg, OwnDisk, Compacts(x[..f]), LedgerAt(cfg, x, f), blocks[..w]).Success? {
      var p := StepsOf(cfg, OwnDisk, Compacts(x[..f]), LedgerAt(cfg, x, f), blocks[..w]).value;
      StepsLength(cfg, OwnDisk, Compacts(x[..f]), LedgerAt(cfg, x, f), blocks[..w]);
      EndOfConcat([], ForNetwork(cfg.network), x[..f], p);
      if p == [] {
        assert x[..f] + p == x[..f];
      } else {
        assert PrefixRoots(x[..f] + p) == PrefixRoots(p);
      }
      assert forall r: seq<Step> :: (x[..f] + p) + r == x[..f] + (p + r);
    }
  }

  lemma {:induction false} ZeroTrust(cfg: Config, hs: Headers, l: Ledger, blocks: seq<Block>, now: u64)
    ensures RebuiltSteps(cfg, hs, l, blocks, 0, now) == StepsOf(cfg, Full(now), hs, l, blocks)
  {
    hide Next;
    assert blocks[..0] == [] && blocks[0..] == blocks;
    assert StepsOf(cfg, OwnDisk, hs, l, []) == Success([]);
    assert Compacts([]) == [] && hs + Compacts([]) == hs;
    assert forall y: seq<Step> :: [] + y == y;
  }

  // ------------------------------------------------------ the refinement --

  lemma {:induction false} SlowSteps(cfg: Config, x: seq<Step>, a: nat, suffix: seq<Block>, now: u64)
    requires History(cfg, x) && a < |x| && PrefixRoots(x[..a + 1]).Pass?
    ensures RebuiltSteps(cfg, [], ForNetwork(cfg.network), StepBlocks(x[..a + 1]) + suffix, a + 1, now)
            == Prepend(x[..a + 1], SuffixSteps(cfg, x, a, suffix, now))
  {
    hide History, RebuiltSteps, StepsOf, PrefixRoots;
    PrependHistory(cfg, x, a + 1, suffix, 0, now);
    ZeroTrust(cfg, Compacts(x[..a + 1]), LedgerAt(cfg, x, a + 1), suffix, now);
  }

  /** A suffix that verifies on the trial also verifies behind a replay of our history from genesis. */
  lemma {:induction false} RebuildAcceptsSuffix(cfg: Config, x: seq<Step>, a: nat, suffix: seq<Block>, now: u64)
    requires History(cfg, x) && a < |x| && PrefixRoots(x[..a + 1]).Pass?
    requires SuffixSteps(cfg, x, a, suffix, now).Success?
    ensures Rebuild(cfg, StepBlocks(x[..a + 1]) + suffix, a + 1, now)
            == Success(ArchiveOf(cfg, x[..a + 1] + SuffixSteps(cfg, x, a, suffix, now).value))
  {
    hide History, RebuiltSteps, StepsOf, PrefixRoots, RebuildFrom, PushAll, AssumeValidTo, ForNetwork;
    var blocks := StepBlocks(x[..a + 1]) + suffix;
    var assumed := AssumeValidTo(cfg, |blocks|);
    var trusted := if a + 1 >= assumed then a + 1 else assumed;
    SlowSteps(cfg, x, a, suffix, now);
    WidenTrust(cfg, [], ForNetwork(cfg.network), blocks, a + 1, trusted, now);
    RebuildFromSteps(cfg, NewFair(cfg), blocks, trusted, now);
  }

  /** Everything the two chains are compared on. */
  ghost predicate SameChain(fast: ChainState, slow: ChainState) {
    && fast.headers == slow.headers && fast.ledger == slow.ledger && fast.totalWork == slow.totalWork
    && fast.firstHeight <= |slow.blocks| && fast.blocks == slow.blocks[fast.firstHeight..]
    && |fast.undos| <= |slow.undos| && fast.undos == slow.undos[|slow.undos| - |fast.undos|..]
  }

  /** An archive node's fields, by the invariant. */
  lemma {:induction false} ArchiveInv(cfg: Config, x: seq<Step>)
    requires History(cfg, x)
    ensures Inv(cfg, ArchiveOf(cfg, x), x) && ArchiveOf(cfg, x).firstHeight == 0
    ensures ArchiveOf(cfg, x).undos == Newest(Undos(x))
  {
    hide History, PushAll, Window, TailUndos, UndoWork;
    NewFairInv(cfg);
    assert [] + x == x;
    PushAllFields(NewFair(cfg), x);
    PushAllUndos(NewFair(cfg), x);
    assert [] + Undos(x) == Undos(x);
    assert History(cfg, []) by { NoHistory(cfg); }
    PushInv(cfg, NewFair(cfg), [], x, ArchiveOf(cfg, x));
  }

  lemma {:induction false} NoHistory(cfg: Config)
    ensures History(cfg, [])
  {
  }

  /** Any two chains with one history agree on everything but how much of it they keep. */
  lemma {:induction false} SameHistorySameChain(cfg: Config, s: ChainState, z: seq<Step>)
    requires Inv(cfg, s, z)
    ensures SameChain(s, ArchiveOf(cfg, z))
  {
    hide History, PushAll, UndoWork;
    ArchiveInv(cfg, z);
    assert z[0..] == z;
    assert StepBlocks(z[s.firstHeight..]) == StepBlocks(z)[s.firstHeight..];
    NewestIsLongest(s.undos, z);
  }

  lemma {:induction false} NewestIsLongest(undos: seq<TipUndo>, z: seq<Step>)
    requires TailUndos(undos, z)
    ensures var all := Newest(Undos(z)); |undos| <= |all| && undos == all[|all| - |undos|..]
  {
  }

  /** Prepare, finish and splice in one go; `None` when the suffix does not win or the splice is refused. */
  function FastReorganise(cfg: Config, s: ChainState, a: nat, suffix: seq<Block>, now: u64)
    : Result<Option<ChainState>, ConsensusError>
  {
    var t :- PrepareSuffixTrial(cfg, s, a);
    var r :- FinishSuffix(cfg, t, suffix, now);
    Success(if r.None? then None else SpliceSuffix(cfg, s, r.value))
  }

  lemma {:induction false} FastSteps(cfg: Config, s: ChainState, x: seq<Step>, a: nat, suffix: seq<Block>, now: u64)
    requires Inv(cfg, s, x) && Verified(cfg, x)
    requires FastReorganise(cfg, s, a, suffix, now).Success? && FastReorganise(cfg, s, a, suffix, now).value.Some?
    ensures a < |x| && SuffixSteps(cfg, x, a, suffix, now).Success?
    ensures FastReorganise(cfg, s, a, suffix, now).value
            == SpliceSuffix(cfg, s, ReorgOf(cfg, x, a, SuffixSteps(cfg, x, a, suffix, now).value))
  {
    hide PrepareSuffixTrial, FinishSuffix, SpliceSuffix, Inv, History, Verified, StepsOf, FreshAt, UndoWork, WorkOf, ReorgOf,
         PreparedAt;
    VerifiedFacts(cfg, x);
    PrepareFresh(cfg, s, x, a);
    FinishExact(cfg, x, a, suffix, now);
  }

  /**
    The fast path refines the slow one.  On a chain that satisfies the invariant, if prepare, finish and
    splice commit a suffix at ancestor a, then replaying our blocks up to a and the suffix from genesis
    succeeds too and builds the same chain; the undo records are again those of the newest blocks.
   */
  lemma {:induction false} FastRefinesSlow(cfg: Config, s: ChainState, x: seq<Step>, a: nat, suffix: seq<Block>, now: u64)
    requires Inv(cfg, s, x) && Verified(cfg, x)
    requires FastReorganise(cfg, s, a, suffix, now).Success? && FastReorganise(cfg, s, a, suffix, now).value.Some?
    ensures a < |x| && SuffixSteps(cfg, x, a, suffix, now).Success?
    ensures var fast := FastReorganise(cfg, s, a, suffix, now).value.value;
            var slow := Rebuild(cfg, StepBlocks(x[..a + 1]) + suffix, a + 1, now);
            var y := SuffixSteps(cfg, x, a, suffix, now).value;
            && slow.Success? && SameChain(fast, slow.value)
            && Inv(cfg, fast, x[..a + 1] + y) && Verified(cfg, x[..a + 1] + y)
            && |x| - 1 - a <= |s.undos|
            && fast.undos == Newest(s.undos[..|s.undos| - (|x| - 1 - a)] + Undos(y))
  {
    hide FastReorganise, SpliceSuffix, Inv, History, Verified, StepsOf, Rebuild, SameChain, PushAll, PrefixRoots, UndoWork,
         Newest, ReorgOf, ArchiveOf;
    FastSteps(cfg, s, x, a, suffix, now);
    var y := SuffixSteps(cfg, x, a, suffix, now).value;
    VerifiedFacts(cfg, x);
    VerifiedExtends(cfg, x, a, suffix, now);
    SpliceExact(cfg, s, x, a, y);
    VerifiedRoots(cfg, x, a);
    RebuildAcceptsSuffix(cfg, x, a, suffix, now);
    SameHistorySameChain(cfg, SpliceSuffix(cfg, s, ReorgOf(cfg, x, a, y)).value, x[..a + 1] + y);
  }

  lemma {:induction false} VerifiedFacts(cfg: Config, x: seq<Step>)
    requires Verified(cfg, x)
    ensures History(cfg, x) && forall i :: 0 <= i < |x| ==> FreshAt(cfg, x, i)
  {
    hide StepAt, CheckedAt, FreshAt;
    VerifiedIsHistory(cfg, x);
    forall i | 0 <= i < |x| ensures FreshAt(cfg, x, i) {
      CheckedFacts(cfg, x, i);
    }
  }

  lemma {:induction false} VerifiedRoots(cfg: Config, x: seq<Step>, a: nat)
    requires Verified(cfg, x) && a < |x|
    ensures PrefixRoots(x[..a + 1]).Pass?
  {
    hide CheckedAt, RootsMatch;
    CheckedFacts(cfg, x, a);
  }

  /** Our verified history up to the ancestor and the verified suffix make a verified history. */
  lemma {:induction false} VerifiedExtends(cfg: Config, x: seq<Step>, a: nat, suffix: seq<Block>, now: u64)
    requires Verified(cfg, x) && a < |x| && SuffixSteps(cfg, x, a, suffix, now).Success?
    ensures var z := x[..a + 1] + SuffixSteps(cfg, x, a, suffix, now).value; History(cfg, z) && Verified(cfg, z)
  {
    hide StepAt, CheckedAt, StepsOf, History;
    VerifiedIsHistory(cfg, x);
    HistoryPrefix(cfg, x, a + 1);
    var b := x[..a + 1];
    assert b[..a + 1] == b;
    HistoryExtends(cfg, Full(now), b, suffix);
    var z := b + SuffixSteps(cfg, x, a, suffix, now).value;
    forall i | 0 <= i < |z| ensures CheckedAt(cfg, z, i) {
      if i <= a {
        PrefixAt(cfg, b, x, i);
        PrefixAt(cfg, b, z, i);
      }
    }
  }
}
