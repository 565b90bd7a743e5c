/**
  The representation invariant of a chain: its fields against the full history of applied blocks,
  each with the ledger it left and the record that takes it back.
 */
module ChainInvariant {
  import opened Wrappers
  import opened Words
  import opened Curve
  import opened Transactions
  import opened Ledgers
  import opened LedgerProofs
  import opened Blocks
  import opened Consensus
  import opened StepProofs

  // ------------------------------------------------------------- history --

  ghost function LedgerAt(cfg: Config, x: seq<Step>, i: nat): Ledger
    requires i <= |x|
  {
    EndLedger(ForNetwork(cfg.network), x[..i])
  }

  /** Block i links to the blocks before it, and replays from their ledger. */
  ghost predicate StepAt(cfg: Config, x: seq<Step>, i: nat)
    requires i < |x|
  {
    Trust(cfg, Compacts(x[..i]), LedgerAt(cfg, x, i), x[i].block) == Success(x[i])
  }

  ghost predicate History(cfg: Config, x: seq<Step>) {
    forall i :: 0 <= i < |x| ==> StepAt(cfg, x, i)
  }

  /** Block i passed `apply_block` at some time, proof of work included. */
  ghost predicate CheckedAt(cfg: Config, x: seq<Step>, i: nat)
    requires i < |x|
  {
    exists now: u64 :: AcceptedAt(cfg, x, i, now)
  }

  ghost predicate AcceptedAt(cfg: Config, x: seq<Step>, i: nat, now: u64)
    requires i < |x|
  {
    Accept(cfg, Compacts(x[..i]), LedgerAt(cfg, x, i), x[i].block, now, true) == Success(x[i])
  }

  ghost predicate Verified(cfg: Config, x: seq<Step>) {
    forall i :: 0 <= i < |x| ==> CheckedAt(cfg, x, i)
  }

  /** Block i overwrote no unspent output. */
  ghost predicate FreshAt(cfg: Config, x: seq<Step>, i: nat)
    requires i < |x|
  {
    Fresh(LedgerAt(cfg, x, i), x[i].block.body)
  }

  lemma {:induction false} CheckedFacts(cfg: Config, x: seq<Step>, i: nat)
    requires i < |x| && CheckedAt(cfg, x, i)
    ensures StepAt(cfg, x, i) && FreshAt(cfg, x, i)
    ensures RootsMatch(x[i].ledger, x[i].block.header).Pass?
    ensures cfg.pow(x[i].block.header)
    ensures x[i].block.header.difficulty == NextDifficulty(cfg, Compacts(x[..i]))
    ensures i > 0 ==> x[i].block.header.timestamp > MedianTimePast(Compacts(x[..i]))
  {
    hide Accept, Trust, Fresh, RootsMatch, NextDifficulty, MedianTimePast, Normal, CheckHeader;
    var now: u64 :| AcceptedAt(cfg, x, i, now);
    AcceptRefinesTrust(cfg, Compacts(x[..i]), LedgerAt(cfg, x, i), x[i].block, now, true);
    AcceptSteps(cfg, Compacts(x[..i]), LedgerAt(cfg, x, i), x[i].block, now, true);
    NormalIdempotent(cfg, x[i].block);
    HeaderLinks(cfg, Compacts(x[..i]), Normal(cfg, x[i].block), now, true);
  }

  lemma {:induction false} VerifiedIsHistory(cfg: Config, x: seq<Step>)
    requires Verified(cfg, x)
    ensures History(cfg, x)
  {
    hide StepAt, CheckedAt;
    forall i | 0 <= i < |x| ensures StepAt(cfg, x, i) {
      CheckedFacts(cfg, x, i);
    }
  }

  /** Being a history looks only backwards. */
  lemma {:induction false} PrefixAt(cfg: Config, x: seq<Step>, y: seq<Step>, i: nat)
    requires i < |x| && |x| <= |y| && y[..|x|] == x
    ensures LedgerAt(cfg, x, i) == LedgerAt(cfg, y, i) && x[..i] == y[..i] && x[i] == y[i]
    ensures StepAt(cfg, x, i) <==> StepAt(cfg, y, i)
    ensures CheckedAt(cfg, x, i) <==> CheckedAt(cfg, y, i)
    ensures FreshAt(cfg, x, i) <==> FreshAt(cfg, y, i)
  {
    hide Accept, Trust, Fresh;
    assert y[..|x|][i] == y[i];
    assert x[..i] == y[..i];
    forall now: u64 ensures AcceptedAt(cfg, x, i, now) <==> AcceptedAt(cfg, y, i, now) {
    }
  }

  lemma {:induction false} HistoryPrefix(cfg: Config, y: seq<Step>, k: nat)
    requires k <= |y|
    ensures History(cfg, y) ==> History(cfg, y[..k])
    ensures Verified(cfg, y) ==> Verified(cfg, y[..k])
  {
    hide StepAt, CheckedAt;
    forall i | 0 <= i < k
      ensures StepAt(cfg, y[..k], i) == StepAt(cfg, y, i) && CheckedAt(cfg, y[..k], i) == CheckedAt(cfg, y, i)
    {
      PrefixAt(cfg, y[..k], y, i);
    }
  }

  /** A history continued by a run is a history; a fully validated run keeps it verified. */
  lemma {:induction false} HistoryExtends(cfg: Config, mode: Mode, x: seq<Step>, blocks: seq<Block>)
    requires History(cfg, x)
    requires StepsOf(cfg, mode, Compacts(x), LedgerAt(cfg, x, |x|), blocks).Success?
    ensures var y := StepsOf(cfg, mode, Compacts(x), LedgerAt(cfg, x, |x|), blocks).value;
            && History(cfg, x + y)
            && (mode.Full? ==> forall i :: |x| <= i < |x + y| ==> CheckedAt(cfg, x + y, i))
  {
    hide Accept, Trust, StepAt, CheckedAt, Normal;
    assert x[..|x|] == x;
    if blocks == [] {
      assert x + [] == x;
    } else {
      var n := |blocks| - 1;
      HistoryExtends(cfg, mode, x, blocks[..n]);
      var before := StepsOf(cfg, mode, Compacts(x), LedgerAt(cfg, x, |x|), blocks[..n]).value;
      var y := StepsOf(cfg, mode, Compacts(x), LedgerAt(cfg, x, |x|), blocks).value;
      var z := x + before;
      var step := y[|y| - 1];
      assert y == before + [step] && x + y == z + [step];
      EndOfConcat(Compacts([]), ForNetwork(cfg.network), x, before);
      EndOfConcat(Compacts(x), LedgerAt(cfg, x, |x|), [], before);
      assert Compacts(x) + Compacts(before) == Compacts(z);
      assert EndLedger(LedgerAt(cfg, x, |x|), before) == LedgerAt(cfg, z, |z|);
      OneMore(cfg, mode, z, blocks[n]);
      forall i | |x| <= i < |z| && mode.Full? ensures CheckedAt(cfg, x + y, i) {
        PrefixAt(cfg, z, x + y, i);
      }
    }
  }

  lemma {:induction false} OneMore(cfg: Config, mode: Mode, z: seq<Step>, b: Block)
    requires History(cfg, z) && Next(cfg, mode, Compacts(z), LedgerAt(cfg, z, |z|), b).Success?
    ensures var y := z + [Next(cfg, mode, Compacts(z), LedgerAt(cfg, z, |z|), b).value];
            History(cfg, y) && (mode.Full? ==> CheckedAt(cfg, y, |z|))
  {
    hide Accept, Trust, StepAt, CheckedAt, Normal;
    var step := Next(cfg, mode, Compacts(z), LedgerAt(cfg, z, |z|), b).value;
    var y := z + [step];
    NextStores(cfg, mode, Compacts(z), LedgerAt(cfg, z, |z|), b);
    TrustNormal(cfg, Compacts(z), LedgerAt(cfg, z, |z|), b);
    assert z[..|z|] == z && y[..|z|] == z && y[|z|] == step;
    StoredStep(cfg, y, |z|);
    forall i | 0 <= i < |y| ensures StepAt(cfg, y, i) {
      if i < |z| {
        PrefixAt(cfg, z, y, i);
      }
    }
    if mode.Full? {
      AcceptNormal(cfg, Compacts(z), LedgerAt(cfg, z, |z|), b, mode.now, true);
      StoredCheck(cfg, y, |z|, mode.now);
    }
  }

  lemma {:induction false} StoredStep(cfg: Config, y: seq<Step>, i: nat)
    requires i < |y| && Trust(cfg, Compacts(y[..i]), LedgerAt(cfg, y, i), y[i].block) == Success(y[i])
    ensures StepAt(cfg, y, i)
  {
  }

  lemma {:induction false} StoredCheck(cfg: Config, y: seq<Step>, i: nat, now: u64)
    requires i < |y| && Accept(cfg, Compacts(y[..i]), LedgerAt(cfg, y, i), y[i].block, now, true) == Success(y[i])
    ensures CheckedAt(cfg, y, i)
  {
    hide Accept;
    assert AcceptedAt(cfg, y, i, now);
  }

  /** Heights are indices, every block names its predecessor, and every pin in reach is met. */
  lemma {:induction false} HistoryLinks(cfg: Config, x: seq<Step>, i: nat)
    requires History(cfg, x) && i < |x|
    ensures x[i].block.header.height == i
    ensures x[i].block.header.prevHash == if i == 0 then GenesisHash(cfg.network) else HashOf(x[i - 1].block)
    ensures CheckpointAt(cfg.checkpoints, i).Some? ==> HashOf(x[i].block) == CheckpointAt(cfg.checkpoints, i).value
    ensures Normal(cfg, x[i].block) == x[i].block
    ensures x[i].undo.work == Work(x[i].block.header.difficulty)
    ensures CaptureUndo(LedgerAt(cfg, x, i), x[i].block.body) == Success(x[i].undo.state)
    ensures ApplyStateOnly(LedgerAt(cfg, x, i), x[i].block.body, i, Subsidy(LedgerAt(cfg, x, i), i)) == Success(x[i].ledger)
  {
    hide Trust, CaptureUndo, ApplyStateOnly, Subsidy, Normal;
    assert StepAt(cfg, x, i);
    TrustSteps(cfg, Compacts(x[..i]), LedgerAt(cfg, x, i), x[i].block);
    if i > 0 {
      HistoryLinks(cfg, x, i - 1);
      assert Compacts(x[..i])[i - 1] == Compact(x[i - 1].block);
    }
  }

  // ----------------------------------------------------------- invariant --

  /** The undo records kept are those of the newest blocks. */
  ghost predicate TailUndos(undos: seq<TipUndo>, x: seq<Step>) {
    |undos| <= MAX_REORG_DEPTH && |undos| <= |x| && undos == Undos(x[|x| - |undos|..])
  }

  /** The bodies kept, and the ledger and work below them. */
  ghost predicate Window(cfg: Config, s: ChainState, x: seq<Step>) {
    && s.firstHeight <= |x|
    && s.blocks == StepBlocks(x[s.firstHeight..])
    && s.horizon == (if s.firstHeight == 0 then None else Some(LedgerAt(cfg, x, s.firstHeight)))
    && s.horizonWork == UndoWork(Undos(x[..s.firstHeight]))
  }

  ghost predicate Inv(cfg: Config, s: ChainState, x: seq<Step>) {
    && History(cfg, x)
    && s.ledger == LedgerAt(cfg, x, |x|)
    && s.headers == Compacts(x)
    && s.totalWork == UndoWork(Undos(x))
    && Window(cfg, s, x)
    && TailUndos(s.undos, x)
  }

  lemma {:induction false} NewFairInv(cfg: Config)
    ensures Inv(cfg, NewFair(cfg), [])
  {
  }

  /** Work in the fields is the work of the headers. */
  lemma {:induction false} WorkOfHistory(cfg: Config, x: seq<Step>)
    requires History(cfg, x)
    ensures UndoWork(Undos(x)) == WorkOf(StepBlocks(x))
  {
    if x != [] {
      var n := |x| - 1;
      HistoryPrefix(cfg, x, n);
      WorkOfHistory(cfg, x[..n]);
      HistoryLinks(cfg, x, n);
      assert Undos(x)[..n] == Undos(x[..n]);
      assert StepBlocks(x)[..n] == StepBlocks(x[..n]);
    }
  }

  lemma {:induction false} NewestOfTail(undos: seq<TipUndo>, x: seq<Step>, y: seq<Step>)
    requires TailUndos(undos, x)
    ensures TailUndos(Newest(undos + Undos(y)), x + y)
  {
    var m := |undos|;
    var z := x + y;
    assert undos + Undos(y) == Undos(z[|x| - m..]);
    var u := Newest(undos + Undos(y));
    assert z[|x| - m..][m + |y| - |u|..] == z[|z| - |u|..];
    assert u == Undos(z[|z| - |u|..]);
  }

  /** Applying a run, on either path, keeps the invariant. */
  lemma {:induction false} RunKeepsInv(cfg: Config, mode: Mode, s: ChainState, x: seq<Step>, blocks: seq<Block>)
    requires Inv(cfg, s, x) && Run(cfg, mode, s, blocks).Success?
    ensures StepsOf(cfg, mode, s.headers, s.ledger, blocks).Success?
    ensures var y := StepsOf(cfg, mode, s.headers, s.ledger, blocks).value;
            Inv(cfg, Run(cfg, mode, s, blocks).value, x + y)
  {
    hide StepsOf, History, StepAt, PushAll, UndoWork, Window, Newest;
    var y := StepsOf(cfg, mode, s.headers, s.ledger, blocks).value;
    HistoryExtends(cfg, mode, x, blocks);
    PushAllFields(s, y);
    PushAllUndos(s, y);
    PushInv(cfg, s, x, y, PushAll(s, y));
  }

  lemma {:induction false} WindowGrows(cfg: Config, s: ChainState, x: seq<Step>, y: seq<Step>, r: ChainState)
    requires Window(cfg, s, x)
    requires r.firstHeight == s.firstHeight && r.horizon == s.horizon && r.horizonWork == s.horizonWork
    requires r.blocks == s.blocks + StepBlocks(y)
    ensures Window(cfg, r, x + y)
  {
    hide UndoWork;
    var z := x + y;
    assert z[..s.firstHeight] == x[..s.firstHeight];
    assert z[s.firstHeight..] == x[s.firstHeight..] + y;
  }

  lemma {:induction false} PushInv(cfg: Config, s: ChainState, x: seq<Step>, y: seq<Step>, r: ChainState)
    requires Inv(cfg, s, x) && History(cfg, x + y)
    requires r.ledger == EndLedger(s.ledger, y) && r.blocks == s.blocks + StepBlocks(y) && r.headers == s.headers + Compacts(y)
    requires r.firstHeight == s.firstHeight && r.horizon == s.horizon && r.horizonWork == s.horizonWork
    requires r.totalWork == s.totalWork + UndoWork(Undos(y)) && r.undos == Newest(s.undos + Undos(y))
    ensures Inv(cfg, r, x + y)
  {
    hide History, UndoWork, Window, TailUndos;
    var z := x + y;
    assert z[..|z|] == z && x[..|x|] == x;
    WindowGrows(cfg, s, x, y, r);
    assert Undos(z) == Undos(x) + Undos(y);
    UndoWorkConcat(Undos(x), Undos(y));
    NewestOfTail(s.undos, x, y);
  }

  // --------------------------------------------------------------- prune --

  /** The horizon advances over a stretch of history without failing, to the ledger at its end. */
  lemma {:induction false} AdvanceOverHistory(cfg: Config, x: seq<Step>, lo: nat, hi: nat, work: nat)
    requires History(cfg, x) && lo <= hi <= |x|
    ensures Advance(LedgerAt(cfg, x, lo), work, StepBlocks(x[lo..hi]))
            == Success((LedgerAt(cfg, x, hi), work + UndoWork(Undos(x[lo..hi]))))
    decreases hi - lo
  {
    hide History, ApplyStateOnly, Subsidy;
    if lo < hi {
      AdvanceOverHistory(cfg, x, lo, hi - 1, work);
      HistoryLinks(cfg, x, hi - 1);
      assert StepBlocks(x[lo..hi])[..hi - 1 - lo] == StepBlocks(x[lo..hi - 1]);
      assert Undos(x[lo..hi])[..hi - 1 - lo] == Undos(x[lo..hi - 1]);
    } else {
      assert x[lo..hi] == [];
    }
  }

  lemma {:induction false} HorizonMoves(cfg: Config, s: ChainState, x: seq<Step>, n: nat)
    requires History(cfg, x) && Window(cfg, s, x) && n <= |s.blocks|
    ensures Advance(LedgerAt(cfg, x, s.firstHeight), s.horizonWork, s.blocks[..n])
            == Success((LedgerAt(cfg, x, s.firstHeight + n), UndoWork(Undos(x[..s.firstHeight + n]))))
  {
    hide History, UndoWork, Advance, LedgerAt;
    var f := s.firstHeight;
    assert s.blocks[..n] == StepBlocks(x[f..f + n]);
    AdvanceOverHistory(cfg, x, f, f + n, s.horizonWork);
    assert Undos(x[..f + n]) == Undos(x[..f]) + Undos(x[f..f + n]);
    UndoWorkConcat(Undos(x[..f]), Undos(x[f..f + n]));
  }

  /** Where the horizon walk starts: the recorded horizon, or genesis when nothing was pruned yet. */
  lemma {:induction false} HorizonStart(cfg: Config, s: ChainState, x: seq<Step>)
    requires Window(cfg, s, x)
    ensures (if s.horizon.Some? then s.horizon.value else ForNetwork(cfg.network)) == LedgerAt(cfg, x, s.firstHeight)
    ensures (if s.horizon.Some? then s.horizonWork else 0) == s.horizonWork
  {
    EmptyWork();
    if s.firstHeight == 0 {
      assert x[..0] == [];
      assert Undos(x[..0]) == [];
    }
  }

  lemma {:induction false} WindowShrinks(cfg: Config, s: ChainState, x: seq<Step>, n: nat, r: ChainState)
    requires Window(cfg, s, x) && 0 < n <= |s.blocks|
    requires r.firstHeight == s.firstHeight + n && r.blocks == s.blocks[n..]
    requires r.horizon == Some(LedgerAt(cfg, x, r.firstHeight)) && r.horizonWork == UndoWork(Undos(x[..r.firstHeight]))
    ensures Window(cfg, r, x)
  {
    hide UndoWork, LedgerAt;
    assert x[s.firstHeight..][n..] == x[s.firstHeight + n..];
  }

  /** Pruning never fails, and keeps everything but bodies: the invariant holds for the same history. */
  lemma {:induction false} PruneKeepsInv(cfg: Config, s: ChainState, x: seq<Step>, keep: nat)
    requires Inv(cfg, s, x)
    ensures PruneKeep(cfg, s, keep).Success?
    ensures var r := PruneKeep(cfg, s, keep).value;
            && Inv(cfg, r, x)
            && r.ledger == s.ledger && r.headers == s.headers && r.totalWork == s.totalWork && r.undos == s.undos
            && |r.blocks| == if |s.blocks| <= keep then |s.blocks| else if keep == 0 && s.blocks != [] then 1 else keep
  {
    hide History, TailUndos, UndoWork, Advance, Window, LedgerAt, Compacts, Undos;
    var kept := if keep == 0 then 1 else keep;
    if |s.blocks| > kept {
      var n := |s.blocks| - kept;
      HorizonStart(cfg, s, x);
      HorizonMoves(cfg, s, x, n);
      WindowShrinks(cfg, s, x, n, PruneKeep(cfg, s, keep).value);
    }
  }

  lemma {:induction false} EmptyWork()
    ensures UndoWork([]) == 0
  {
  }

  // ------------------------------------------------------- rewinding --

  lemma {:induction false} EndsWith(cfg: Config, x: seq<Step>)
    requires x != []
    ensures LedgerAt(cfg, x, |x|) == x[|x| - 1].ledger
  {
    assert x[..|x|] == x;
  }

  lemma {:induction false} PrefixLedger(cfg: Config, x: seq<Step>, k: nat, i: nat)
    requires i <= k <= |x|
    ensures LedgerAt(cfg, x[..k], i) == LedgerAt(cfg, x, i)
  {
    assert x[..k][..i] == x[..i];
  }

  /**
    The output c, unspent after the first m blocks of x, is lost when the blocks above are taken back from the ledger w at
    the tip: some block created it again before any block spent it, or w has lost it already.
   */
  ghost predicate Lost(w: Ledger, x: seq<Step>, m: nat, c: Bytes32)
    requires m <= |x|
    decreases |x| - m
  {
    if m == |x| then c !in w.utxos
    else !Spends(x[m].block.body.inputs, c) && (Creates(x[m].block.body.outputs, c) || Lost(w, x, m + 1, c))
  }

  ghost predicate NothingLost(cfg: Config, w: Ledger, x: seq<Step>, m: nat)
    requires m <= |x|
  {
    forall c :: c in LedgerAt(cfg, x, m).utxos ==> !Lost(w, x, m, c)
  }

  /** Taking back the last block first, and then the rest. */
  lemma {:induction false} LostBelow(cfg: Config, x: seq<Step>, w: Ledger, before: Ledger, m: nat, c: Bytes32)
    requires History(cfg, x) && m < |x| && c in LedgerAt(cfg, x, m).utxos
    requires var last := |x| - 1;
             forall d :: d in LedgerAt(cfg, x, last).utxos ==>
               (d in before.utxos <==> Spends(x[last].block.body.inputs, d) || (!Creates(x[last].block.body.outputs, d) && d in w.utxos))
    ensures Lost(before, x[..|x| - 1], m, c) <==> Lost(w, x, m, c)
    decreases |x| - m
  {
    hide History, ApplyStateOnly, CaptureUndo, Subsidy, Normal, CheckpointAt, Spends, Creates, LedgerAt;
    if m == |x| - 1 {
      assert Lost(w, x, m + 1, c) <==> c !in w.utxos;
    } else {
      HistoryLinks(cfg, x, m);
      var l := LedgerAt(cfg, x, m);
      if !Spends(x[m].block.body.inputs, c) {
        Survives(l, x[m].block.body, m, Subsidy(l, m), c);
        LedgerAfter(cfg, x, m);
        LostBelow(cfg, x, w, before, m + 1, c);
      }
    }
  }

  /** The ledger after the first i+1 blocks is the one block i left. */
  lemma {:induction false} LedgerAfter(cfg: Config, x: seq<Step>, i: nat)
    requires i < |x|
    ensures LedgerAt(cfg, x, i + 1) == x[i].ledger
  {
    assert x[..i + 1][i] == x[i];
  }

  /**
    Taking back the newest n blocks of any history, whatever its bodies, from a ledger that may lack outputs: what comes back
    is the ledger of n blocks ago without the lost outputs, and nothing else.
   */
  lemma {:induction false} RewindManyIs(cfg: Config, x: seq<Step>, w: Ledger, undos: seq<TipUndo>, n: nat)
    requires History(cfg, x) && n <= |undos| <= |x| && undos == Undos(x[|x| - |undos|..])
    requires Within(w, LedgerAt(cfg, x, |x|))
    ensures Within(RewindMany(w, undos, n), LedgerAt(cfg, x, |x| - n))
    ensures forall c :: c in LedgerAt(cfg, x, |x| - n).utxos ==>
              (c in RewindMany(w, undos, n).utxos <==> !Lost(w, x, |x| - n, c))
    decreases n
  {
    hide History, Rewind, Within, LedgerAt, ApplyStateOnly, CaptureUndo, Subsidy, Lost, Spends, Creates, Normal, CheckpointAt;
    if n == 0 {
      forall c ensures Lost(w, x, |x|, c) <==> c !in w.utxos {
        LostAtTip(w, x, c);
      }
    } else {
      var last, m := |x| - 1, |x| - n;
      var y := x[..last];
      var l := LedgerAt(cfg, x, last);
      HistoryLinks(cfg, x, last);
      HistoryPrefix(cfg, x, last);
      EndsWith(cfg, x);
      RewindWithin(w, l, x[last].block.body, last, Subsidy(l, last));
      var before := Rewind(w, x[last].undo.state);
      assert undos[|undos| - 1] == x[last].undo;
      assert undos[..|undos| - 1] == Undos(y[|y| - (|undos| - 1)..]);
      PrefixLedger(cfg, x, last, last);
      RewindManyIs(cfg, y, before, undos[..|undos| - 1], n - 1);
      PrefixLedger(cfg, x, last, m);
      forall c | c in LedgerAt(cfg, x, m).utxos ensures Lost(before, y, m, c) <==> Lost(w, x, m, c) {
        LostBelow(cfg, x, w, before, m, c);
      }
    }
  }

  lemma {:induction false} LostAtTip(w: Ledger, x: seq<Step>, c: Bytes32)
    ensures Lost(w, x, |x|, c) <==> c !in w.utxos
  {
  }

  lemma {:induction false} WithinAll(w: Ledger, l: Ledger)
    requires Within(w, l)
    ensures w == l <==> forall c :: c in l.utxos ==> c in w.utxos
  {
    if forall c :: c in l.utxos ==> c in w.utxos {
      assert w.utxos == l.utxos;
    }
  }

  /**
    Taking back the newest n blocks restores the ledger before them exactly when none of its outputs was created again
    above without having been spent first.
   */
  lemma {:induction false} RewindManyExact(cfg: Config, x: seq<Step>, w: Ledger, undos: seq<TipUndo>, n: nat)
    requires History(cfg, x) && n <= |undos| <= |x| && undos == Undos(x[|x| - |undos|..])
    requires Within(w, LedgerAt(cfg, x, |x|))
    ensures Within(RewindMany(w, undos, n), LedgerAt(cfg, x, |x| - n))
    ensures RewindMany(w, undos, n) == LedgerAt(cfg, x, |x| - n) <==> NothingLost(cfg, w, x, |x| - n)
  {
    hide History, Within, LedgerAt, RewindMany, Lost;
    RewindManyIs(cfg, x, w, undos, n);
    WithinAll(RewindMany(w, undos, n), LedgerAt(cfg, x, |x| - n));
  }

  /** Blocks that overwrite nothing lose nothing. */
  lemma {:induction false} FreshLosesNothing(cfg: Config, x: seq<Step>, m: nat)
    requires History(cfg, x) && m <= |x| && forall i :: m <= i < |x| ==> FreshAt(cfg, x, i)
    ensures NothingLost(cfg, LedgerAt(cfg, x, |x|), x, m)
    decreases |x| - m
  {
    hide History, ApplyStateOnly, CaptureUndo, Subsidy, Normal, CheckpointAt, Spends, Creates, LedgerAt;
    if m < |x| {
      FreshLosesNothing(cfg, x, m + 1);
      HistoryLinks(cfg, x, m);
      LedgerAfter(cfg, x, m);
      var l := LedgerAt(cfg, x, m);
      assert FreshAt(cfg, x, m);
      forall c | c in l.utxos ensures !Lost(LedgerAt(cfg, x, |x|), x, m, c) {
        if !Spends(x[m].block.body.inputs, c) {
          Survives(l, x[m].block.body, m, Subsidy(l, m), c);
        }
      }
    }
  }
}
