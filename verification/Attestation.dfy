/**
  Which candidates are as good as fully validated ones, and which are returned all the same.

  A block is attested when it agrees with a fully validated block in header, body root, resulting ledger and
  undo record: it may differ from one only in absent binding fields written as zeros.
 */
module Attestation {
  import opened Wrappers
  import opened Words
  import opened Curve
  import opened Utxos
  import opened Transactions
  import opened Ledgers
  import opened LedgerProofs
  import opened Blocks
  import opened Consensus
  import opened StepProofs
  import opened ChainInvariant
  import opened FastReorg
  import opened ForkChoice
  import opened Agreement

  /** Block by block the same header, body root, ledger and undo record. */
  ghost predicate Alike(x: seq<Step>, v: seq<Step>) {
    && |x| == |v|
    && forall k :: 0 <= k < |x| ==>
         && x[k].block.header == v[k].block.header && x[k].ledger == v[k].ledger && x[k].undo == v[k].undo
         && RootOfBody(x[k].block.body) == RootOfBody(v[k].block.body)
  }

  ghost predicate Attested(cfg: Config, x: seq<Step>) {
    exists v :: Verified(cfg, v) && Alike(x, v)
  }

  lemma {:induction false} VerifiedIsAttested(cfg: Config, x: seq<Step>)
    requires Verified(cfg, x)
    ensures Attested(cfg, x)
  {
    hide Verified, RootOfBody;
    assert Alike(x, x);
  }

  lemma {:induction false} AlikeState(cfg: Config, x: seq<Step>, v: seq<Step>, i: nat)
    requires Alike(x, v) && i <= |x|
    ensures LedgerAt(cfg, x, i) == LedgerAt(cfg, v, i) && Compacts(x[..i]) == Compacts(v[..i])
    ensures Undos(x[..i]) == Undos(v[..i]) && Alike(x[..i], v[..i])
  {
    hide RootOfBody;
  }

  /** Attested blocks overwrite no unspent output, and their headers describe their ledgers. */
  lemma {:induction false} AttestedFacts(cfg: Config, x: seq<Step>, i: nat)
    requires Attested(cfg, x) && i < |x|
    ensures FreshAt(cfg, x, i) && RootsMatch(x[i].ledger, x[i].block.header).Pass?
    ensures RootOfBody(x[i].block.body) == x[i].block.header.bodyRoot
  {
    hide Verified, CheckedAt, StepAt, RootOfBody, RootsMatch, NextDifficulty, MedianTimePast, LedgerAt, Fresh;
    var v: seq<Step> :| Verified(cfg, v) && Alike(x, v);
    CheckedHere(cfg, v, i);
    CheckedOf(cfg, v, i);
    AlikeState(cfg, x, v, i);
    RootSettlesParts(x[i].block.body, v[i].block.body);
    FreshByParts(LedgerAt(cfg, x, i), x[i].block.body, v[i].block.body);
  }

  lemma {:induction false} CheckedHere(cfg: Config, v: seq<Step>, i: nat)
    requires Verified(cfg, v) && i < |v|
    ensures CheckedAt(cfg, v, i) && FreshAt(cfg, v, i) && RootsMatch(v[i].ledger, v[i].block.header).Pass?
  {
    hide CheckedAt, StepAt, FreshAt, RootsMatch, NextDifficulty, MedianTimePast;
    CheckedFacts(cfg, v, i);
  }

  lemma {:induction false} FreshByParts(l: Ledger, a: Body, b: Body)
    requires InputCommits(a) == InputCommits(b) && a.outputs == b.outputs && Fresh(l, b)
    ensures Fresh(l, a)
  {
    hide InputCommits, OutputCommits, ToSet;
    CommitSets(a);
    CommitSets(b);
    assert forall c :: Spends(a.inputs, c) <==> Spends(b.inputs, c);
  }

  /** One body that its header does not commit to is enough. */
  lemma {:induction false} NotAttested(cfg: Config, x: seq<Step>, i: nat)
    requires i < |x| && RootOfBody(x[i].block.body) != x[i].block.header.bodyRoot
    ensures !Attested(cfg, x)
  {
    hide Attested, RootOfBody, RootsMatch, FreshAt;
    if Attested(cfg, x) {
      AttestedFacts(cfg, x, i);
    }
  }

  /** Being accepted depends on the state before the block and on the block. */
  lemma {:induction false} CheckedMoves(cfg: Config, x: seq<Step>, y: seq<Step>, i: nat)
    requires i < |x| && i < |y| && x[i] == y[i]
    requires Compacts(x[..i]) == Compacts(y[..i]) && LedgerAt(cfg, x, i) == LedgerAt(cfg, y, i)
    requires CheckedAt(cfg, x, i)
    ensures CheckedAt(cfg, y, i)
  {
    hide Accept, Compacts, LedgerAt;
    var now: u64 :| AcceptedAt(cfg, x, i, now);
    assert AcceptedAt(cfg, y, i, now);
  }

  /** An attested prefix continued by fully validated blocks is attested. */
  lemma {:induction false} AttestedGrows(cfg: Config, x: seq<Step>, a: nat, z: seq<Step>)
    requires Attested(cfg, x) && a <= |x| && a <= |z| && z[..a] == x[..a]
    requires forall i :: a <= i < |z| ==> CheckedAt(cfg, z, i)
    ensures Attested(cfg, z)
  {
    hide Verified, CheckedAt, RootOfBody, LedgerAt;
    var v: seq<Step> :| Verified(cfg, v) && Alike(x, v);
    AlikeState(cfg, x, v, a);
    TwinGrows(cfg, v[..a], v, z);
  }

  lemma {:induction false} TwinGrows(cfg: Config, p: seq<Step>, v: seq<Step>, z: seq<Step>)
    requires Verified(cfg, v) && |p| <= |v| && p == v[..|p|] && |p| <= |z| && Alike(z[..|p|], p)
    requires forall i :: |p| <= i < |z| ==> CheckedAt(cfg, z, i)
    ensures Attested(cfg, z)
  {
    hide CheckedAt, RootOfBody, LedgerAt;
    var a := |p|;
    var twin := p + z[a..];
    assert Alike(z, twin) by {
      forall k | 0 <= k < |z|
        ensures z[k].block.header == twin[k].block.header && z[k].ledger == twin[k].ledger && z[k].undo == twin[k].undo
                && RootOfBody(z[k].block.body) == RootOfBody(twin[k].block.body)
      {
        if k < a {
          assert z[..a][k] == z[k];
        }
      }
    }
    forall i | 0 <= i < |twin| ensures CheckedAt(cfg, twin, i) {
      if i < a {
        PrefixAt(cfg, p, v, i);
        PrefixAt(cfg, p, twin, i);
      } else {
        AlikeState(cfg, z, twin, i);
        CheckedMoves(cfg, z, twin, i);
      }
    }
    assert Verified(cfg, twin);
  }

  // ------------------------------------------------- the exact condition --

  /** Every body the evaluation takes on trust is the one its header commits to. */
  ghost predicate BodiesMatch(cfg: Config, blocks: seq<Block>, trusted: nat) {
    forall i :: 0 <= i < trusted && i < |blocks| ==> RootOfBody(Normal(cfg, blocks[i]).body) == blocks[i].header.bodyRoot
  }

  /** Some fully validated chain reaches the highest pin: the pin is what it is meant to be. */
  ghost predicate PinReached(cfg: Config) {
    exists v :: Verified(cfg, v) && |v| > HighestCheckpoint(cfg.checkpoints)
  }

  /** The trusted part is the shared headers, or ends at the highest pin beyond them. */
  ghost predicate TrustedExtent(cfg: Config, f: nat, w: nat, t: nat, n: nat) {
    && w <= t <= n
    && (t > w ==> f + t - 1 == HighestCheckpoint(cfg.checkpoints) > 0)
  }

  /**
    From an attested chain, a candidate that reuses our headers below the fork is attested exactly when every body taken on
    trust, up to a pin or not, hashes to the root in its header; where a pin widens the trust, a validated chain must
    reach that pin.
   */
  lemma {:induction false} CandidateAttestedExactly(cfg: Config, x: seq<Step>, f: nat, blocks: seq<Block>, w: nat, t: nat, now: u64)
    requires History(cfg, x) && Attested(cfg, x) && f + w <= |x|
    requires TrustedExtent(cfg, f, w, t, |blocks|)
    requires forall i :: 0 <= i < w ==> HashOf(blocks[i]) == HashOf(x[f + i].block)
    requires RebuiltSteps(cfg, Compacts(x[..f]), LedgerAt(cfg, x, f), blocks, t, now).Success?
    ensures Attested(cfg, x[..f] + RebuiltSteps(cfg, Compacts(x[..f]), LedgerAt(cfg, x, f), blocks, t, now).value)
            <==> BodiesMatch(cfg, blocks, t) && (t > w ==> PinReached(cfg))
  {
    hide History, RebuiltSteps, LedgerAt, Compacts, PrefixRoots, CheckedAt, Verified, Normal, RootOfBody, UndoWork, WorkOf, Alike, HighestCheckpoint;
    var z := RebuiltSteps(cfg, Compacts(x[..f]), LedgerAt(cfg, x, f), blocks, t, now).value;
    var all := x[..f] + z;
    HistoryPrefix(cfg, x, f);
    HistoryAtEnd(cfg, x, f);
    RebuiltHistory(cfg, x[..f], blocks, t, now);
    forall i | 0 <= i < |blocks| ensures all[f + i].block == Normal(cfg, blocks[i]) && all[f + i].block.header == blocks[i].header {
      NormalIdempotent(cfg, blocks[i]);
    }
    if Attested(cfg, all) {
      var v: seq<Step> :| Verified(cfg, v) && Alike(all, v);
      AlikeLength(all, v);
      forall i | 0 <= i < t ensures RootOfBody(Normal(cfg, blocks[i]).body) == blocks[i].header.bodyRoot {
        TwinRoot(cfg, all, v, f + i);
      }
    }
    if BodiesMatch(cfg, blocks, t) && (t > w ==> PinReached(cfg)) {
      if t > w {
        PinnedTwin(cfg, x, all, f, blocks, t);
      } else {
        SharedTwin(cfg, x, all, f, blocks, t);
      }
    }
  }

  /** A matching body in the rebuilt chain. */
  ghost predicate MatchedFrom(cfg: Config, x: seq<Step>, all: seq<Step>, f: nat, blocks: seq<Block>, t: nat) {
    && f <= |x| && f <= |all| && all[..f] == x[..f] && |all| == f + |blocks| && t <= |blocks|
    && (forall i :: 0 <= i < t ==>
          && all[f + i].block.header == blocks[i].header
          && RootOfBody(all[f + i].block.body) == blocks[i].header.bodyRoot)
    && forall i :: f + t <= i < |all| ==> CheckedAt(cfg, all, i)
  }

  /** Bodies that match, under our own headers. */
  lemma {:induction false} SharedTwin(cfg: Config, x: seq<Step>, all: seq<Step>, f: nat, blocks: seq<Block>, t: nat)
    requires Attested(cfg, x) && History(cfg, all) && f + t <= |x| && MatchedFrom(cfg, x, all, f, blocks, t)
    requires forall i :: 0 <= i < t ==> HashOf(blocks[i]) == HashOf(x[f + i].block)
    ensures Attested(cfg, all)
  {
    hide History, CheckedAt, Verified, RootOfBody, Alike;
    var v: seq<Step> :| Verified(cfg, v) && Alike(x, v);
    AlikeLength(x, v);
    forall k | 0 <= k < f + t
      ensures all[k].block.header == v[k].block.header && RootOfBody(all[k].block.body) == RootOfBody(v[k].block.body)
    {
      TwinAt(cfg, x, v, k);
      if k < f {
        assert all[k] == all[..f][k] == x[..f][k] == x[k];
      } else {
        assert all[k].block.header == blocks[k - f].header;
      }
    }
    MatchingTwin(cfg, v, all, f + t);
  }

  /** Bodies that match, up to a pin that a validated chain reaches. */
  lemma {:induction false} PinnedTwin(cfg: Config, x: seq<Step>, all: seq<Step>, f: nat, blocks: seq<Block>, t: nat)
    requires Attested(cfg, x) && History(cfg, all) && MatchedFrom(cfg, x, all, f, blocks, t) && PinReached(cfg)
    requires t > 0 && f + t - 1 == HighestCheckpoint(cfg.checkpoints) > 0
    ensures Attested(cfg, all)
  {
    hide History, CheckedAt, Verified, RootOfBody, Alike, HighestCheckpoint;
    var pin := HighestCheckpoint(cfg.checkpoints);
    var v: seq<Step> :| Verified(cfg, v) && |v| > pin;
    var u: seq<Step> :| Verified(cfg, u) && Alike(x, u);
    AlikeLength(x, u);
    HighestIsPinned(cfg.checkpoints);
    VerifiedIsHistory(cfg, v);
    PinAgreement(cfg, cfg, all, v, pin);
    forall k | 0 <= k < f + t
      ensures all[k].block.header == v[k].block.header && RootOfBody(all[k].block.body) == RootOfBody(v[k].block.body)
    {
      CheckedOf(cfg, v, k);
      if k < f {
        assert all[k] == all[..f][k] == x[..f][k] == x[k];
        TwinAt(cfg, x, u, k);
      } else {
        assert all[f + (k - f)].block.header == blocks[k - f].header;
      }
    }
    MatchingTwin(cfg, v, all, f + t);
  }

  lemma {:induction false} AlikeLength(x: seq<Step>, v: seq<Step>)
    requires Alike(x, v)
    ensures |x| == |v|
  {
    hide RootOfBody;
  }

  lemma {:induction false} TwinRoot(cfg: Config, x: seq<Step>, v: seq<Step>, i: nat)
    requires Verified(cfg, v) && Alike(x, v) && i < |x|
    ensures RootOfBody(x[i].block.body) == x[i].block.header.bodyRoot
  {
    hide Verified, RootOfBody;
    CheckedOf(cfg, v, i);
  }

  lemma {:induction false} TwinAt(cfg: Config, x: seq<Step>, v: seq<Step>, i: nat)
    requires Verified(cfg, v) && Alike(x, v) && i < |x|
    ensures |x| == |v| && x[i].block.header == v[i].block.header && RootOfBody(x[i].block.body) == RootOfBody(v[i].block.body)
    ensures RootOfBody(v[i].block.body) == v[i].block.header.bodyRoot
  {
    hide Verified, RootOfBody;
    CheckedOf(cfg, v, i);
  }

  lemma {:induction false} MatchingTwin(cfg: Config, v: seq<Step>, all: seq<Step>, n: nat)
    requires Verified(cfg, v) && History(cfg, all) && n <= |v| && n <= |all|
    requires forall k :: 0 <= k < n ==>
               all[k].block.header == v[k].block.header && RootOfBody(all[k].block.body) == RootOfBody(v[k].block.body)
    requires forall i :: n <= i < |all| ==> CheckedAt(cfg, all, i)
    ensures Attested(cfg, all)
  {
    hide Verified, CheckedAt, RootOfBody, LedgerAt, History;
    VerifiedIsHistory(cfg, v);
    BodiesSettleState(cfg, all, v, n);
    assert Alike(all[..n], v[..n]);
    TwinGrows(cfg, v[..n], v, all);
  }

  // ------------------------------------------------- tampered bodies pass --

  /** The block with another sender signature on its first output. */
  function Resigned(b: Block, sig: Signature): Block {
    if b.body.outputs == [] then b
    else b.(body := b.body.(outputs := [b.body.outputs[0].(senderSig := sig)] + b.body.outputs[1..]))
  }

  /** Same headers, ledgers and undo records. */
  ghost predicate SameState(z: seq<Step>, y: seq<Step>) {
    && |z| == |y|
    && forall k :: 0 <= k < |z| ==> z[k].block.header == y[k].block.header && z[k].ledger == y[k].ledger && z[k].undo == y[k].undo
  }

  lemma {:induction false} ResignedParts(b: Body, c: Body, sig: Signature)
    requires b.outputs != []
    requires c == b.(outputs := [b.outputs[0].(senderSig := sig)] + b.outputs[1..])
    ensures OutputCommits(c) == OutputCommits(b) && InputCommits(c) == InputCommits(b) && Excesses(c) == Excesses(b)
  {
    assert forall i :: 0 <= i < |b.outputs| ==> c.outputs[i].commit == b.outputs[i].commit;
  }

  lemma {:induction false} InsertedAlike(utxos: Entries, a: seq<Output>, b: seq<Output>, height: nat)
    requires |a| == |b|
    requires forall i :: 0 <= i < |a| ==>
               a[i].commit == b[i].commit && a[i].outputPk == b[i].outputPk && a[i].coinbase == b[i].coinbase
    ensures InsertOutputs(utxos, a, height) == InsertOutputs(utxos, b, height)
  {
    if a != [] {
      InsertedAlike(utxos, a[..|a| - 1], b[..|b| - 1], height);
    }
  }

  lemma {:induction false} ResignedReplays(l: Ledger, b: Body, c: Body, sig: Signature, height: nat, subsidy: u64)
    requires b.outputs != []
    requires c == b.(outputs := [b.outputs[0].(senderSig := sig)] + b.outputs[1..])
    ensures ApplyStateOnly(l, c, height, subsidy) == ApplyStateOnly(l, b, height, subsidy)
    ensures CaptureUndo(l, c) == CaptureUndo(l, b)
  {
    hide OutputCommits, InputCommits, Excesses, InsertOutputs, CheckSpends, CoinbaseKernels, TotalFee, DecodeOffset, NextSupply, Sum;
    ResignedParts(b, c, sig);
    InsertedAlike(l.utxos - ToSet(InputCommits(b)), b.outputs, c.outputs, height);
    forall offset ensures NextKernelSum(l, c, offset) == NextKernelSum(l, b, offset) {
    }
  }

  lemma {:induction false} ResignedNormal(cfg: Config, b: Block, sig: Signature)
    ensures Normal(cfg, Resigned(b, sig)) == Resigned(Normal(cfg, b), sig)
    ensures Resigned(b, sig).header == b.header
  {
    hide StripInputs, StripKernels;
  }

  /** Own-disk replay takes the block with another signature as it took the block. */
  lemma {:induction false} ResignedTrusted(cfg: Config, hs: Headers, l: Ledger, b: Block, sig: Signature)
    requires Trust(cfg, hs, l, b).Success?
    ensures var step := Trust(cfg, hs, l, b).value;
            Trust(cfg, hs, l, Resigned(b, sig)) == Success(step.(block := Resigned(step.block, sig)))
    ensures Normal(cfg, b).body.outputs != []
  {
    hide CheckLink, CaptureUndo, ApplyStateOnly, Subsidy, Normal;
    TrustSteps(cfg, hs, l, b);
    TrustSteps(cfg, hs, l, Resigned(b, sig));
    ResignedNormal(cfg, b, sig);
    var n := Normal(cfg, b);
    ReplayHasOutputs(l, n.body, n.header.height, Subsidy(l, n.header.height));
    ResignedReplays(l, n.body, Resigned(n, sig).body, sig, n.header.height, Subsidy(l, n.header.height));
    LinkByHeader(cfg, hs, n, Resigned(n, sig));
  }

  lemma {:induction false} ReplayHasOutputs(l: Ledger, b: Body, height: nat, subsidy: u64)
    requires ApplyStateOnly(l, b, height, subsidy).Success?
    ensures b.outputs != []
  {
    hide CheckSpends, CoinbaseKernels, TotalFee, DecodeOffset, NextKernelSum, NextSupply, Commit;
  }

  lemma {:induction false} SameStateEnds(l: Ledger, z: seq<Step>, y: seq<Step>)
    requires SameState(z, y)
    ensures Compacts(z) == Compacts(y) && Undos(z) == Undos(y) && EndLedger(l, z) == EndLedger(l, y)
  {
  }

  /** The steps of a run with block i resigned. */
  ghost predicate ResignedSteps(z: seq<Step>, y: seq<Step>, i: nat, sig: Signature) {
    && i < |z| && z[i].block.body.outputs != []
    && y == z[i := z[i].(block := Resigned(z[i].block, sig))]
  }

  lemma {:induction false} ResignedSameState(z: seq<Step>, y: seq<Step>, i: nat, sig: Signature)
    requires ResignedSteps(z, y, i, sig)
    ensures SameState(z, y)
  {
  }

  /** One block resigned in a trusted run. */
  lemma {:induction false} ResignedRun(cfg: Config, hs: Headers, l: Ledger, blocks: seq<Block>, i: nat, sig: Signature)
    requires i < |blocks| && StepsOf(cfg, OwnDisk, hs, l, blocks).Success?
    ensures StepsOf(cfg, OwnDisk, hs, l, blocks[i := Resigned(blocks[i], sig)]).Success?
    ensures ResignedSteps(StepsOf(cfg, OwnDisk, hs, l, blocks).value,
                          StepsOf(cfg, OwnDisk, hs, l, blocks[i := Resigned(blocks[i], sig)]).value, i, sig)
    decreases |blocks|
  {
    hide StepsOf, Trust, Normal, Compacts, EndLedger, Resigned, SameState;
    var n := |blocks| - 1;
    var b := Resigned(blocks[i], sig);
    var other := blocks[i := b];
    assert blocks == blocks[..n] + [blocks[n]];
    StepsSnoc(cfg, OwnDisk, hs, l, blocks[..n], blocks[n]);
    StepsLength(cfg, OwnDisk, hs, l, blocks[..n]);
    var before := StepsOf(cfg, OwnDisk, hs, l, blocks[..n]).value;
    var last := Trust(cfg, hs + Compacts(before), EndLedger(l, before), blocks[n]).value;
    if i == n {
      assert other == blocks[..n] + [b];
      StepsSnoc(cfg, OwnDisk, hs, l, blocks[..n], b);
      ResignedTrusted(cfg, hs + Compacts(before), EndLedger(l, before), blocks[n], sig);
      StoredBlock(cfg, hs + Compacts(before), EndLedger(l, before), blocks[n]);
    } else {
      assert other == blocks[..n][i := b] + [blocks[n]];
      ResignedRun(cfg, hs, l, blocks[..n], i, sig);
      StepsSnoc(cfg, OwnDisk, hs, l, blocks[..n][i := b], blocks[n]);
      var before' := StepsOf(cfg, OwnDisk, hs, l, blocks[..n][i := b]).value;
      ResignedSameState(before, before', i, sig);
      SameStateEnds(l, before, before');
      assert (before + [last])[i := before'[i]] == before' + [last];
    }
  }

  lemma {:induction false} StoredBlock(cfg: Config, hs: Headers, l: Ledger, b: Block)
    requires Trust(cfg, hs, l, b).Success?
    ensures Trust(cfg, hs, l, b).value.block == Normal(cfg, b)
  {
    hide CheckLink, CaptureUndo, ApplyStateOnly, Normal;
  }

  /** One block resigned in the trusted part of a rebuild. */
  lemma {:induction false} ResignedRebuild(cfg: Config, hs: Headers, l: Ledger, blocks: seq<Block>, i: nat, sig: Signature, t: nat, now: u64)
    requires i < |blocks| && i < t && RebuiltSteps(cfg, hs, l, blocks, t, now).Success?
    ensures var z := RebuiltSteps(cfg, hs, l, blocks, t, now).value;
            && i < |z| && z[i].block == Normal(cfg, blocks[i]) && z[i].block.body.outputs != []
            && RebuiltSteps(cfg, hs, l, blocks[i := Resigned(blocks[i], sig)], t, now)
               == Success(z[i := z[i].(block := Resigned(z[i].block, sig))])
            && SameState(z, z[i := z[i].(block := Resigned(z[i].block, sig))])
  {
    hide StepsOf, Normal, Compacts, EndLedger, RootsMatch, Resigned;
    var k := if t <= |blocks| then t else |blocks|;
    var other := blocks[i := Resigned(blocks[i], sig)];
    ResignedNormal(cfg, blocks[i], sig);
    assert other[..k] == blocks[..k][i := Resigned(blocks[i], sig)] && other[k..] == blocks[k..];
    ResignedRun(cfg, hs, l, blocks[..k], i, sig);
    StepsNormal(cfg, OwnDisk, hs, l, blocks[..k]);
    var p := StepsOf(cfg, OwnDisk, hs, l, blocks[..k]).value;
    var p' := StepsOf(cfg, OwnDisk, hs, l, other[..k]).value;
    ResignedSameState(p, p', i, sig);
    SameStateEnds(l, p, p');
    assert PrefixRoots(p) == PrefixRoots(p');
    var q := StepsOf(cfg, Full(now), hs + Compacts(p), EndLedger(l, p), blocks[k..]).value;
    assert (p + q)[i := p'[i]] == p' + q;
  }

  /** The body root covers sender signatures. */
  lemma {:induction false} ResignedRoot(b: Block, sig: Signature)
    requires b.body.outputs != [] && b.body.outputs[0].senderSig != sig
    ensures RootOfBody(Resigned(b, sig).body) != RootOfBody(b.body)
  {
    var c := Resigned(b, sig);
    assert c.body.outputs[0] != b.body.outputs[0];
    assert Hashed(c.body).outputs == c.body.outputs && Hashed(b.body).outputs == b.body.outputs;
  }

  lemma {:induction false} SameStatePushed(s: ChainState, z: seq<Step>, y: seq<Step>)
    requires SameState(z, y)
    ensures PushAll(s, y).ledger == PushAll(s, z).ledger && PushAll(s, y).headers == PushAll(s, z).headers
    ensures PushAll(s, y).totalWork == PushAll(s, z).totalWork
  {
    hide PushAll, UndoWork, Compacts, Undos, EndLedger, StepBlocks;
    SameStateEnds(s.ledger, z, y);
    PushAllFields(s, z);
    PushAllFields(s, y);
  }

  lemma {:induction false} ResignedWork(blocks: seq<Block>, i: nat, sig: Signature)
    requires i < |blocks|
    ensures WorkOf(blocks[i := Resigned(blocks[i], sig)]) == WorkOf(blocks)
    decreases |blocks|
  {
    var n := |blocks| - 1;
    var other := blocks[i := Resigned(blocks[i], sig)];
    if i == n {
      assert other[..n] == blocks[..n];
    } else {
      ResignedWork(blocks[..n], i, sig);
      assert other[..n] == blocks[..n][i := Resigned(blocks[i], sig)];
    }
  }

  lemma {:induction false} ResignedCommon(hashes: seq<Hash>, blocks: seq<Block>, i: nat, sig: Signature)
    requires i < |blocks|
    ensures CommonPrefix(hashes, blocks[i := Resigned(blocks[i], sig)]) == CommonPrefix(hashes, blocks)
    decreases |blocks|
  {
    var other := blocks[i := Resigned(blocks[i], sig)];
    if hashes != [] && HashOf(blocks[0]) == hashes[0] {
      if i == 0 {
        assert other[1..] == blocks[1..];
      } else {
        assert other[1..] == blocks[1..][i - 1 := Resigned(blocks[1..][i - 1], sig)];
        ResignedCommon(hashes[1..], blocks[1..], i - 1, sig);
      }
    }
  }

  /**
    The failing input.  Take any candidate the evaluation returns and change one sender signature in any body
    it takes on trust: the evaluation returns it again, with the same headers, ledger and work, although that
    body no longer hashes to the root in its header; so the returned chain is not attested.
   */
  lemma {:induction false} TamperedIsReturned(cfg: Config, x: seq<Step>, ourWork: nat, ours: seq<Hash>, base: Option<PrunedBase>, blocks: seq<Block>,
                                              i: nat, sig: Signature, now: u64)
    requires StartOf(cfg, base).firstHeight == |x| && i < |blocks|
    requires EvaluateReorg(cfg, ourWork, ours, base, blocks, now).Success?
    requires EvaluateReorg(cfg, ourWork, ours, base, blocks, now).value.Some?
    requires |x| <= |ours| && i < TrustedOf(cfg, base, CommonPrefix(ours[|x|..], blocks), |blocks|)
    ensures Normal(cfg, blocks[i]).body.outputs != []
    ensures var other := blocks[i := Resigned(blocks[i], sig)];
            var verdict := EvaluateReorg(cfg, ourWork, ours, base, other, now);
            && verdict.Success? && verdict.value.Some? && CandidateSteps(cfg, ours, base, other, now).Success?
            && verdict.value.value == PushAll(StartOf(cfg, base), CandidateSteps(cfg, ours, base, other, now).value)
            && var c := EvaluateReorg(cfg, ourWork, ours, base, blocks, now).value.value;
               verdict.value.value.headers == c.headers && verdict.value.value.ledger == c.ledger
               && verdict.value.value.totalWork == c.totalWork
    ensures var b := Normal(cfg, blocks[i]);
            var other := blocks[i := Resigned(blocks[i], sig)];
            RootOfBody(b.body) == b.header.bodyRoot && sig != b.body.outputs[0].senderSig ==>
              !Attested(cfg, x + CandidateSteps(cfg, ours, base, other, now).value)
  {
    hide RebuiltSteps, EvaluateReorg, VerifySupply, WorkOf, CommonPrefix, PushAll, TrustedOf, Normal, RootOfBody, Resigned, SameState, StartOf;
    var other := blocks[i := Resigned(blocks[i], sig)];
    var start := StartOf(cfg, base);
    AdoptableSteps(cfg, ourWork, ours, base, blocks, now);
    AdoptableShape(cfg, ourWork, ours, base, blocks, now);
    EvaluateSteps(cfg, ourWork, ours, base, blocks, now);
    ResignedNormal(cfg, blocks[i], sig);
    ResignedWork(blocks, i, sig);
    ResignedCommon(ours[|x|..], blocks, i, sig);
    var t := TrustedOf(cfg, base, CommonPrefix(ours[|x|..], blocks), |blocks|);
    ResignedRebuild(cfg, start.headers, start.ledger, blocks, i, sig, t, now);
    var z := CandidateSteps(cfg, ours, base, blocks, now).value;
    var y := z[i := z[i].(block := Resigned(z[i].block, sig))];
    SameStatePushed(start, z, y);
    EvaluateSteps(cfg, ourWork, ours, base, other, now);
    var b := Normal(cfg, blocks[i]);
    if RootOfBody(b.body) == b.header.bodyRoot && sig != b.body.outputs[0].senderSig {
      ResignedNormal(cfg, b, sig);
      ResignedRoot(b, sig);
      assert (x + y)[|x| + i].block == Resigned(b, sig);
      NotAttested(cfg, x + y, |x| + i);
    }
  }

  /** One accepted block is a suffix that wins. */
  lemma {:induction false} OneBlockWins(cfg: Config, x: seq<Step>, b: Block, now: u64)
    requires Verified(cfg, x) && x != [] && Accept(cfg, Compacts(x), LedgerAt(cfg, x, |x|), b, now, true).Success?
    requires AssumeValidTo(cfg, |x| + 1) <= |x|
    ensures var verdict := EvaluateReorg(cfg, UndoWork(Undos(x)), Hashes(Compacts(x)), None, StepBlocks(x) + [b], now);
            verdict.Success? && verdict.value.Some?
  {
    hide Accept, CheckedAt, History, EvaluateReorg, AssumeValidTo, PrefixRoots, UndoWork, WorkOf, LedgerAt, PushAll, Compacts, StepBlocks,
         Hashes, Undos, StepsOf, Verified;
    var a := |x| - 1;
    assert x[..a + 1] == x;
    VerifiedIsHistory(cfg, x);
    VerifiedRoots(cfg, x, a);
    ForkingPart(cfg, x, |x|, [b], now);
    FastVerdictIsSlowVerdict(cfg, x, a, [b], now);
    OneBlockWork(b);
    OneStep(cfg, Compacts(x), LedgerAt(cfg, x, |x|), b, now);
  }

  lemma {:induction false} OwnHashes(x: seq<Step>, b: Block)
    ensures |StepBlocks(x)| == |x| && Hashes(Compacts(x))[0..] == Hashes(Compacts(x))
    ensures CommonPrefix(Hashes(Compacts(x)), StepBlocks(x) + [b]) == |x|
  {
    CommonOfHistory(x, |x|, [b]);
    assert x[..|x|] == x;
    NothingCommon(Hashes(Compacts(x))[|x|..], [b]);
  }

  /**
    So every validated archive node can be made to hold such a chain: offer it its own bodies with one sender
    signature changed, and one more valid block.
   */
  lemma {:induction false} OwnBodiesTampered(cfg: Config, x: seq<Step>, b: Block, i: nat, sig: Signature, now: u64)
    requires Verified(cfg, x) && i < |x| && Accept(cfg, Compacts(x), LedgerAt(cfg, x, |x|), b, now, true).Success?
    requires AssumeValidTo(cfg, |x| + 1) <= |x|
    ensures x[i].block.body.outputs != []
    ensures sig != x[i].block.body.outputs[0].senderSig ==>
              var offered := StepBlocks(x)[i := Resigned(x[i].block, sig)] + [b];
              var verdict := EvaluateReorg(cfg, UndoWork(Undos(x)), Hashes(Compacts(x)), None, offered, now);
              && verdict.Success? && verdict.value.Some?
              && CandidateSteps(cfg, Hashes(Compacts(x)), None, offered, now).Success?
              && verdict.value.value == PushAll(NewFair(cfg), CandidateSteps(cfg, Hashes(Compacts(x)), None, offered, now).value)
              && !Attested(cfg, CandidateSteps(cfg, Hashes(Compacts(x)), None, offered, now).value)
  {
    hide Accept, CheckedAt, History, EvaluateReorg, AssumeValidTo, PushAll, Verified, Attested, CommonPrefix, RebuiltSteps, Normal, RootOfBody,
         Resigned, LedgerAt, UndoWork, Hashes, Compacts;
    var ours, blocks := Hashes(Compacts(x)), StepBlocks(x) + [b];
    OneBlockWins(cfg, x, b, now);
    OwnHashes(x, b);
    assert blocks[i] == x[i].block;
    TamperedIsReturned(cfg, [], UndoWork(Undos(x)), ours, None, blocks, i, sig, now);
    VerifiedIsHistory(cfg, x);
    StoredNormal(cfg, x, i);
    CheckedOf(cfg, x, i);
    assert StepBlocks(x)[i := Resigned(x[i].block, sig)] + [b] == blocks[i := Resigned(blocks[i], sig)];
    var z := CandidateSteps(cfg, ours, None, blocks[i := Resigned(blocks[i], sig)], now);
    if z.Success? {
      assert [] + z.value == z.value;
    }
  }

  lemma {:induction false} StoredNormal(cfg: Config, x: seq<Step>, i: nat)
    requires History(cfg, x) && i < |x|
    ensures Normal(cfg, x[i].block) == x[i].block
  {
    hide History, Normal, ApplyStateOnly, CaptureUndo, Subsidy, LedgerAt, CheckpointAt;
    HistoryLinks(cfg, x, i);
  }

  // ------------------------------------------- where a pin makes a difference --

  /** A fully validated run has the bodies its headers commit to. */
  lemma {:induction false} FullRunRoots(cfg: Config, hs: Headers, l: Ledger, blocks: seq<Block>, now: u64, i: nat)
    requires i < |blocks| && StepsOf(cfg, Full(now), hs, l, blocks).Success?
    ensures RootOfBody(Normal(cfg, blocks[i]).body) == blocks[i].header.bodyRoot
    decreases |blocks|
  {
    hide Accept, Normal, RootOfBody, Compacts, EndLedger, CheckHeader, Apply, CaptureUndo, RootsMatch, TotalFee, CoinbaseDue, Subsidy;
    var n := |blocks| - 1;
    if i < n {
      FullRunRoots(cfg, hs, l, blocks[..n], now, i);
    } else {
      var before := StepsOf(cfg, Full(now), hs, l, blocks[..n]).value;
      AcceptSteps(cfg, hs + Compacts(before), EndLedger(l, before), blocks[n], now, true);
      NormalIdempotent(cfg, blocks[n]);
    }
  }

  /** So a run with another signature in place of one that passed does not pass. */
  lemma {:induction false} ResignedRunFails(cfg: Config, hs: Headers, l: Ledger, blocks: seq<Block>, now: u64, i: nat, sig: Signature)
    requires i < |blocks| && StepsOf(cfg, Full(now), hs, l, blocks).Success?
    requires Normal(cfg, blocks[i]).body.outputs != [] ==> sig != Normal(cfg, blocks[i]).body.outputs[0].senderSig
    ensures Normal(cfg, blocks[i]).body.outputs != [] ==>
              StepsOf(cfg, Full(now), hs, l, blocks[i := Resigned(blocks[i], sig)]).Failure?
  {
    hide StepsOf, Normal, RootOfBody, Resigned;
    var other := blocks[i := Resigned(blocks[i], sig)];
    if Normal(cfg, blocks[i]).body.outputs != [] && StepsOf(cfg, Full(now), hs, l, other).Success? {
      FullRunRoots(cfg, hs, l, blocks, now, i);
      FullRunRoots(cfg, hs, l, other, now, i);
      ResignedNormal(cfg, blocks[i], sig);
      ResignedRoot(Normal(cfg, blocks[i]), sig);
      assert false;
    }
  }

  /**
    The failing input of agreement above a pin.  Take any suffix that the fast path returns, with a pin above the fork, and
    change one sender signature below that pin: the slow path still returns it, and the fast path refuses it.
   */
  lemma {:induction false} PinnedTamperedDiffers(cfg: Config, x: seq<Step>, a: nat, suffix: seq<Block>, i: nat, sig: Signature, now: u64)
    requires History(cfg, x) && a < |x| && suffix != [] && PrefixRoots(x[..a + 1]).Pass? && |x| - 1 - a <= MAX_REORG_DEPTH
    requires FastVerdict(cfg, x, a, suffix, now).Success? && FastVerdict(cfg, x, a, suffix, now).value.Some?
    requires i < |suffix| && a + 1 + i < AssumeValidTo(cfg, a + 1 + |suffix|)
    requires Normal(cfg, suffix[i]).body.outputs != [] ==> sig != Normal(cfg, suffix[i]).body.outputs[0].senderSig
    ensures var other := suffix[i := Resigned(suffix[i], sig)];
            var slow := EvaluateReorg(cfg, UndoWork(Undos(x)), Hashes(Compacts(x)), None, StepBlocks(x[..a + 1]) + other, now);
            && slow.Success? && slow.value.Some? && FastVerdict(cfg, x, a, other, now).Failure?
            && !TrustedPartPasses(cfg, x, a + 1, other, now)
  {
    hide History, UndoWork, WorkOf, RebuiltSteps, AssumeValidTo, PrefixRoots, StepsOf, EvaluateReorg, CommonPrefix, TrustedPartPasses, ArchiveOf,
         Normal, Resigned, LedgerAt, Compacts, CandidateSteps, PushAll, RootOfBody, Attested, Hashes, Undos;
    var other := suffix[i := Resigned(suffix[i], sig)];
    var ours, blocks := Hashes(Compacts(x)), StepBlocks(x[..a + 1]) + suffix;
    FastNeverLooser(cfg, x, a, suffix, now);
    assert ours[0..] == ours && blocks[a + 1 + i] == suffix[i];
    TamperedIsReturned(cfg, [], UndoWork(Undos(x)), ours, None, blocks, a + 1 + i, sig, now);
    assert blocks[a + 1 + i := Resigned(suffix[i], sig)] == StepBlocks(x[..a + 1]) + other;
    ResignedWork(suffix, i, sig);
    ResignedRunFails(cfg, Compacts(x[..a + 1]), LedgerAt(cfg, x, a + 1), suffix, now, i, sig);
    ResignedNormal(cfg, suffix[i], sig);
    if TrustedPartPasses(cfg, x, a + 1, other, now) {
      FastVerdictIsSlowVerdict(cfg, x, a, other, now);
      assert false;
    }
  }

  lemma {:induction false} SameFirstHash(blocks: seq<Block>, i: nat, sig: Signature)
    requires i < |blocks|
    ensures HashOf(blocks[i := Resigned(blocks[i], sig)][0]) == HashOf(blocks[0])
    ensures blocks[i := Resigned(blocks[i], sig)][0].header == blocks[0].header
  {
  }

  /** Likewise for a pruned node, which heeds no pin, and an archive node. */
  lemma {:induction false} PinnedTamperedDiffersPruned(cfg: Config, s: ChainState, x: seq<Step>, tail: seq<Block>, i: nat, sig: Signature, now: u64)
    requires Inv(cfg, s, x) && s.firstHeight > 0 && PrefixRoots(x[..s.firstHeight]).Pass?
    requires tail != [] && tail[0].header.height == s.firstHeight
    requires var pruned := EvaluateReorg(cfg, s.totalWork, Hashes(s.headers), BaseOf(s), tail, now); pruned.Success? && pruned.value.Some?
    requires s.firstHeight <= |x| && CommonPrefix(Hashes(s.headers)[s.firstHeight..], tail) <= i < |tail|
    requires s.firstHeight + i < AssumeValidTo(cfg, s.firstHeight + |tail|)
    requires Normal(cfg, tail[i]).body.outputs != [] ==> sig != Normal(cfg, tail[i]).body.outputs[0].senderSig
    ensures var other := tail[i := Resigned(tail[i], sig)];
            var archive := EvaluateReorg(cfg, s.totalWork, Hashes(s.headers), None, StepBlocks(x[..s.firstHeight]) + other, now);
            && archive.Success? && archive.value.Some?
            && EvaluateReorg(cfg, s.totalWork, Hashes(s.headers), BaseOf(s), other, now).Failure?
  {
    hide History, UndoWork, WorkOf, RebuiltSteps, AssumeValidTo, PrefixRoots, StepsOf, EvaluateReorg, CommonPrefix, PinnedPartPasses, ArchiveOf,
         Normal, Resigned, LedgerAt, CandidateSteps, PushAll, RootOfBody, Attested, Hashes, Undos, BaseOf, StartOf, TailUndos,
         VerifySupply, SameChain;
    var f := s.firstHeight;
    var ours, base := Hashes(s.headers), BaseOf(s);
    var other, blocks := tail[i := Resigned(tail[i], sig)], StepBlocks(x[..f]) + tail;
    BaseOfPruned(cfg, s, x);
    AdoptableSteps(cfg, s.totalWork, ours, base, tail, now);
    var w := CommonPrefix(ours[f..], tail);
    AdoptableShape(cfg, s.totalWork, ours, base, tail, now);
    CommonBounds(ours[f..], tail);
    EvaluatedSteps(cfg, ours, base, tail, now);
    PassedIsPinned(cfg, x, f, tail, w, now);
    PrunedDecidesLikeArchive(cfg, s, x, tail, now);
    assert ours[0..] == ours && blocks[f + i] == tail[i];
    StartShape(cfg, None);
    TamperedIsReturned(cfg, [], s.totalWork, ours, None, blocks, f + i, sig, now);
    assert blocks[f + i := Resigned(tail[i], sig)] == StepBlocks(x[..f]) + other;
    SameFirstHash(tail, i, sig);
    ResignedWork(tail, i, sig);
    ResignedCommon(ours[f..], tail, i, sig);
    ResignedTailFails(cfg, Compacts(x[..f]), LedgerAt(cfg, x, f), tail, w, now, i, sig);
    EvaluateSteps(cfg, s.totalWork, ours, base, other, now);
  }

  lemma {:induction false} EvaluatedSteps(cfg: Config, ours: seq<Hash>, base: Option<PrunedBase>, tail: seq<Block>, now: u64)
    requires base.Some? && StartOf(cfg, base).firstHeight <= |ours|
    ensures var start := StartOf(cfg, base);
            CandidateSteps(cfg, ours, base, tail, now)
            == RebuiltSteps(cfg, start.headers, start.ledger, tail, CommonPrefix(ours[start.firstHeight..], tail), now)
  {
    hide RebuiltSteps, StartOf, CommonPrefix;
  }

  lemma {:induction false} ResignedTailFails(cfg: Config, hs: Headers, l: Ledger, tail: seq<Block>, w: nat, now: u64, i: nat, sig: Signature)
    requires w <= i < |tail| && RebuiltSteps(cfg, hs, l, tail, w, now).Success? && Normal(cfg, tail[i]).body.outputs != []
    requires sig != Normal(cfg, tail[i]).body.outputs[0].senderSig
    ensures RebuiltSteps(cfg, hs, l, tail[i := Resigned(tail[i], sig)], w, now).Failure?
  {
    hide StepsOf, Normal, Resigned, PrefixRoots;
    var other := tail[i := Resigned(tail[i], sig)];
    assert other[..w] == tail[..w] && other[w..] == tail[w..][i - w := Resigned(tail[w..][i - w], sig)];
    var p := StepsOf(cfg, OwnDisk, hs, l, tail[..w]).value;
    ResignedRunFails(cfg, hs + Compacts(p), EndLedger(l, p), tail[w..], now, i - w, sig);
  }
}
