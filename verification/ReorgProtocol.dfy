/**
  The off-lock reorganisation protocol.  Workers prepare and verify while the chain is unlocked, and commit
  later; any number of them may be in flight, in any order, with blocks applied, bodies pruned and the node
  restarted between.

  A node carries the history that replaying its bodies gives, and every ticket carries the history it was
  taken from.  These record what happened; no transition of the chain reads them.
 */
module ReorgProtocol {
  import opened Wrappers
  import opened Words
  import opened Curve
  import opened Transactions
  import opened Ledgers
  import opened LedgerProofs
  import opened Blocks
  import opened Consensus
  import opened StepProofs
  import opened ChainInvariant
  import opened FastReorg
  import opened ForkChoice
  import opened Agreement
  import opened Drift
  import opened Attestation
  import opened SupplyProofs
  import opened ChainProperties
  import Emission

  /** Work in flight, held outside the lock. */
  datatype Ticket =
    | Prepared(trial: SuffixTrial, origin: seq<Step>, ancestor: nat)
    | Finished(reorg: SuffixReorg, origin: seq<Step>, ancestor: nat, suffix: seq<Step>)
    | Snapshot(work: nat, hashes: seq<Hash>, base: Option<PrunedBase>, origin: seq<Step>)
    | Candidate(chain: ChainState, steps: seq<Step>)

  datatype Node = Node(chain: ChainState, history: seq<Step>, tickets: seq<Ticket>)

  datatype Event =
    | ApplyBlock(block: Block, now: u64)
    | Prune(keep: nat)
    | Prepare(ancestor: nat)
    | Finish(ticket: nat, suffixBlocks: seq<Block>, now: u64)
    | Splice(ticket: nat)
    | TakeSnapshot
    | Evaluate(ticket: nat, blocks: seq<Block>, now: u64)
    | Adopt(ticket: nat)
    | Restart

  // ------------------------------------------------ the recorded history --

  /** One more block, as replay takes it. */
  ghost function Recorded(cfg: Config, n: Node, block: Block): seq<Step> {
    var step := Trust(cfg, n.chain.headers, LedgerAt(cfg, n.history, |n.history|), block);
    if step.Success? then n.history + [step.value] else n.history
  }

  /** A suffix above an ancestor, as replay takes it. */
  ghost function RecordedSuffix(cfg: Config, t: Ticket, suffix: seq<Block>): seq<Step>
    requires t.Prepared?
  {
    if t.ancestor >= |t.origin| then []
    else
      var y := StepsOf(cfg, OwnDisk, Compacts(t.origin[..t.ancestor + 1]), LedgerAt(cfg, t.origin, t.ancestor + 1), suffix);
      if y.Success? then y.value else []
  }

  ghost function RecordedSplice(t: Ticket): seq<Step>
    requires t.Finished?
  {
    if t.ancestor >= |t.origin| then [] else t.origin[..t.ancestor + 1] + t.suffix
  }

  ghost function RecordedCandidate(cfg: Config, t: Ticket, blocks: seq<Block>, now: u64): seq<Step>
    requires t.Snapshot?
  {
    var f := StartOf(cfg, t.base).firstHeight;
    if f > |t.hashes| || f > |t.origin| then []
    else
      var z := CandidateSteps(cfg, t.hashes, t.base, blocks, now);
      t.origin[..f] + if z.Success? then z.value else []
  }

  // --------------------------------------------------------- transitions --

  ghost function StartNode(cfg: Config): Node {
    Node(NewFair(cfg), [], [])
  }

  ghost function Offer(n: Node, t: Ticket): Node {
    n.(tickets := n.tickets + [t])
  }

  ghost function DoFinish(cfg: Config, n: Node, t: Ticket, suffix: seq<Block>, now: u64): Node
    requires t.Prepared?
  {
    var verdict := FinishSuffix(cfg, t.trial, suffix, now);
    if verdict.Failure? || verdict.value.None? then n
    else Offer(n, Finished(verdict.value.value, t.origin, t.ancestor, RecordedSuffix(cfg, t, suffix)))
  }

  ghost function DoSplice(cfg: Config, n: Node, t: Ticket): Node
    requires t.Finished?
  {
    var spliced := SpliceSuffix(cfg, n.chain, t.reorg);
    if spliced.None? then n else n.(chain := spliced.value, history := RecordedSplice(t))
  }

  ghost function DoEvaluate(cfg: Config, n: Node, t: Ticket, blocks: seq<Block>, now: u64): Node
    requires t.Snapshot?
  {
    var verdict := EvaluateReorg(cfg, t.work, t.hashes, t.base, blocks, now);
    if verdict.Failure? || verdict.value.None? then n
    else Offer(n, Candidate(verdict.value.value, RecordedCandidate(cfg, t, blocks, now)))
  }

  ghost function DoAdopt(n: Node, t: Ticket): Node
    requires t.Candidate?
  {
    if t.chain.totalWork > n.chain.totalWork then n.(chain := AdoptReorg(n.chain, t.chain), history := t.steps) else n
  }

  /**
    A restart replays the node's own bodies from its horizon, and starts only if the tip's roots and the
    supply equation hold.  Undo records are rebuilt, work in flight is gone.
   */
  ghost function DoRestart(cfg: Config, n: Node): Node {
    var replayed := Run(cfg, OwnDisk, StartOf(cfg, BaseOf(n.chain)), n.chain.blocks);
    if replayed.Failure? || CheckTipRoots(replayed.value).Fail? || VerifySupply(replayed.value.ledger).Fail? then n
    else n.(chain := replayed.value, tickets := [])
  }

  /** One step of the node.  A failed call, or one on a ticket of the wrong kind, changes nothing. */
  ghost function Do(cfg: Config, n: Node, e: Event): Node {
    match e
    case ApplyBlock(block, now) =>
      var step := Accept(cfg, n.chain.headers, n.chain.ledger, block, now, true);
      if step.Success? then n.(chain := Push(n.chain, step.value), history := Recorded(cfg, n, block)) else n
    case Prune(keep) =>
      var pruned := PruneKeep(cfg, n.chain, keep);
      if pruned.Success? then n.(chain := pruned.value) else n
    case Prepare(ancestor) =>
      var trial := PrepareSuffixTrial(cfg, n.chain, ancestor);
      if trial.Success? then Offer(n, Prepared(trial.value, n.history, ancestor)) else n
    case Finish(k, suffix, now) =>
      if k < |n.tickets| && n.tickets[k].Prepared? then DoFinish(cfg, n, n.tickets[k], suffix, now) else n
    case Splice(k) =>
      if k < |n.tickets| && n.tickets[k].Finished? then DoSplice(cfg, n, n.tickets[k]) else n
    case TakeSnapshot =>
      Offer(n, Snapshot(n.chain.totalWork, Hashes(n.chain.headers), BaseOf(n.chain), n.history))
    case Evaluate(k, blocks, now) =>
      if k < |n.tickets| && n.tickets[k].Snapshot? then DoEvaluate(cfg, n, n.tickets[k], blocks, now) else n
    case Adopt(k) =>
      if k < |n.tickets| && n.tickets[k].Candidate? then DoAdopt(n, n.tickets[k]) else n
    case Restart => DoRestart(cfg, n)
  }

  ghost function DoAll(cfg: Config, n: Node, events: seq<Event>): Node {
    if events == [] then n else Do(cfg, DoAll(cfg, n, events[..|events| - 1]), events[|events| - 1])
  }

  // ----------------------------------------------------------- invariant --

  ghost predicate TicketOk(cfg: Config, t: Ticket) {
    match t
    case Prepared(trial, origin, a) =>
      && History(cfg, origin) && a < |origin| && |origin| - 1 - a <= MAX_REORG_DEPTH
      && LooseTrial(cfg, trial, origin, a)
    case Finished(reorg, origin, a, suffix) =>
      && History(cfg, origin) && a < |origin| && |origin| - 1 - a <= MAX_REORG_DEPTH
      && History(cfg, origin[..a + 1] + suffix)
      && LooseReorg(cfg, reorg, origin, a, suffix)
    case Snapshot(work, hashes, base, origin) =>
      && History(cfg, origin)
      && hashes == Hashes(Compacts(origin))
      && StartOf(cfg, base).firstHeight <= |origin|
      && Inv(cfg, StartOf(cfg, base), origin[..StartOf(cfg, base).firstHeight])
    case Candidate(chain, steps) => Inv(cfg, chain, steps)
  }

  /** Work in flight that may be committed came from the history of now, or from one with less work. */
  ghost predicate FromPast(t: Ticket, history: seq<Step>) {
    t.Prepared? || t.Finished? ==> Earlier(t.origin, history)
  }

  ghost predicate TicketsOk(cfg: Config, n: Node) {
    forall k :: 0 <= k < |n.tickets| ==> TicketOk(cfg, n.tickets[k]) && FromPast(n.tickets[k], n.history)
  }

  /** The fields describe the history, but for outputs the live ledger may have lost; and so for work in flight. */
  ghost predicate NodeOk(cfg: Config, n: Node) {
    LooseInv(cfg, n.chain, n.history) && TicketsOk(cfg, n)
  }

  /** What a step may do to the chain: leave its history, or replace it by one with strictly more work. */
  ghost predicate Grows(before: Node, after: Node) {
    && after.chain.totalWork >= before.chain.totalWork
    && (after.history == before.history || after.chain.totalWork > before.chain.totalWork)
  }

  lemma {:induction false} OfferOk(cfg: Config, n: Node, t: Ticket)
    requires NodeOk(cfg, n) && TicketOk(cfg, t) && FromPast(t, n.history)
    ensures NodeOk(cfg, Offer(n, t)) && Grows(n, Offer(n, t))
  {
    hide LooseInv, TicketOk, FromPast;
  }

  lemma {:induction false} WorkOfLoose(cfg: Config, s: ChainState, x: seq<Step>)
    requires LooseInv(cfg, s, x)
    ensures s.totalWork == UndoWork(Undos(x)) && s.headers == Compacts(x) && History(cfg, x)
  {
    hide LooseInv, History, UndoWork, Window, TailUndos, Within;
    LooseFacts(cfg, s, x);
  }

  /** A chain that moved on leaves every ticket further in the past. */
  lemma {:induction false} MovedOk(cfg: Config, n: Node, chain: ChainState, history: seq<Step>)
    requires NodeOk(cfg, n) && LooseInv(cfg, chain, history)
    requires Grows(n, n.(chain := chain, history := history))
    ensures NodeOk(cfg, n.(chain := chain, history := history))
  {
    hide LooseInv, TicketOk, UndoWork, Undos;
    WorkOfLoose(cfg, n.chain, n.history);
    WorkOfLoose(cfg, chain, history);
    var after := n.(chain := chain, history := history);
    forall k | 0 <= k < |after.tickets| ensures TicketOk(cfg, after.tickets[k]) && FromPast(after.tickets[k], history) {
      assert TicketOk(cfg, n.tickets[k]) && FromPast(n.tickets[k], n.history);
    }
  }

  lemma {:induction false} NodeFacts(cfg: Config, n: Node)
    requires NodeOk(cfg, n)
    ensures LooseInv(cfg, n.chain, n.history) && TicketsOk(cfg, n)
    ensures History(cfg, n.history) && n.chain.headers == Compacts(n.history)
  {
    hide LooseInv, TicketsOk;
    WorkOfLoose(cfg, n.chain, n.history);
  }

  lemma {:induction false} ApplyOk(cfg: Config, n: Node, block: Block, now: u64)
    requires NodeOk(cfg, n)
    ensures NodeOk(cfg, Do(cfg, n, ApplyBlock(block, now))) && Grows(n, Do(cfg, n, ApplyBlock(block, now)))
  {
    hide NodeOk, LooseInv, Accept, Trust, Push, LedgerAt, TicketsOk;
    NodeFacts(cfg, n);
    if Accept(cfg, n.chain.headers, n.chain.ledger, block, now, true).Success? {
      LooseApply(cfg, n.chain, n.history, block, now);
      MovedOk(cfg, n, Push(n.chain, Accept(cfg, n.chain.headers, n.chain.ledger, block, now, true).value), Recorded(cfg, n, block));
    }
  }

  lemma {:induction false} PruneOk(cfg: Config, n: Node, keep: nat)
    requires NodeOk(cfg, n)
    ensures PruneKeep(cfg, n.chain, keep).Success?
    ensures NodeOk(cfg, Do(cfg, n, Prune(keep))) && Grows(n, Do(cfg, n, Prune(keep)))
  {
    hide NodeOk, LooseInv, PruneKeep, TicketsOk;
    NodeFacts(cfg, n);
    LoosePrune(cfg, n.chain, n.history, keep);
    MovedOk(cfg, n, PruneKeep(cfg, n.chain, keep).value, n.history);
  }

  lemma {:induction false} PrepareOk(cfg: Config, n: Node, a: nat)
    requires NodeOk(cfg, n)
    ensures NodeOk(cfg, Do(cfg, n, Prepare(a))) && Grows(n, Do(cfg, n, Prepare(a)))
  {
    hide LooseInv, PrepareSuffixTrial, History, NodeOk, LooseTrial, TicketsOk;
    NodeFacts(cfg, n);
    LoosePrepare(cfg, n.chain, n.history, a);
    if PrepareSuffixTrial(cfg, n.chain, a).Success? {
      UndoLimit(cfg, n.chain, n.history);
      OfferOk(cfg, n, Prepared(PrepareSuffixTrial(cfg, n.chain, a).value, n.history, a));
    }
  }

  lemma {:induction false} UndoLimit(cfg: Config, s: ChainState, x: seq<Step>)
    requires LooseInv(cfg, s, x)
    ensures |s.undos| <= MAX_REORG_DEPTH
  {
    hide LooseInv, History, Window, UndoWork, Within, LedgerAt;
    LooseFacts(cfg, s, x);
  }

  lemma {:induction false} FinishOk(cfg: Config, n: Node, k: nat, suffix: seq<Block>, now: u64)
    requires NodeOk(cfg, n) && k < |n.tickets| && n.tickets[k].Prepared?
    ensures NodeOk(cfg, DoFinish(cfg, n, n.tickets[k], suffix, now)) && Grows(n, DoFinish(cfg, n, n.tickets[k], suffix, now))
  {
    hide LooseInv, NodeOk, FinishSuffix, StepsOf, LooseReorg, LooseTrial, UndoWork, LedgerAt, History, Compacts;
    NodeFacts(cfg, n);
    var t := n.tickets[k];
    assert TicketOk(cfg, t) && FromPast(t, n.history);
    var verdict := FinishSuffix(cfg, t.trial, suffix, now);
    if verdict.Success? && verdict.value.Some? {
      LooseFinish(cfg, t.trial, t.origin, t.ancestor, suffix, now);
      OfferOk(cfg, n, Finished(verdict.value.value, t.origin, t.ancestor, RecordedSuffix(cfg, t, suffix)));
    }
  }

  /**
    A splice commits only onto the very chain it was prepared from, block for block; it abandons at most
    500 blocks, leaves everything up to the ancestor in place, and keeps the prune horizon.  This needs no
    assumption on where the chain's bodies came from.
   */
  lemma {:induction false} SpliceOnItsBase(cfg: Config, n: Node, k: nat)
    requires NodeOk(cfg, n) && k < |n.tickets| && n.tickets[k].Finished?
    requires SpliceSuffix(cfg, n.chain, n.tickets[k].reorg).Some?
    ensures var t := n.tickets[k];
            var after := DoSplice(cfg, n, t);
            && t.origin == n.history && t.ancestor < |n.history|
            && |n.history| - 1 - t.ancestor <= MAX_REORG_DEPTH
            && after.history == n.history[..t.ancestor + 1] + t.suffix
            && t.ancestor < |after.chain.headers| && t.ancestor < |n.chain.headers|
            && after.chain.headers[..t.ancestor + 1] == n.chain.headers[..t.ancestor + 1]
            && after.chain.firstHeight == n.chain.firstHeight && after.chain.horizon == n.chain.horizon
            && after.chain.totalWork > n.chain.totalWork
            && LooseInv(cfg, after.chain, after.history)
  {
    hide LooseInv, NodeOk, SpliceSuffix, LooseReorg, History;
    NodeFacts(cfg, n);
    var t := n.tickets[k];
    assert TicketOk(cfg, t) && FromPast(t, n.history);
    LooseSplice(cfg, n.chain, n.history, t.reorg, t.origin, t.ancestor, t.suffix);
    var after := DoSplice(cfg, n, t);
    WorkOfLoose(cfg, after.chain, after.history);
    CompactsTake(n.history, t.ancestor);
    CompactsTake(after.history, t.ancestor);
    assert after.history[..t.ancestor + 1] == n.history[..t.ancestor + 1];
  }

  lemma {:induction false} SpliceOk(cfg: Config, n: Node, k: nat)
    requires NodeOk(cfg, n) && k < |n.tickets| && n.tickets[k].Finished?
    ensures NodeOk(cfg, DoSplice(cfg, n, n.tickets[k])) && Grows(n, DoSplice(cfg, n, n.tickets[k]))
  {
    hide NodeOk, LooseInv, SpliceSuffix;
    if SpliceSuffix(cfg, n.chain, n.tickets[k].reorg).Some? {
      SpliceOnItsBase(cfg, n, k);
      var after := DoSplice(cfg, n, n.tickets[k]);
      MovedOk(cfg, n, after.chain, after.history);
    }
  }

  lemma {:induction false} SnapshotOk(cfg: Config, n: Node)
    requires NodeOk(cfg, n)
    ensures NodeOk(cfg, Do(cfg, n, TakeSnapshot)) && Grows(n, Do(cfg, n, TakeSnapshot))
  {
    hide LooseInv, Inv, History, NodeOk, StartOf, BaseOf, Compacts, Hashes, TicketsOk;
    NodeFacts(cfg, n);
    BaseOfLoose(cfg, n.chain, n.history);
    OfferOk(cfg, n, Snapshot(n.chain.totalWork, Hashes(n.chain.headers), BaseOf(n.chain), n.history));
  }

  /** An evaluation starts from the horizon, which is what replay gives. */
  lemma {:induction false} BaseOfLoose(cfg: Config, s: ChainState, x: seq<Step>)
    requires LooseInv(cfg, s, x)
    ensures BaseOf(s) == BaseOf(Replayed(cfg, s, x))
    ensures var f := StartOf(cfg, BaseOf(s)).firstHeight;
            f <= |x| && f == s.firstHeight && Inv(cfg, StartOf(cfg, BaseOf(s)), x[..f])
  {
    hide LooseInv, Inv, Within;
    LooseParts(cfg, s, x);
    BaseOk(cfg, Replayed(cfg, s, x), x);
    HorizonKept(cfg, Replayed(cfg, s, x), x);
  }

  lemma {:induction false} HorizonKept(cfg: Config, s: ChainState, x: seq<Step>)
    requires Inv(cfg, s, x)
    ensures StartOf(cfg, BaseOf(s)).firstHeight == s.firstHeight
  {
    hide History, TailUndos, UndoWork, LedgerAt;
  }

  lemma {:induction false} EvaluateOk(cfg: Config, n: Node, k: nat, blocks: seq<Block>, now: u64)
    requires NodeOk(cfg, n) && k < |n.tickets| && n.tickets[k].Snapshot?
    ensures NodeOk(cfg, DoEvaluate(cfg, n, n.tickets[k], blocks, now)) && Grows(n, DoEvaluate(cfg, n, n.tickets[k], blocks, now))
  {
    hide LooseInv, Inv, NodeOk, EvaluateReorg, RebuiltSteps, CommonPrefix, TrustedOf, CheckedCandidate, StartOf, VerifySupply, Compacts,
         Hashes, History, CandidateSteps;
    NodeFacts(cfg, n);
    var t := n.tickets[k];
    assert TicketOk(cfg, t);
    var verdict := EvaluateReorg(cfg, t.work, t.hashes, t.base, blocks, now);
    if verdict.Success? && verdict.value.Some? {
      var f := StartOf(cfg, t.base).firstHeight;
      AdoptableIsChecked(cfg, t.origin[..f], t.work, t.hashes, t.base, blocks, now);
      OfferOk(cfg, n, Candidate(verdict.value.value, RecordedCandidate(cfg, t, blocks, now)));
    }
  }

  lemma {:induction false} AdoptOk(cfg: Config, n: Node, k: nat)
    requires NodeOk(cfg, n) && k < |n.tickets| && n.tickets[k].Candidate?
    ensures NodeOk(cfg, DoAdopt(n, n.tickets[k])) && Grows(n, DoAdopt(n, n.tickets[k]))
  {
    hide NodeOk, LooseInv, Inv;
    NodeFacts(cfg, n);
    var t := n.tickets[k];
    assert TicketOk(cfg, t);
    if t.chain.totalWork > n.chain.totalWork {
      InvIsLoose(cfg, t.chain, t.steps);
      MovedOk(cfg, n, t.chain, t.steps);
    }
  }

  /** Replaying the node's own bodies never fails, keeps headers and work, and gives the ledger of the history. */
  lemma {:induction false} RestartReplays(cfg: Config, s: ChainState, x: seq<Step>)
    requires LooseInv(cfg, s, x)
    ensures Run(cfg, OwnDisk, StartOf(cfg, BaseOf(s)), s.blocks).Success?
    ensures var r := Run(cfg, OwnDisk, StartOf(cfg, BaseOf(s)), s.blocks).value;
            Inv(cfg, r, x) && r.headers == s.headers && r.totalWork == s.totalWork && r.firstHeight == s.firstHeight && r.blocks == s.blocks
  {
    hide LooseInv, History, UndoWork, PushAll, StepsOf, BaseOf, StartOf, Within, TailUndos, Compacts, LedgerAt, Undos;
    LooseFacts(cfg, s, x);
    BaseOfLoose(cfg, s, x);
    var f := s.firstHeight;
    var start := StartOf(cfg, BaseOf(s));
    assert x[f..] == x[f..|x|];
    ReplayOf(cfg, x, f, |x|);
    StartFields(cfg, start, x, f);
    assert x == x[..f] + x[f..];
    PushedInv(cfg, start, x[..f], x[f..]);
    PushAllFields(start, x[f..]);
    StartShape(cfg, BaseOf(s));
    assert start.blocks + StepBlocks(x[f..]) == StepBlocks(x[f..]);
  }

  lemma {:induction false} StartFields(cfg: Config, start: ChainState, x: seq<Step>, f: nat)
    requires f <= |x| && Inv(cfg, start, x[..f])
    ensures start.headers == Compacts(x[..f]) && start.ledger == LedgerAt(cfg, x, f)
  {
    hide History, Window, TailUndos, UndoWork;
    HistoryAtEnd(cfg, x, f);
  }

  /** A restart that goes through mends the ledger: nothing is lost any more. */
  lemma {:induction false} RestartOk(cfg: Config, n: Node)
    requires NodeOk(cfg, n)
    ensures NodeOk(cfg, DoRestart(cfg, n)) && Grows(n, DoRestart(cfg, n)) && DoRestart(cfg, n).history == n.history
    ensures DoRestart(cfg, n) == n || Inv(cfg, DoRestart(cfg, n).chain, n.history)
  {
    hide LooseInv, Inv, Run, CheckTipRoots, VerifySupply, BaseOf, StartOf, TicketOk;
    NodeFacts(cfg, n);
    RestartReplays(cfg, n.chain, n.history);
    InvIsLoose(cfg, Run(cfg, OwnDisk, StartOf(cfg, BaseOf(n.chain)), n.chain.blocks).value, n.history);
  }

  /** Every step keeps the invariant and never loses work. */
  lemma {:induction false} StepOk(cfg: Config, n: Node, e: Event)
    requires NodeOk(cfg, n)
    ensures NodeOk(cfg, Do(cfg, n, e)) && Grows(n, Do(cfg, n, e))
  {
    hide NodeOk, DoFinish, DoSplice, DoEvaluate, DoAdopt, DoRestart, Accept, PruneKeep, PrepareSuffixTrial, BaseOf, Recorded;
    match e
    case ApplyBlock(block, now) => ApplyOk(cfg, n, block, now);
    case Prune(keep) => PruneOk(cfg, n, keep);
    case Prepare(a) => PrepareOk(cfg, n, a);
    case Finish(k, suffix, now) =>
      if k < |n.tickets| && n.tickets[k].Prepared? {
        FinishOk(cfg, n, k, suffix, now);
      }
    case Splice(k) =>
      if k < |n.tickets| && n.tickets[k].Finished? {
        SpliceOk(cfg, n, k);
      }
    case TakeSnapshot => SnapshotOk(cfg, n);
    case Evaluate(k, blocks, now) =>
      if k < |n.tickets| && n.tickets[k].Snapshot? {
        EvaluateOk(cfg, n, k, blocks, now);
      }
    case Adopt(k) =>
      if k < |n.tickets| && n.tickets[k].Candidate? {
        AdoptOk(cfg, n, k);
      }
    case Restart => RestartOk(cfg, n);
  }

  lemma {:induction false} StartOk(cfg: Config)
    ensures NodeOk(cfg, StartNode(cfg))
  {
    hide Inv, LooseInv;
    NewFairInv(cfg);
    InvIsLoose(cfg, NewFair(cfg), []);
  }

  /**
    Every interleaving, whatever bodies the evaluated candidates carry.  After any sequence of events the headers
    link to genesis and meet the pins, work is the sum of header work, bodies, horizon and undo records are those of
    the headers, and pruning cannot fail; between any two moments of a run work never decreases, and it stays
    equal only if the history stayed the same.
   */
  lemma {:induction false} EveryInterleaving(cfg: Config, n: Node, events: seq<Event>)
    requires NodeOk(cfg, n)
    ensures NodeOk(cfg, DoAll(cfg, n, events)) && Grows(n, DoAll(cfg, n, events))
    ensures HeadersOk(cfg, DoAll(cfg, n, events).chain)
    ensures forall keep :: PruneKeep(cfg, DoAll(cfg, n, events).chain, keep).Success?
    decreases |events|
  {
    hide NodeOk, Do, HeadersOk, LooseInv, TicketsOk, PruneKeep;
    if events != [] {
      var last := |events| - 1;
      EveryInterleaving(cfg, n, events[..last]);
      StepOk(cfg, DoAll(cfg, n, events[..last]), events[last]);
    }
    var after := DoAll(cfg, n, events);
    NodeFacts(cfg, after);
    LooseHeaders(cfg, after.chain, after.history);
    forall keep ensures PruneKeep(cfg, after.chain, keep).Success? {
      PruneOk(cfg, after, keep);
    }
  }

  /** The tip hash never comes back with another chain under it: no ABA. */
  lemma {:induction false} NoTipComesBack(cfg: Config, n: Node, events: seq<Event>)
    requires NodeOk(cfg, n)
    requires TipHash(cfg, DoAll(cfg, n, events).chain.headers) == TipHash(cfg, n.chain.headers)
    ensures DoAll(cfg, n, events).history == n.history
    ensures DoAll(cfg, n, events).chain.totalWork == n.chain.totalWork
  {
    hide NodeOk, LooseInv, DoAll, TipHash, UndoWork, History, HeadersOk, PruneKeep, TicketsOk;
    EveryInterleaving(cfg, n, events);
    NodeFacts(cfg, n);
    NodeFacts(cfg, DoAll(cfg, n, events));
    WorkOfLoose(cfg, n.chain, n.history);
    WorkOfLoose(cfg, DoAll(cfg, n, events).chain, DoAll(cfg, n, events).history);
    TipSettlesWork(cfg, DoAll(cfg, n, events).history, n.history);
  }

  // ------------------------------------------------- runs that keep faith --

  ghost predicate TicketAttested(cfg: Config, t: Ticket)
    requires TicketOk(cfg, t)
  {
    match t
    case Prepared(trial, origin, a) => Attested(cfg, origin) && trial.trial.ledger == LedgerAt(cfg, origin, a + 1)
    case Finished(reorg, origin, a, suffix) =>
      Attested(cfg, origin[..a + 1] + suffix) && reorg.ledger == EndLedger(LedgerAt(cfg, origin, a + 1), suffix)
    case Snapshot(_, _, _, origin) => Attested(cfg, origin)
    case Candidate(_, steps) => Attested(cfg, steps)
  }

  /** The invariant of a node all of whose blocks agree with fully validated ones: nothing is lost, nothing is foreign. */
  ghost predicate NodeAttested(cfg: Config, n: Node) {
    && NodeOk(cfg, n)
    && Inv(cfg, n.chain, n.history) && Attested(cfg, n.history)
    && forall k :: 0 <= k < |n.tickets| ==> TicketAttested(cfg, n.tickets[k])
  }

  /**
    If the evaluation returns a candidate, every body it took on trust hashes to the root in its header, and where a pin
    widened the trust a validated chain reaches that pin.
   */
  ghost predicate Faithful(cfg: Config, n: Node, e: Event) {
    e.Evaluate? && e.ticket < |n.tickets| && n.tickets[e.ticket].Snapshot? ==>
      var t := n.tickets[e.ticket];
      var f := StartOf(cfg, t.base).firstHeight;
      EvaluateReorg(cfg, t.work, t.hashes, t.base, e.blocks, e.now).Success?
      && EvaluateReorg(cfg, t.work, t.hashes, t.base, e.blocks, e.now).value.Some? && f <= |t.hashes| ==>
        var window := CommonPrefix(t.hashes[f..], e.blocks);
        var trusted := TrustedOf(cfg, t.base, window, |e.blocks|);
        BodiesMatch(cfg, e.blocks, trusted) && (trusted > window ==> PinReached(cfg))
  }

  ghost predicate AllFaithful(cfg: Config, n: Node, events: seq<Event>) {
    events != [] ==>
      var before := DoAll(cfg, n, events[..|events| - 1]);
      && AllFaithful(cfg, n, events[..|events| - 1])
      && Faithful(cfg, before, events[|events| - 1])
  }

  lemma {:induction false} AttestedNode(cfg: Config, n: Node)
    requires NodeAttested(cfg, n)
    ensures NodeOk(cfg, n) && Inv(cfg, n.chain, n.history) && Attested(cfg, n.history)
    ensures History(cfg, n.history) && n.chain.headers == Compacts(n.history)
    ensures n.chain.ledger == LedgerAt(cfg, n.history, |n.history|)
  {
    hide NodeOk, History, Attested, Window, TailUndos, UndoWork, TicketAttested, TicketOk;
  }

  lemma {:induction false} AttestedTicket(cfg: Config, n: Node, k: nat)
    requires NodeAttested(cfg, n) && k < |n.tickets|
    ensures TicketOk(cfg, n.tickets[k]) && FromPast(n.tickets[k], n.history) && TicketAttested(cfg, n.tickets[k])
  {
    hide LooseInv, Inv, Attested, TicketAttested, TicketOk, FromPast;
  }

  lemma {:induction false} OfferAttested(cfg: Config, n: Node, t: Ticket)
    requires NodeAttested(cfg, n) && TicketOk(cfg, t) && FromPast(t, n.history)
    ensures NodeAttested(cfg, Offer(n, t)) <==> TicketAttested(cfg, t)
  {
    hide NodeOk, Inv, Attested, TicketAttested, TicketOk, FromPast;
    OfferOk(cfg, n, t);
    var after := Offer(n, t);
    assert after.tickets[|n.tickets|] == t;
    forall k | 0 <= k < |n.tickets| ensures TicketOk(cfg, n.tickets[k]) && TicketAttested(cfg, n.tickets[k]) {
      AttestedTicket(cfg, n, k);
    }
    if TicketAttested(cfg, t) {
      forall k | 0 <= k < |after.tickets| ensures TicketOk(cfg, after.tickets[k]) && TicketAttested(cfg, after.tickets[k]) {
        if k < |n.tickets| {
          assert after.tickets[k] == n.tickets[k];
        }
      }
    }
  }

  lemma {:induction false} MovedAttested(cfg: Config, n: Node, chain: ChainState, history: seq<Step>)
    requires NodeAttested(cfg, n) && Inv(cfg, chain, history) && Attested(cfg, history)
    requires Grows(n, n.(chain := chain, history := history))
    ensures NodeAttested(cfg, n.(chain := chain, history := history))
  {
    hide NodeOk, Inv, Attested, TicketAttested, TicketOk, FromPast, LooseInv;
    InvIsLoose(cfg, chain, history);
    MovedOk(cfg, n, chain, history);
    forall k | 0 <= k < |n.tickets| ensures TicketOk(cfg, n.tickets[k]) && TicketAttested(cfg, n.tickets[k]) {
      AttestedTicket(cfg, n, k);
    }
  }

  lemma {:induction false} ApplyAttested(cfg: Config, n: Node, block: Block, now: u64)
    requires NodeAttested(cfg, n)
    ensures NodeAttested(cfg, Do(cfg, n, ApplyBlock(block, now)))
  {
    hide NodeAttested, NodeOk, LooseInv, Inv, Accept, Trust, Push, LedgerAt, Attested, CheckedAt, History, Grows;
    AttestedNode(cfg, n);
    var s, x := n.chain, n.history;
    if Accept(cfg, s.headers, s.ledger, block, now, true).Success? {
      var step := Accept(cfg, s.headers, s.ledger, block, now, true).value;
      NextStores(cfg, Full(now), s.headers, s.ledger, block);
      OneMore(cfg, Full(now), x, block);
      var y := x + [step];
      assert y[..|x|] == x[..|x|];
      AttestedGrows(cfg, x, |x|, y);
      ApplyOk(cfg, n, block, now);
      PushedStep(cfg, s, x, step);
      MovedAttested(cfg, n, Push(s, step), y);
    }
  }

  lemma {:induction false} PushedStep(cfg: Config, s: ChainState, x: seq<Step>, step: Step)
    requires Inv(cfg, s, x) && History(cfg, x + [step])
    ensures Inv(cfg, Push(s, step), x + [step])
  {
    hide Inv, History, Push;
    SinglePush(s, step);
    PushedInv(cfg, s, x, [step]);
  }

  lemma {:induction false} PruneAttested(cfg: Config, n: Node, keep: nat)
    requires NodeAttested(cfg, n)
    ensures NodeAttested(cfg, Do(cfg, n, Prune(keep)))
  {
    hide NodeAttested, NodeOk, LooseInv, Inv, PruneKeep, Attested, History, Grows;
    AttestedNode(cfg, n);
    PruneOk(cfg, n, keep);
    PruneKeepsInv(cfg, n.chain, n.history, keep);
    MovedAttested(cfg, n, PruneKeep(cfg, n.chain, keep).value, n.history);
  }

  lemma {:induction false} PrepareAttested(cfg: Config, n: Node, a: nat)
    requires NodeAttested(cfg, n)
    ensures NodeAttested(cfg, Do(cfg, n, Prepare(a)))
  {
    hide NodeAttested, NodeOk, LooseInv, Inv, PrepareSuffixTrial, Attested, History, LooseTrial, FreshAt, PreparedAt, RootsMatch, RootOfBody;
    AttestedNode(cfg, n);
    if PrepareSuffixTrial(cfg, n.chain, a).Success? {
      var x := n.history;
      forall i | a < i < |x| ensures FreshAt(cfg, x, i) {
        AttestedFacts(cfg, x, i);
      }
      PrepareFresh(cfg, n.chain, x, a);
      NodeFacts(cfg, n);
      LoosePrepare(cfg, n.chain, x, a);
      UndoLimit(cfg, n.chain, x);
      PreparedLedger(cfg, x, a);
      OfferAttested(cfg, n, Prepared(PreparedAt(cfg, x, a), x, a));
    }
  }

  lemma {:induction false} PreparedLedger(cfg: Config, x: seq<Step>, a: nat)
    requires a < |x|
    ensures PreparedAt(cfg, x, a).trial.ledger == LedgerAt(cfg, x, a + 1)
  {
    hide LedgerAt, UndoWork, Compacts, TipHash, ForNetwork;
  }

  lemma {:induction false} FinishAttested(cfg: Config, n: Node, k: nat, suffix: seq<Block>, now: u64)
    requires NodeAttested(cfg, n) && k < |n.tickets| && n.tickets[k].Prepared?
    ensures NodeAttested(cfg, DoFinish(cfg, n, n.tickets[k], suffix, now))
  {
    hide NodeAttested, NodeOk, LooseInv, Inv, FinishSuffix, StepsOf, Attested, History, LooseTrial, LooseReorg, LedgerAt, Compacts, UndoWork,
         CheckedAt, Earlier;
    AttestedTicket(cfg, n, k);
    var t := n.tickets[k];
    var a, x := t.ancestor, t.origin;
    var verdict := FinishSuffix(cfg, t.trial, suffix, now);
    if verdict.Success? && verdict.value.Some? {
      LooseFinish(cfg, t.trial, x, a, suffix, now);
      var y := RecordedSuffix(cfg, t, suffix);
      FinishExactly(cfg, t.trial, x, a, suffix, now);
      HistoryPrefix(cfg, x, a + 1);
      HistoryAtEnd(cfg, x, a + 1);
      HistoryExtends(cfg, Full(now), x[..a + 1], suffix);
      AttestedGrows(cfg, x, a + 1, x[..a + 1] + y);
      OfferAttested(cfg, n, Finished(verdict.value.value, x, a, y));
    }
  }

  /** A trial with the right ledger: what replay takes is what full validation took. */
  lemma {:induction false} FinishExactly(cfg: Config, t: SuffixTrial, x: seq<Step>, a: nat, suffix: seq<Block>, now: u64)
    requires a < |x| && LooseTrial(cfg, t, x, a) && t.trial.ledger == LedgerAt(cfg, x, a + 1)
    requires FinishSuffix(cfg, t, suffix, now).Success? && FinishSuffix(cfg, t, suffix, now).value.Some?
    ensures var full := StepsOf(cfg, Full(now), Compacts(x[..a + 1]), LedgerAt(cfg, x, a + 1), suffix);
            && full.Success? && full == StepsOf(cfg, OwnDisk, Compacts(x[..a + 1]), LedgerAt(cfg, x, a + 1), suffix)
            && FinishSuffix(cfg, t, suffix, now).value.value.ledger == EndLedger(LedgerAt(cfg, x, a + 1), full.value)
  {
    hide StepsOf, FinishSuffix, UndoWork, LedgerAt, Compacts, Undos, Within, TipHash, ForNetwork, Newest, WorkOf, EndLedger;
    assert t == PreparedAt(cfg, x, a);
    FinishExact(cfg, x, a, suffix, now);
    FullRunIsTrustedRun(cfg, Compacts(x[..a + 1]), LedgerAt(cfg, x, a + 1), suffix, now);
  }

  lemma {:induction false} SpliceAttested(cfg: Config, n: Node, k: nat)
    requires NodeAttested(cfg, n) && k < |n.tickets| && n.tickets[k].Finished?
    ensures NodeAttested(cfg, DoSplice(cfg, n, n.tickets[k]))
  {
    hide NodeAttested, NodeOk, LooseInv, Inv, SpliceSuffix, Attested, History, LooseReorg, LedgerAt, Earlier, Grows;
    AttestedTicket(cfg, n, k);
    AttestedNode(cfg, n);
    var t := n.tickets[k];
    if SpliceSuffix(cfg, n.chain, t.reorg).Some? {
      SpliceOnItsBase(cfg, n, k);
      SpliceOk(cfg, n, k);
      var after := DoSplice(cfg, n, t);
      JoinLedger(cfg, n.history, t.ancestor, t.suffix);
      SplicedLedger(cfg, n.chain, t.reorg);
      InvIsLoose(cfg, after.chain, after.history);
      MovedAttested(cfg, n, after.chain, after.history);
    }
  }

  lemma {:induction false} SplicedLedger(cfg: Config, s: ChainState, r: SuffixReorg)
    requires SpliceSuffix(cfg, s, r).Some?
    ensures SpliceSuffix(cfg, s, r).value.ledger == r.ledger
  {
  }

  /** From an attested node, an evaluation keeps it attested exactly when it is faithful. */
  lemma {:induction false} EvaluateAttested(cfg: Config, n: Node, k: nat, blocks: seq<Block>, now: u64)
    requires NodeAttested(cfg, n) && k < |n.tickets| && n.tickets[k].Snapshot?
    ensures NodeAttested(cfg, DoEvaluate(cfg, n, n.tickets[k], blocks, now)) <==> Faithful(cfg, n, Evaluate(k, blocks, now))
  {
    hide NodeAttested, NodeOk, LooseInv, Inv, Attested, History, EvaluateReorg, CommonPrefix, TrustedOf, StartOf, RebuiltSteps, BodiesMatch,
         CheckedCandidate, VerifySupply, Compacts, Hashes, LedgerAt;
    AttestedTicket(cfg, n, k);
    var t := n.tickets[k];
    var verdict := EvaluateReorg(cfg, t.work, t.hashes, t.base, blocks, now);
    if verdict.Success? && verdict.value.Some? {
      var start := StartOf(cfg, t.base);
      var f := start.firstHeight;
      AdoptableIsChecked(cfg, t.origin[..f], t.work, t.hashes, t.base, blocks, now);
      StartFields(cfg, start, t.origin, f);
      var window := CommonPrefix(t.hashes[f..], blocks);
      SharedHashes(t.origin, f, blocks);
      var trusted := TrustedOf(cfg, t.base, window, |blocks|);
      ExtentOf(cfg, t.base, window, |blocks|);
      CandidateAttestedExactly(cfg, t.origin, f, blocks, window, trusted, now);
      OfferAttested(cfg, n, Candidate(verdict.value.value, RecordedCandidate(cfg, t, blocks, now)));
    }
  }

  lemma {:induction false} ExtentOf(cfg: Config, base: Option<PrunedBase>, window: nat, n: nat)
    requires window <= n
    ensures TrustedExtent(cfg, StartOf(cfg, base).firstHeight, window, TrustedOf(cfg, base, window, n), n)
  {
    hide HighestCheckpoint, ForNetwork;
  }

  lemma {:induction false} SharedHashes(x: seq<Step>, f: nat, blocks: seq<Block>)
    requires f <= |x|
    ensures |Hashes(Compacts(x))| == |x|
    ensures var w := CommonPrefix(Hashes(Compacts(x))[f..], blocks);
            f + w <= |x| && w <= |blocks| && forall i :: 0 <= i < w ==> HashOf(blocks[i]) == HashOf(x[f + i].block)
  {
    hide CommonPrefix;
    var hashes := Hashes(Compacts(x))[f..];
    CommonBounds(hashes, blocks);
    assert forall i :: 0 <= i < |hashes| ==> hashes[i] == HashOf(x[f + i].block);
  }

  lemma {:induction false} AdoptAttested(cfg: Config, n: Node, k: nat)
    requires NodeAttested(cfg, n) && k < |n.tickets| && n.tickets[k].Candidate?
    ensures NodeAttested(cfg, DoAdopt(n, n.tickets[k]))
  {
    hide NodeAttested, NodeOk, Inv, Attested;
    AttestedTicket(cfg, n, k);
    AttestedNode(cfg, n);
    var t := n.tickets[k];
    if t.chain.totalWork > n.chain.totalWork {
      MovedAttested(cfg, n, t.chain, t.steps);
    }
  }

  /** On an attested node a restart always goes through, and only drops bodies' undo records and work in flight. */
  lemma {:induction false} RestartAttested(cfg: Config, n: Node)
    requires NodeAttested(cfg, n)
    ensures NodeAttested(cfg, DoRestart(cfg, n))
    ensures var after := DoRestart(cfg, n);
            && after.tickets == [] && after.chain.headers == n.chain.headers && after.chain.ledger == n.chain.ledger
            && after.chain.totalWork == n.chain.totalWork && after.chain.blocks == n.chain.blocks
  {
    hide NodeOk, LooseInv, Inv, Run, CheckTipRoots, VerifySupply, BaseOf, StartOf, TicketOk, TicketAttested, Attested;
    AttestedNode(cfg, n);
    NodeFacts(cfg, n);
    RestartReplays(cfg, n.chain, n.history);
    var r := Run(cfg, OwnDisk, StartOf(cfg, BaseOf(n.chain)), n.chain.blocks).value;
    InvLedger(cfg, r, n.history);
    AttestedTipPasses(cfg, r, n.history);
    AttestedIsSound(cfg, n.history, |n.history|);
    RestartOk(cfg, n);
  }

  lemma {:induction false} AttestedTipPasses(cfg: Config, s: ChainState, x: seq<Step>)
    requires Inv(cfg, s, x) && Attested(cfg, x)
    ensures CheckTipRoots(s).Pass?
  {
    hide History, Attested, TailUndos, UndoWork, RootsMatch, RootOfBody, FreshAt;
    if s.blocks != [] {
      var last := |x| - 1;
      assert s.blocks[|s.blocks| - 1] == x[s.firstHeight..][|s.blocks| - 1].block == x[last].block;
      AttestedFacts(cfg, x, last);
      EndsWith(cfg, x);
    }
  }

  /** No inflation carries over from validated blocks to blocks that agree with them. */
  lemma {:induction false} AttestedIsSound(cfg: Config, x: seq<Step>, i: nat)
    requires Attested(cfg, x) && i <= |x|
    ensures var l := LedgerAt(cfg, x, i); Sound(l) && Value(l) == l.minted - l.burned && VerifySupply(l).Pass?
  {
    hide Verified, Sound, Value, VerifySupply, LedgerAt, RootOfBody;
    var v: seq<Step> :| Verified(cfg, v) && Alike(x, v);
    AlikeState(cfg, x, v, i);
    NoInflation(cfg, v, i);
  }

  /**
    From an attested node every step keeps every block in agreement with a fully validated one, except an
    evaluation that returns a candidate with a body its header does not commit to: exactly those break it.
   */
  lemma {:induction false} StepAttestedExactly(cfg: Config, n: Node, e: Event)
    requires NodeAttested(cfg, n)
    ensures NodeAttested(cfg, Do(cfg, n, e)) <==> Faithful(cfg, n, e)
  {
    hide NodeAttested, DoFinish, DoSplice, DoEvaluate, DoAdopt, DoRestart, Accept, PruneKeep, PrepareSuffixTrial, BaseOf, Recorded,
         EvaluateReorg, CommonPrefix, BodiesMatch, TrustedOf, StartOf;
    match e
    case ApplyBlock(block, now) => ApplyAttested(cfg, n, block, now);
    case Prune(keep) => PruneAttested(cfg, n, keep);
    case Prepare(a) => PrepareAttested(cfg, n, a);
    case Finish(k, suffix, now) =>
      if k < |n.tickets| && n.tickets[k].Prepared? {
        FinishAttested(cfg, n, k, suffix, now);
      }
    case Splice(k) =>
      if k < |n.tickets| && n.tickets[k].Finished? {
        SpliceAttested(cfg, n, k);
      }
    case TakeSnapshot => SnapshotAttested(cfg, n);
    case Evaluate(k, blocks, now) =>
      if k < |n.tickets| && n.tickets[k].Snapshot? {
        EvaluateAttested(cfg, n, k, blocks, now);
      }
    case Adopt(k) =>
      if k < |n.tickets| && n.tickets[k].Candidate? {
        AdoptAttested(cfg, n, k);
      }
    case Restart => RestartAttested(cfg, n);
  }

  lemma {:induction false} SnapshotAttested(cfg: Config, n: Node)
    requires NodeAttested(cfg, n)
    ensures NodeAttested(cfg, Do(cfg, n, TakeSnapshot))
  {
    hide NodeAttested, NodeOk, LooseInv, Inv, Attested, History, StartOf, BaseOf, Compacts, Hashes;
    AttestedNode(cfg, n);
    NodeFacts(cfg, n);
    BaseOfLoose(cfg, n.chain, n.history);
    OfferAttested(cfg, n, Snapshot(n.chain.totalWork, Hashes(n.chain.headers), BaseOf(n.chain), n.history));
  }

  lemma {:induction false} StartAttested(cfg: Config)
    ensures NodeAttested(cfg, StartNode(cfg))
  {
    hide Inv, NodeOk;
    StartOk(cfg);
    NewFairInv(cfg);
    VerifiedIsAttested(cfg, []);
  }

  /** In every faithful run, over every interleaving, every block agrees with a fully validated one. */
  lemma {:induction false} EveryFaithfulRun(cfg: Config, n: Node, events: seq<Event>)
    requires NodeAttested(cfg, n) && AllFaithful(cfg, n, events)
    ensures NodeAttested(cfg, DoAll(cfg, n, events))
    decreases |events|
  {
    hide NodeAttested, Do, Faithful;
    if events != [] {
      var last := |events| - 1;
      EveryFaithfulRun(cfg, n, events[..last]);
      StepAttestedExactly(cfg, DoAll(cfg, n, events[..last]), events[last]);
    }
  }

  /** In every node a faithful run reaches, the hidden values add up to what was minted less what was burned. */
  lemma {:induction false} ReachableIsSound(cfg: Config, events: seq<Event>)
    requires AllFaithful(cfg, StartNode(cfg), events)
    ensures var n := DoAll(cfg, StartNode(cfg), events);
            && Sound(n.chain.ledger) && Value(n.chain.ledger) == n.chain.ledger.minted - n.chain.ledger.burned
            && VerifySupply(n.chain.ledger).Pass?
            && n.chain.ledger.minted == Emission.Minted(Emission.MAINNET, |n.history|)
  {
    hide NodeAttested, NodeOk, Inv, Attested, DoAll, AllFaithful, Sound, Value, VerifySupply, History, Emission.Minted, LedgerAt;
    StartAttested(cfg);
    EveryFaithfulRun(cfg, StartNode(cfg), events);
    var n := DoAll(cfg, StartNode(cfg), events);
    AttestedNode(cfg, n);
    AttestedIsSound(cfg, n.history, |n.history|);
    MintedFollowsSchedule(cfg, n.history, |n.history|);
  }
}
