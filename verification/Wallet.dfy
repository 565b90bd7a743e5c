/**
  The wallet's scan of the chain: one page, and the paging loop
  (crates/nightfall-core/src/wallet_state.rs and the page scan of crates/nightfall-wallet/src/lib.rs it drives).

  Which outputs a view key opens is a parameter.
 */
module WalletScan {
  import opened Wrappers
  import opened Words
  import opened Curve
  import opened Transactions
  import opened Blocks
  import opened Consensus
  import ChainInvariant

  datatype Coin = Coin(height: nat, coinbase: bool, spent: bool)

  /** The entries recorded for each commitment, oldest first: one for every output found under it. */
  type Coins = map<Bytes32, seq<Coin>>

  /** A payment, with the block that confirmed it once one did; `failed` when it was given up. */
  datatype Send = Send(txid: nat, inputs: set<Bytes32>, height: Option<nat>, timestamp: u64, failed: bool, quarantined: bool, swapLock: bool)

  /** What was received, by commitment and by whether it was mined: the height. */
  type Receipts = map<(Bytes32, bool), nat>

  /**
    `scannedTo` is the highest block seen and `tip` its hash; payments, reservations and notes (invoices, swaps, the
    address book) are the owner's.
   */
  datatype Wallet = Wallet(birth: nat, scannedTo: nat, tip: Option<Hash>, coins: Coins, sends: seq<Send>,
                           receipts: Receipts, reserved: set<Bytes32>, notes: map<nat, nat>)

  type Opens = Output -> bool

  datatype ScanError = NoAnchor | ChainChanged | ScannedPastTip | PrunedBelow | StoppedServing | StuckPosition

  const SCAN_PAGE: nat := 1024

  // ------------------------------------------------------------- one page --

  function ScanFrom(w: Wallet): nat {
    if w.scannedTo >= w.birth then w.scannedTo else w.birth
  }

  predicate HasScannedHistory(w: Wallet) {
    w.scannedTo > w.birth || w.tip.Some? || w.coins != map[] || w.sends != [] || w.receipts != map[] || w.reserved != {}
  }

  predicate NeedsCanonicalPass(w: Wallet) {
    w.tip.None? && HasScannedHistory(w)
  }

  predicate Contiguous(blocks: seq<Block>) {
    forall i :: 0 <= i < |blocks| ==> blocks[i].header.height == blocks[0].header.height + i
  }

  predicate NoneAbove(entries: seq<Coin>, height: nat) {
    forall i :: 0 <= i < |entries| ==> entries[i].height <= height
  }

  /** The slice reaches from genesis or the birth height past everything this wallet has seen. */
  predicate CoversCanonicalHistory(w: Wallet, blocks: seq<Block>) {
    && blocks != []
    && (blocks[0].header.height == 0 || blocks[0].header.height == w.birth)
    && Contiguous(blocks)
    && var last := blocks[|blocks| - 1].header.height;
       last >= w.scannedTo && forall c :: c in w.coins ==> NoneAbove(w.coins[c], last)
  }

  function CheckContinuity(w: Wallet, blocks: seq<Block>): Outcome<ScanError> {
    if w.tip.None? then
      if HasScannedHistory(w) && !CoversCanonicalHistory(w, blocks) then Fail(NoAnchor) else Pass
    else if blocks == [] || blocks[0].header.height != w.scannedTo then Pass
    else if HashOf(blocks[0]) != w.tip.value then Fail(ChainChanged)
    else Pass
  }

  function SpentIn(blocks: seq<Block>): set<Bytes32> {
    if blocks == [] then {} else SpentIn(blocks[..|blocks| - 1]) + set i | i in blocks[|blocks| - 1].body.inputs :: i.commit
  }

  /** The outputs a block creates, with its height. */
  function CreatedBy(height: nat, outputs: seq<Output>): seq<(nat, Output)> {
    seq(|outputs|, i requires 0 <= i < |outputs| => (height, outputs[i]))
  }

  function CreatedIn(blocks: seq<Block>): seq<(nat, Output)> {
    if blocks == [] then []
    else CreatedIn(blocks[..|blocks| - 1]) + CreatedBy(blocks[|blocks| - 1].header.height, blocks[|blocks| - 1].body.outputs)
  }

  function EntriesOf(coins: Coins, c: Bytes32): seq<Coin> {
    if c in coins then coins[c] else []
  }

  /** The entries that a list of outputs adds to what is already known; `known` is not brought up to date within the list. */
  function Found(opens: Opens, known: set<Bytes32>, created: seq<(nat, Output)>): Coins {
    if created == [] then map[]
    else
      var (height, o) := created[|created| - 1];
      var before := Found(opens, known, created[..|created| - 1]);
      if o.commit !in known && opens(o)
      then before[o.commit := EntriesOf(before, o.commit) + [Coin(height, o.coinbase, false)]]
      else before
  }

  function Commits(created: seq<(nat, Output)>): set<Bytes32> {
    set x | x in created :: x.1.commit
  }

  function SetSpent(entries: seq<Coin>, spent: bool): seq<Coin> {
    seq(|entries|, i requires 0 <= i < |entries| => entries[i].(spent := spent))
  }

  /** What a spend does to the entries of its commitment: all of them are spent. */
  function Marked(entries: seq<Coin>, spent: bool): seq<Coin> {
    if spent then SetSpent(entries, true) else entries
  }

  function MarkSpent(coins: Coins, spent: set<Bytes32>): Coins {
    map c | c in coins :: Marked(coins[c], c in spent)
  }

  /** Coins missing from the slice are dropped, and only spends within the slice count. */
  function Reconcile(coins: Coins, created: set<Bytes32>, spent: set<Bytes32>): Coins {
    map c | c in coins && c in created :: SetSpent(coins[c], c in spent)
  }

  function Highest(start: nat, blocks: seq<Block>): nat {
    if blocks == [] then start
    else
      var before := Highest(start, blocks[..|blocks| - 1]);
      if blocks[|blocks| - 1].header.height > before then blocks[|blocks| - 1].header.height else before
  }

  function BlockAt(blocks: seq<Block>, height: nat): Option<Block> {
    if blocks == [] then None
    else if blocks[0].header.height == height then Some(blocks[0])
    else BlockAt(blocks[1..], height)
  }

  /** The outputs found, counted as they are met. */
  function FoundCount(opens: Opens, known: set<Bytes32>, created: seq<(nat, Output)>): nat {
    if created == [] then 0
    else
      var o := created[|created| - 1].1;
      FoundCount(opens, known, created[..|created| - 1]) + if o.commit !in known && opens(o) then 1 else 0
  }

  predicate Pending(e: Send) {
    e.height.None? && !e.failed
  }

  /** The first block with which all these inputs are consumed, counting from the first of the slice. */
  function SettledBy(blocks: seq<Block>, inputs: set<Bytes32>): Option<nat> {
    if blocks == [] then None
    else
      var before := SettledBy(blocks[..|blocks| - 1], inputs);
      if before.Some? then before
      else if inputs != {} && inputs <= SpentIn(blocks) then Some(|blocks| - 1)
      else None
  }

  lemma {:induction false} SettledInRange(blocks: seq<Block>, inputs: set<Bytes32>)
    ensures SettledBy(blocks, inputs).Some? ==> SettledBy(blocks, inputs).value < |blocks|
  {
    if blocks != [] {
      SettledInRange(blocks[..|blocks| - 1], inputs);
    }
  }

  function Confirm(e: Send, b: Block): Send {
    e.(height := Some(b.header.height), timestamp := b.header.timestamp)
  }

  /** A slice that consumes all inputs of a pending payment confirms it; a reconciling one can take that back. */
  function ScanSend(blocks: seq<Block>, reconcile: bool, e: Send): Send {
    if e.height.Some? then
      if reconcile && !(e.inputs != {} && e.inputs <= SpentIn(blocks)) then e.(height := None, quarantined := true) else e
    else if e.failed then e
    else
      SettledInRange(blocks, e.inputs);
      match SettledBy(blocks, e.inputs)
      case None => e
      case Some(m) => Confirm(e, blocks[m])
  }

  function ScanSends(blocks: seq<Block>, reconcile: bool, sends: seq<Send>): seq<Send> {
    seq(|sends|, i requires 0 <= i < |sends| => ScanSend(blocks, reconcile, sends[i]))
  }

  /** The block consumes something of ours, as far as was known when the slice began. */
  predicate SpendsAny(b: Block, known: set<Bytes32>) {
    exists i :: 0 <= i < |b.body.inputs| && b.body.inputs[i].commit in known
  }

  /** What a new output is entered as: not at all when it looks like the change of a payment of ours. */
  function EnterOutputs(opens: Opens, known: set<Bytes32>, height: nat, spendsOurs: bool, outputs: seq<Output>, r: Receipts): Receipts {
    if outputs == [] then r
    else
      var o := outputs[|outputs| - 1];
      var before := EnterOutputs(opens, known, height, spendsOurs, outputs[..|outputs| - 1], r);
      if o.commit !in known && opens(o) && (o.coinbase || !spendsOurs) && (o.commit, o.coinbase) !in before
      then before[(o.commit, o.coinbase) := height] else before
  }

  function NewReceipts(opens: Opens, known: set<Bytes32>, blocks: seq<Block>): Receipts {
    if blocks == [] then map[]
    else
      var b := blocks[|blocks| - 1];
      EnterOutputs(opens, known, b.header.height, SpendsAny(b, known), b.body.outputs, NewReceipts(opens, known, blocks[..|blocks| - 1]))
  }

  /** `scan_blocks_inner`. */
  function ScanInner(opens: Opens, w: Wallet, blocks: seq<Block>, force: bool): Wallet {
    var spent := SpentIn(blocks);
    var created := CreatedIn(blocks);
    var all := MarkSpent(w.coins + Found(opens, w.coins.Keys, created), spent);
    var reconcile := force || CoversCanonicalHistory(w, blocks);
    var coins := if reconcile then Reconcile(all, Commits(created), spent) else all;
    var kept := if reconcile then map k | k in w.receipts && !(k.0 in all && k.0 !in Commits(created)) :: w.receipts[k] else w.receipts;
    var start := if !force then ScanFrom(w) else if blocks != [] then blocks[0].header.height else 0;
    var highest := Highest(start, blocks);
    var anchor := BlockAt(blocks, highest);
    w.(coins := coins,
       sends := ScanSends(blocks, reconcile, w.sends),
       receipts := NewReceipts(opens, w.coins.Keys, blocks) + kept,
       scannedTo := highest,
       tip := if anchor.Some? then Some(HashOf(anchor.value)) else w.tip)
  }

  /** `scan_blocks`. */
  function ScanBlocks(opens: Opens, w: Wallet, blocks: seq<Block>): Result<Wallet, ScanError> {
    var continuity := CheckContinuity(w, blocks);
    :- continuity;
    Success(ScanInner(opens, w, blocks, false))
  }

  // --------------------------------------------------------------- paging --

  /** `canonical_scan_request`: no page limit for the one canonical pass. */
  function ScanRequest(needsCanonical: bool, birth: nat, scanFrom: nat): (nat, Option<nat>) {
    if needsCanonical then (birth, None) else (scanFrom, Some(SCAN_PAGE))
  }

  /** `blocks_from`: bodies below the prune horizon are gone. */
  function BlocksFrom(s: ChainState, start: nat, limit: Option<nat>): seq<Block> {
    if start < s.firstHeight || start - s.firstHeight > |s.blocks| then []
    else
      var rest := s.blocks[start - s.firstHeight..];
      if limit.Some? && limit.value < |rest| then rest[..limit.value] else rest
  }

  function TipHeight(s: ChainState): nat {
    if s.headers == [] then 0 else s.headers[|s.headers| - 1].height
  }

  /** The wallet after a page, how many outputs the page found, and whether there is more. */
  datatype PageResult = Finished(done: Wallet, found: nat) | More(next: Wallet, found: nat)

  /** One turn of the paging loop against the chain as it is now. */
  function OnePage(opens: Opens, w: Wallet, s: ChainState): Result<PageResult, ScanError> {
    var (start, limit) := ScanRequest(NeedsCanonicalPass(w), w.birth, ScanFrom(w));
    :- Need(start <= TipHeight(s) || !HasScannedHistory(w), ScannedPastTip);
    :- Need(!(s.firstHeight > 0 && start < s.firstHeight), PrunedBelow);
    var page := BlocksFrom(s, start, limit);
    if page == [] then
      :- Need(start >= TipHeight(s), StoppedServing);
      Success(Finished(w, 0))
    else
      var next :- ScanBlocks(opens, w, page);
      var found := FoundCount(opens, w.coins.Keys, CreatedIn(page));
      if limit.None? || |page| != limit.value then Success(Finished(next, found))
      else
        :- Need(ScanFrom(next) > start, StuckPosition);
        Success(More(next, found))
  }

  // --------------------------------------------------- the paging loop --

  /** One past the last height whose body the node holds. */
  function EndOf(s: ChainState): nat {
    s.firstHeight + |s.blocks|
  }

  function Remaining(w: Wallet, s: ChainState): nat {
    if ScanFrom(w) < EndOf(s) then EndOf(s) - ScanFrom(w) else 0
  }

  /** Heights are indices above the prune horizon. */
  ghost predicate HeightsAreIndices(s: ChainState) {
    forall i :: 0 <= i < |s.blocks| ==> s.blocks[i].header.height == s.firstHeight + i
  }

  lemma {:induction false} HighestIsHighest(start: nat, blocks: seq<Block>)
    ensures Highest(start, blocks) >= start
    ensures forall i :: 0 <= i < |blocks| ==> Highest(start, blocks) >= blocks[i].header.height
  {
    if blocks != [] {
      HighestIsHighest(start, blocks[..|blocks| - 1]);
      assert forall i :: 0 <= i < |blocks| - 1 ==> blocks[i] == blocks[..|blocks| - 1][i];
    }
  }

  /** Heights are indices above the prune horizon, headers reach as far as bodies. */
  ghost predicate Serves(s: ChainState) {
    && HeightsAreIndices(s)
    && s.blocks != [] && TipHeight(s) == EndOf(s) - 1
  }

  lemma {:induction false} PageHeights(s: ChainState, start: nat, limit: Option<nat>)
    requires HeightsAreIndices(s)
    ensures var page := BlocksFrom(s, start, limit); forall i :: 0 <= i < |page| ==> page[i].header.height == start + i
  {
    if s.firstHeight <= start <= s.firstHeight + |s.blocks| {
      var rest := s.blocks[start - s.firstHeight..];
      assert forall i :: 0 <= i < |rest| ==> rest[i] == s.blocks[start - s.firstHeight + i];
    }
  }

  lemma {:induction false} PageReaches(opens: Opens, w: Wallet, page: seq<Block>)
    requires ScanBlocks(opens, w, page).Success?
    ensures ScanFrom(ScanBlocks(opens, w, page).value) >= Highest(ScanFrom(w), page)
  {
    hide SpentIn, CreatedIn, Found, MarkSpent, Reconcile, CoversCanonicalHistory, CheckContinuity, BlockAt, ScanSends, NewReceipts, Highest;
  }

  /** A full page reaches past its first block, so the position moves: the loop never gives up as stuck. */
  lemma {:induction false} NeverStuck(opens: Opens, w: Wallet, s: ChainState)
    requires HeightsAreIndices(s)
    ensures OnePage(opens, w, s) != Failure(StuckPosition)
  {
    hide ScanBlocks, BlocksFrom, HasScannedHistory, FoundCount, CreatedIn, TipHeight, Highest, ScanFrom, HeightsAreIndices;
    var (start, limit) := ScanRequest(NeedsCanonicalPass(w), w.birth, ScanFrom(w));
    var page := BlocksFrom(s, start, limit);
    NotStuckOtherwise(opens, w, page);
    if ScanBlocks(opens, w, page).Success? && limit.Some? && |page| == SCAN_PAGE {
      PageHeights(s, start, limit);
      HighestIsHighest(ScanFrom(w), page);
      PageReaches(opens, w, page);
      assert page[SCAN_PAGE - 1].header.height == start + SCAN_PAGE - 1;
    }
  }

  lemma {:induction false} NotStuckOtherwise(opens: Opens, w: Wallet, page: seq<Block>)
    ensures ScanBlocks(opens, w, page) != Failure(StuckPosition)
  {
    hide ScanInner, CoversCanonicalHistory, HasScannedHistory;
  }

  /** On a chain that satisfies its invariant heights are indices, and it serves whatever it still holds. */
  lemma {:induction false} IndicesOfInv(cfg: Config, s: ChainState, x: seq<Step>)
    requires ChainInvariant.Inv(cfg, s, x)
    ensures HeightsAreIndices(s) && (s.blocks != [] ==> Serves(s))
  {
    hide ChainInvariant.History, ChainInvariant.TailUndos, ChainInvariant.LedgerAt;
    var f := s.firstHeight;
    forall i | 0 <= i < |s.blocks| ensures s.blocks[i].header.height == f + i {
      BlockHeight(cfg, x, f + i);
      assert s.blocks[i] == x[f..][i].block;
    }
    if s.blocks != [] {
      BlockHeight(cfg, x, |x| - 1);
    }
  }

  lemma {:induction false} BlockHeight(cfg: Config, x: seq<Step>, i: nat)
    requires ChainInvariant.History(cfg, x) && i < |x|
    ensures x[i].block.header.height == i
  {
    hide ChainInvariant.History;
    ChainInvariant.HistoryLinks(cfg, x, i);
  }

  /** A page that asks for another has moved the position. */
  lemma {:induction false} MoreMoves(opens: Opens, w: Wallet, s: ChainState)
    requires OnePage(opens, w, s).Success? && OnePage(opens, w, s).value.More?
    ensures Remaining(OnePage(opens, w, s).value.next, s) < Remaining(w, s)
  {
    hide ScanBlocks, HasScannedHistory, FoundCount;
  }

  /** Pages of one chain until it runs out. */
  function AllPages(opens: Opens, w: Wallet, s: ChainState): Result<Wallet, ScanError>
    decreases Remaining(w, s)
  {
    var r :- OnePage(opens, w, s);
    match r
    case Finished(done, _) => Success(done)
    case More(next, _) =>
      MoreMoves(opens, w, s);
      AllPages(opens, next, s)
  }

  const MAX_U32: nat := 0xffff_ffff

  /** `saturating_add` on 32 bits. */
  function AddFound(a: nat, b: nat): nat {
    if a + b > MAX_U32 then MAX_U32 else a + b
  }

  /**
    Pages p, p + 1, … up to `max`, or until the chain runs out, each read from the chain as it then is: the wallet they
    leave, with what was found and whether there is more, or the error met.
   */
  function SomePages(opens: Opens, w: Wallet, view: nat -> ChainState, p: nat, max: nat, found: nat)
    : (Wallet, Result<(nat, bool), ScanError>)
    decreases if p < max then max - p else 0
  {
    match OnePage(opens, w, view(p))
    case Failure(e) => (w, Failure(e))
    case Success(Finished(done, n)) => (done, Success((AddFound(found, n), false)))
    case Success(More(next, n)) =>
      if p + 1 >= max then (next, Success((AddFound(found, n), true))) else SomePages(opens, next, view, p + 1, max, AddFound(found, n))
  }

  /** Without a bound on pages the loop ends too, when the chain stands still, and leaves what all pages leave. */
  lemma {:induction false} EnoughPages(opens: Opens, w: Wallet, s: ChainState, p: nat, max: nat, found: nat)
    requires p + Remaining(w, s) < max
    ensures var (after, outcome) := SomePages(opens, w, _ => s, p, max, found);
            match AllPages(opens, w, s)
            case Success(done) => after == done && outcome.Success? && !outcome.value.1
            case Failure(e) => outcome == Failure(e)
    decreases Remaining(w, s)
  {
    hide OnePage;
    var r := OnePage(opens, w, s);
    if r.Success? && r.value.More? {
      MoreMoves(opens, w, s);
      EnoughPages(opens, r.value.next, s, p + 1, max, AddFound(found, r.value.found));
    }
  }

  /** `scan_without_relay`: the loop, on the wallet's own state; each turn reads the chain as it is by then. */
  class WalletState {
    var wallet: Wallet

    constructor (w: Wallet)
      ensures wallet == w
    {
      wallet := w;
    }

    method ScanWithoutRelay(opens: Opens, view: nat -> ChainState, maxPages: nat) returns (r: Result<(nat, bool), ScanError>)
      modifies this
      ensures (wallet, r) == SomePages(opens, old(wallet), view, 0, maxPages, 0)
    {
      hide OnePage;
      var found, pages := 0, 0;
      while true
        invariant SomePages(opens, old(wallet), view, 0, maxPages, 0) == SomePages(opens, wallet, view, pages, maxPages, found)
        invariant pages > 0 ==> pages < maxPages
        decreases if pages < maxPages then maxPages - pages else 0
      {
        var page := OnePage(opens, wallet, view(pages));
        if page.Failure? {
          return Failure(page.error);
        }
        match page.value {
          case Finished(done, n) =>
            wallet := done;
            return Success((AddFound(found, n), false));
          case More(next, n) =>
            wallet := next;
            found := AddFound(found, n);
            pages := pages + 1;
            if pages >= maxPages {
              return Success((found, true));
            }
        }
      }
    }
  }
}
