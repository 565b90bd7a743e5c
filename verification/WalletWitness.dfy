/**
  Chains on which two pages and a single pass leave different wallets: a few blocks more than a page, linked from genesis,
  every block replayed as own-disk replay takes it.
 */
module WalletWitness {
  import opened Wrappers
  import opened Words
  import opened Curve
  import opened Sorting
  import opened Utxos
  import opened Transactions
  import opened Ledgers
  import LedgerProofs
  import opened Blocks
  import opened Consensus
  import opened StepProofs
  import opened ChainInvariant
  import opened FastReorg
  import opened Agreement
  import opened ChainProperties
  import opened WalletScan
  import opened WalletPages
  import Emission

  // ------------------------------------------------------------ the bodies --

  /** What the blocks do besides paying their coinbase: which pay an output, and which consume the one that an earlier block made. */
  datatype Plan = Plan(pays: map<nat, Output>, spends: map<nat, nat>)

  /** The coinbase output of block i, of value zero. */
  function Filler(i: nat): Output {
    var zeros := Encoding(Identity());
    Output(true, Encoding(Point(0, i % L)), zeros, zeros, Mainnet, 0, Signature(zeros, SpendMessage(zeros), 0))
  }

  function InputOf(c: Bytes32): Input {
    Input(c, Signature(Encoding(Identity()), SpendMessage(c), 0), None, None)
  }

  /** The output of block k that a later block may consume. */
  function Made(p: Plan, k: nat): Bytes32 {
    if k in p.pays then p.pays[k].commit else Filler(k).commit
  }

  function SpentBy(p: Plan, i: nat): seq<Input> {
    if i in p.spends then [InputOf(Made(p, p.spends[i]))] else []
  }

  function PaidBy(p: Plan, i: nat): seq<Output> {
    if i in p.pays then [Filler(i), p.pays[i]] else [Filler(i)]
  }

  function BodyAt(p: Plan, i: nat): Body {
    Body(SpentBy(p, i), PaidBy(p, i), [BuildKernel(Coinbase, 0, 0, i, 1, 0)], None, None)
  }

  /** What is consumed was made before, and is consumed by nobody in between. */
  ghost predicate InOrder(p: Plan) {
    forall j :: j in p.spends ==>
      p.spends[j] < j && forall n :: n in p.spends && p.spends[j] < n < j ==> Made(p, p.spends[n]) != Made(p, p.spends[j])
  }

  /** Blocks from height `base` on with these bodies. */
  ghost predicate Follows(p: Plan, base: nat, all: seq<Block>) {
    forall i :: 0 <= i < |all| ==> all[i].header.height == base + i && all[i].body == BodyAt(p, base + i)
  }

  lemma {:induction false} ConsumesAt(p: Plan, base: nat, all: seq<Block>, i: nat, x: Bytes32)
    requires Follows(p, base, all) && i < |all|
    ensures Consumes(all[i], x) <==> base + i in p.spends && Made(p, p.spends[base + i]) == x
  {
    var inputs := all[i].body.inputs;
    assert inputs == SpentBy(p, base + i);
    if inputs != [] {
      assert inputs[0].commit == Made(p, p.spends[base + i]);
    }
  }

  lemma {:induction false} SpentWithin(p: Plan, base: nat, all: seq<Block>, lo: nat, hi: nat, x: Bytes32)
    requires Follows(p, base, all) && lo <= hi <= |all|
    ensures x in SpentIn(all[lo..hi]) <==> exists i :: i in p.spends && base + lo <= i < base + hi && Made(p, p.spends[i]) == x
  {
    hide SpentIn, Consumes, Made;
    SpentHere(all[lo..hi], x);
    forall i | 0 <= i < hi - lo
      ensures Consumes(all[lo..hi][i], x) <==> base + lo + i in p.spends && Made(p, p.spends[base + lo + i]) == x
    {
      ConsumesAt(p, base, all, lo + i, x);
    }
    forall i | i in p.spends && base + lo <= i < base + hi && Made(p, p.spends[i]) == x ensures SomeConsumes(all[lo..hi], x) {
      assert Consumes(all[lo..hi][i - base - lo], x);
    }
  }

  // ----------------------------------------------- payments and receipts --

  const LAST: nat := SCAN_PAGE

  /** Both carry value, and no coinbase of the chain is the wallet's. */
  ghost predicate Payments(opens: Opens, coin: Output, change: Output) {
    && coin.commit.Encoding? && coin.commit.point.g > 0 && change.commit.Encoding? && change.commit.point.g > 0
    && coin.commit != change.commit && !change.coinbase
    && opens(coin) && opens(change) && forall i: nat :: !opens(Filler(i))
  }

  /** The second block consumes the first coinbase, the third pays the coin, the last consumes it and pays the change. */
  function ChangePlan(coin: Output, change: Output): Plan {
    Plan(map[2 := coin, LAST := change], map[1 := 0, LAST := 2])
  }

  /** A wallet that has seen the first block and waits for a payment of its coinbase and the coin. */
  function Waiting(coin: Output, first: Block): Wallet {
    Wallet(0, 0, Some(HashOf(first)), map[], [Send(0, {Filler(0).commit, coin.commit}, None, 0, false, false, false)], map[], {}, map[])
  }

  lemma {:induction false} PaidBetween(opens: Opens, coin: Output, change: Output, all: seq<Block>, lo: nat, hi: nat)
    requires Payments(opens, coin, change) && Follows(ChangePlan(coin, change), 0, all) && lo <= hi <= |all| == LAST + 1
    ensures {Filler(0).commit, coin.commit} <= SpentIn(all[lo..hi]) <==> lo <= 1 && hi == LAST + 1
  {
    hide SpentIn, Follows;
    var p := ChangePlan(coin, change);
    SpentWithin(p, 0, all, lo, hi, Filler(0).commit);
    SpentWithin(p, 0, all, lo, hi, coin.commit);
    assert Made(p, 0) == Filler(0).commit && Made(p, 2) == coin.commit && Made(p, p.spends[1]) == Made(p, 0) && Made(p, p.spends[LAST]) == Made(p, 2);
    assert Filler(0).commit in {Filler(0).commit, coin.commit} && coin.commit in {Filler(0).commit, coin.commit};
  }

  /** The payment completes in the last block, and the page that reads it never saw the first input consumed. */
  lemma {:induction false} PaymentSplits(opens: Opens, coin: Output, change: Output, all: seq<Block>)
    requires Payments(opens, coin, change) && Follows(ChangePlan(coin, change), 0, all) && |all| == LAST + 1
    ensures !CompletesInOnePage(all, {Filler(0).commit, coin.commit})
  {
    hide Follows, SpentIn, SettledBy, PageStart, Filler, Payments, ChangePlan;
    var inputs := {Filler(0).commit, coin.commit};
    SettledByIs(all, inputs);
    assert all[0..|all|] == all && forall h :: 0 <= h <= |all| ==> all[0..h] == all[..h];
    PaidBetween(opens, coin, change, all, 0, LAST + 1);
    assert coin.commit in inputs;
    var m := SettledBy(all, inputs).value;
    PaidBetween(opens, coin, change, all, 0, m + 1);
    PageStartOf(SCAN_PAGE - 1, LAST);
    PaidBetween(opens, coin, change, all, PageStart(LAST), LAST + 1);
  }

  /** The change comes too late for the page that reads it: that page knows the coin, a single pass does not. */
  lemma {:induction false} ChangeIsLate(opens: Opens, coin: Output, change: Output, all: seq<Block>)
    requires Payments(opens, coin, change) && Follows(ChangePlan(coin, change), 0, all) && |all| == LAST + 1
    ensures LateReceipt(opens, {}, map[], all, LAST, (change.commit, false))
  {
    hide CreatedIn, Filler, Payments;
    var at := PageStart(LAST);
    var key := (change.commit, false);
    PaysThere(opens, coin, change, all);
    CreatedHere(opens, all, 0, 2, at + 1, (coin.commit, coin.coinbase));
    assert all[0..at + 1] == all[..at + 1];
    assert coin.commit in KnownAt(opens, {}, all, at);
    assert SpendsAny(all[LAST], KnownAt(opens, {}, all, at)) by {
      assert all[LAST].body.inputs[0].commit == coin.commit;
    }
    forall i | 0 <= i < LAST ensures !Enters(opens, {}, all[i], key) {
      NoChangeYet(opens, coin, change, all, i);
    }
  }

  lemma {:induction false} PaysThere(opens: Opens, coin: Output, change: Output, all: seq<Block>)
    requires Payments(opens, coin, change) && Follows(ChangePlan(coin, change), 0, all) && |all| == LAST + 1
    ensures Outputs(opens, all[2].body.outputs, (coin.commit, coin.coinbase)) && Outputs(opens, all[LAST].body.outputs, (change.commit, false))
  {
    hide Filler;
    assert all[LAST].body.outputs[1] == change && all[2].body.outputs[1] == coin;
  }

  lemma {:induction false} NoChangeYet(opens: Opens, coin: Output, change: Output, all: seq<Block>, i: nat)
    requires Payments(opens, coin, change) && Follows(ChangePlan(coin, change), 0, all) && i < LAST < |all|
    ensures !Outputs(opens, all[i].body.outputs, (change.commit, false))
  {
    assert all[i].body.outputs == if i == 2 then [Filler(2), coin] else [Filler(i)];
  }

  lemma {:induction false} WaitingFits(coin: Output, s: ChainState)
    requires Serves(s) && s.firstHeight == 0
    ensures var w := Waiting(coin, s.blocks[0]);
            ScanFrom(w) == 0 && EndOf(s) == |s.blocks| && s.blocks == BlocksFrom(s, 0, None) && FitsChain(w, s.blocks[0])
  {
    hide CreatedIn, SpentIn;
  }

  /** On such a slice, served by a node, paging and a single pass record different payments and different receipts. */
  lemma {:induction false} PagesDiffer(opens: Opens, coin: Output, change: Output, s: ChainState)
    requires Payments(opens, coin, change) && Serves(s) && s.firstHeight == 0
    requires Follows(ChangePlan(coin, change), 0, s.blocks) && |s.blocks| == LAST + 1
    ensures var w, all := Waiting(coin, s.blocks[0]), s.blocks;
            && AllPages(opens, w, s).Success? && ScanBlocks(opens, w, all).Success?
            && AllPages(opens, w, s).value.sends != ScanBlocks(opens, w, all).value.sends
            && AllPages(opens, w, s).value.receipts != ScanBlocks(opens, w, all).value.receipts
  {
    hide Follows, ChangePlan, Payments, AllPages, ScanBlocks, Serves, FitsChain, LateReceipt, CompletesInOnePage, BlocksFrom,
         WalletScan.TipHeight, EndOf, Filler, CoinAlike;
    var all := s.blocks;
    var w := Waiting(coin, all[0]);
    WaitingFits(coin, s);
    PaymentSplits(opens, coin, change, all);
    ChangeIsLate(opens, coin, change, all);
    PagedIsSinglePass(opens, w, s, all);
    assert w.coins.Keys == {} && w.sends[0].inputs == {Filler(0).commit, coin.commit} && Pending(w.sends[0]);
    assert AllPages(opens, w, s).value.sends[0] != ScanBlocks(opens, w, all).value.sends[0];
    assert !NeverLate(opens, {}, map[], all, (change.commit, false));
    assert !SameReceipt(AllPages(opens, w, s).value.receipts, ScanBlocks(opens, w, all).value.receipts, (change.commit, false));
  }

  // ------------------------------------------------------------ coins --

  const AGAIN: nat := SCAN_PAGE + 3

  /** The wallet opens the coin, which carries value, and no coinbase of the chain. */
  ghost predicate Payment(opens: Opens, coin: Output) {
    coin.commit.Encoding? && coin.commit.point.g > 0 && opens(coin) && forall i: nat :: !opens(Filler(i))
  }

  /** The third block pays the coin, the fourth consumes it, the last pays it again. */
  function AgainPlan(coin: Output): Plan {
    Plan(map[2 := coin, AGAIN := coin], map[3 := 2])
  }

  /** A new wallet that reads the chain from this height on. */
  function Restored(birth: nat): Wallet {
    Wallet(birth, 0, None, map[], [], map[], {}, map[])
  }

  /** The entry that block i makes for the coin. */
  function PaidAt(coin: Output, i: nat, lo: nat, hi: nat): seq<Coin> {
    if lo <= i < hi then [Coin(i, coin.coinbase, false)] else []
  }

  lemma {:induction false} PaidInOne(opens: Opens, coin: Output, b: Block, i: nat)
    requires Payment(opens, coin) && b.header.height == i && b.body == BodyAt(AgainPlan(coin), i)
    ensures PaidIn(opens, [b], coin.commit) == if i == 2 || i == AGAIN then [Coin(i, coin.coinbase, false)] else []
  {
    OneBlockCreates(b);
    hide CreatedIn, Filler;
    var filler, paid: seq<(nat, Output)> := [(i, Filler(i))], [(i, coin)];
    assert filler[..0] == [] && paid[..0] == [];
    assert Opened(opens, [], coin.commit) == [];
    OpenedConcat(opens, filler, paid, coin.commit);
    assert CreatedBy(i, b.body.outputs) == if i == 2 || i == AGAIN then filler + paid else filler;
  }

  /** What a slice makes for the coin. */
  lemma {:induction false} PaidWithin(opens: Opens, coin: Output, base: nat, all: seq<Block>, lo: nat, hi: nat)
    requires Payment(opens, coin) && Follows(AgainPlan(coin), base, all) && lo <= hi <= |all|
    ensures PaidIn(opens, all[lo..hi], coin.commit) == PaidAt(coin, 2, base + lo, base + hi) + PaidAt(coin, AGAIN, base + lo, base + hi)
    decreases hi
  {
    hide PaidIn, Payment, AgainPlan, BodyAt;
    if lo == hi {
      NothingPaid(opens, coin);
    } else {
      PaidWithin(opens, coin, base, all, lo, hi - 1);
      assert all[lo..hi] == all[lo..hi - 1] + [all[hi - 1]];
      PaidConcat(opens, all[lo..hi - 1], [all[hi - 1]], coin.commit);
      PaidInOne(opens, coin, all[hi - 1], base + hi - 1);
    }
  }

  lemma {:induction false} NothingPaid(opens: Opens, coin: Output)
    ensures PaidIn(opens, [], coin.commit) == []
  {
  }

  lemma {:induction false} SpentAgain(coin: Output, base: nat, all: seq<Block>, lo: nat, hi: nat)
    requires Follows(AgainPlan(coin), base, all) && lo <= hi <= |all|
    ensures coin.commit in SpentIn(all[lo..hi]) <==> base + lo <= 3 < base + hi
  {
    hide SpentIn, Follows;
    var p := AgainPlan(coin);
    SpentWithin(p, base, all, lo, hi, coin.commit);
    assert Made(p, p.spends[3]) == coin.commit;
  }

  /** Which block of the slice pays the coin first. */
  lemma {:induction false} FirstHere(opens: Opens, coin: Output, base: nat, all: seq<Block>)
    requires Payment(opens, coin) && Follows(AgainPlan(coin), base, all) && base <= 3 && base + |all| == AGAIN + 1
    ensures FirstPaid(opens, all, coin.commit, if base <= 2 then 2 - base else AGAIN - base)
  {
    hide OpenedIn, PaidIn, Payment, Follows;
    var m := if base <= 2 then 2 - base else AGAIN - base;
    assert all[0..m] == all[..m] && all[0..m + 1] == all[..m + 1];
    PaidWithin(opens, coin, base, all, 0, m);
    PaidWithin(opens, coin, base, all, 0, m + 1);
    OpenedIsPaid(opens, all[..m], coin.commit);
    OpenedIsPaid(opens, all[..m + 1], coin.commit);
  }

  lemma {:induction false} RestoredFits(first: Block)
    ensures var w := Restored(first.header.height); ScanFrom(w) == first.header.height && FitsChain(w, first) && w.coins == map[]
  {
    hide CreatedIn, SpentIn, Commits;
  }

  lemma {:induction false} FollowsFrom(p: Plan, all: seq<Block>, base: nat)
    requires Follows(p, 0, all) && base <= |all|
    ensures Follows(p, base, all[base..])
  {
    hide BodyAt;
  }

  /** The two scans of a wallet new at block `base`. */
  lemma {:induction false} BothScans(opens: Opens, s: ChainState, base: nat)
    requires Serves(s) && s.firstHeight == 0 && base < |s.blocks| && s.blocks[base].header.height == base
    ensures var w, all := Restored(base), s.blocks[base..];
            && w.coins == map[]
            && AllPages(opens, w, s).Success? && ScanBlocks(opens, w, all).Success?
            && PagedCoins(opens, w, all, |all|, AllPages(opens, w, s).value.coins)
            && IsPage(opens, w.coins, Canonical(w), all, ScanBlocks(opens, w, all).value.coins)
  {
    hide AllPages, ScanBlocks, Serves, FitsChain, PagedCoins, IsPage, Restored, Canonical, WalletScan.TipHeight, ScanFrom;
    var w, all := Restored(base), s.blocks[base..];
    RestoredFits(s.blocks[base]);
    AllPagesAre(opens, w, s, all);
    assert Consecutive(all) by { PageFor(w, s, all, 0); }
    WholePass(opens, w, all);
  }

  /** The slice's own entries of the coin, over the page that pays it first and over all of it. */
  lemma {:induction false} EntriesHere(opens: Opens, coin: Output, base: nat, all: seq<Block>, m: nat)
    requires Payment(opens, coin) && Follows(AgainPlan(coin), base, all) && base <= 3 && base + |all| == AGAIN + 1
    requires m == if base <= 2 then 2 - base else AGAIN - base
    ensures PageStart(m) <= m < |all|
    ensures Marked(PaidIn(opens, all, coin.commit), coin.commit in SpentIn(all))
            == (if base <= 2 then [Coin(2, coin.coinbase, true)] else []) + [Coin(AGAIN, coin.coinbase, true)]
    ensures NewEntries(opens, all, coin.commit, PageStart(m), |all|)
            == if base <= 2 then [Coin(2, coin.coinbase, true)] else [Coin(AGAIN, coin.coinbase, false)]
  {
    hide AgainPlan, Payment, SpentIn, PaidIn, Follows, PageStart;
    var p := PageStart(m);
    PageStartOf(if base <= 2 then 0 else SCAN_PAGE - 1, m);
    PageReads(all, m);
    assert all[0..|all|] == all;
    PaidWithin(opens, coin, base, all, 0, |all|);
    PaidWithin(opens, coin, base, all, p, PageStop(all, p));
    SpentAgain(coin, base, all, 0, |all|);
    SpentAgain(coin, base, all, p, |all|);
  }

  /** What the two scans hold of the coin, for a wallet that reads from `base` on. */
  lemma {:induction false} CoinsDiffer(opens: Opens, coin: Output, s: ChainState, base: nat)
    requires Payment(opens, coin) && Serves(s) && s.firstHeight == 0 && base <= 3
    requires Follows(AgainPlan(coin), 0, s.blocks) && |s.blocks| == AGAIN + 1
    ensures var w, all := Restored(base), s.blocks[base..];
            && AllPages(opens, w, s).Success? && ScanBlocks(opens, w, all).Success?
            && EntriesOf(ScanBlocks(opens, w, all).value.coins, coin.commit)
               == (if base <= 2 then [Coin(2, coin.coinbase, true)] else []) + [Coin(AGAIN, coin.coinbase, true)]
            && EntriesOf(AllPages(opens, w, s).value.coins, coin.commit)
               == if base <= 2 then [Coin(2, coin.coinbase, true)] else [Coin(AGAIN, coin.coinbase, false)]
  {
    hide AgainPlan, Payment, AllPages, ScanBlocks, Serves, SpentIn, PaidIn, OpenedIn, Restored, Canonical, HeldAfter, FirstPaid, BodyAt, Marked,
         NewEntries, PageStart;
    var all := s.blocks[base..];
    FollowsFrom(AgainPlan(coin), s.blocks, base);
    BothScans(opens, s, base);
    FirstHere(opens, coin, base, all);
    var m := if base <= 2 then 2 - base else AGAIN - base;
    EntriesHere(opens, coin, base, all, m);
    FirstMeans(opens, all, coin.commit, m, |all|);
    assert all[..|all|] == all;
  }

  // ------------------------------------------------------------- the chain --

  lemma {:induction false} BodyIsUnbound(p: Plan, i: nat)
    ensures StripBinding(BodyAt(p, i)) == BodyAt(p, i)
    ensures BodyAt(p, i).kernelOffset == None
  {
    var b := BodyAt(p, i);
    assert !HasAnyBinding(b);
    StripRemovesBinding(b);
  }

  /** What the bodies need of the ledger before block i: what is already made and still to be consumed is there. */
  ghost predicate Ready(l: Ledger, p: Plan, i: nat) {
    && l.kernelSum.Encoding? && l.burned == 0
    && forall j :: j in p.spends && p.spends[j] < i <= j ==> Made(p, p.spends[j]) in l.utxos
  }

  lemma {:induction false} BodyTotals(p: Plan, i: nat)
    ensures var b := BodyAt(p, i);
            TotalFee(b.kernels) == 0 && CoinbaseKernels(b.kernels) == 1 && Sum(Excesses(b)).Some? && b.outputs != [] && b.kernels != []
  {
    var b := BodyAt(p, i);
    OneKernel(b.kernels[0]);
    assert Excesses(b) == [b.kernels[0].excess];
    SumOfOne(b.kernels[0].excess);
  }

  lemma {:induction false} BodySpends(l: Ledger, p: Plan, i: nat)
    requires InOrder(p) && Ready(l, p, i)
    ensures CheckSpends(BodyAt(p, i).inputs, {}, l.utxos).Pass?
  {
    hide Made;
    var inputs := BodyAt(p, i).inputs;
    assert inputs == SpentBy(p, i);
    if inputs != [] {
      assert inputs[1..] == [];
      assert CheckSpends([], {inputs[0].commit}, l.utxos).Pass?;
    }
  }

  /** The body replays, and the ledger is ready for the next. */
  lemma {:induction false} BodyReplays(l: Ledger, p: Plan, i: nat, subsidy: u64)
    requires InOrder(p) && Ready(l, p, i) && l.minted + subsidy <= MAX_SUPPLY_DARKS
    ensures CaptureUndo(l, BodyAt(p, i)).Success?
    ensures var next := ApplyStateOnly(l, BodyAt(p, i), i, subsidy); next.Success? && Ready(next.value, p, i + 1)
  {
    hide CheckSpends, TotalFee, CoinbaseKernels, Sum, InsertOutputs, InputCommits, ToSet, Filler, Excesses, Made, InOrder;
    var b := BodyAt(p, i);
    BodyIsUnbound(p, i);
    BodyTotals(p, i);
    BodySpends(l, p, i);
    CommitMints(l, b, i, subsidy);
    forall j | j in p.spends && p.spends[j] < i + 1 <= j ensures Made(p, p.spends[j]) in ApplyStateOnly(l, b, i, subsidy).value.utxos {
      BodyLeaves(l, p, i, subsidy, j);
    }
  }

  lemma {:induction false} BodyLeaves(l: Ledger, p: Plan, i: nat, subsidy: u64, j: nat)
    requires InOrder(p) && Ready(l, p, i) && ApplyStateOnly(l, BodyAt(p, i), i, subsidy).Success?
    requires j in p.spends && p.spends[j] <= i < j
    ensures Made(p, p.spends[j]) in ApplyStateOnly(l, BodyAt(p, i), i, subsidy).value.utxos
  {
    hide CheckSpends, TotalFee, CoinbaseKernels, Sum, InsertOutputs, InputCommits, ToSet, Filler, Excesses, DecodeOffset, NextKernelSum, NextSupply;
    var b := BodyAt(p, i);
    var c := Made(p, p.spends[j]);
    if p.spends[j] == i {
      LedgerProofs.Inserted(l.utxos - ToSet(InputCommits(b)), b.outputs, i);
      assert b.outputs[|b.outputs| - 1].commit == c && LedgerProofs.Creates(b.outputs, c);
    } else {
      assert i in p.spends ==> Made(p, p.spends[i]) != c;
      assert !LedgerProofs.Spends(b.inputs, c);
      LedgerProofs.Survives(l, b, i, subsidy, c);
    }
  }

  /** These bodies on any chain below the pins make one block after another. */
  lemma {:induction false} LinkedChain(cfg: Config, p: Plan, n: nat) returns (x: seq<Step>)
    requires InOrder(p) && forall h: nat :: h < n ==> CheckpointAt(cfg.checkpoints, h).None?
    ensures History(cfg, x) && |x| == n && Ready(LedgerAt(cfg, x, |x|), p, n)
    ensures forall i :: 0 <= i < n ==> x[i].block.body == BodyAt(p, i)
  {
    hide History, Ready, BodyAt, LedgerAt, Trust, CheckpointAt, InOrder, Emission.Minted, Emission.TheoreticalSum;
    if n == 0 {
      x := [];
      NoHistory(cfg);
      GenesisReady(cfg, p);
    } else {
      var y := LinkedChain(cfg, p, n - 1);
      var b := NextBlock(cfg, y, BodyAt(p, n - 1));
      NextIsTrusted(cfg, p, y, n - 1);
      var step := Trust(cfg, Compacts(y), LedgerAt(cfg, y, |y|), b).value;
      OneMore(cfg, OwnDisk, y, b);
      NextStores(cfg, OwnDisk, Compacts(y), LedgerAt(cfg, y, |y|), b);
      x := y + [step];
      EndsWith(cfg, x);
    }
  }

  lemma {:induction false} GenesisReady(cfg: Config, p: Plan)
    ensures Ready(LedgerAt(cfg, [], 0), p, 0)
  {
  }

  /** The header links to the tip; nothing else in it is looked at by own-disk replay. */
  ghost function NextBlock(cfg: Config, y: seq<Step>, body: Body): Block {
    var zeros := Encoding(Identity());
    Block(BlockHeader(PROTOCOL_VERSION, |y|, TipHash(cfg, Compacts(y)), UtxoRoot(map[]), zeros, UtxoRoot(map[]), 0, 1, 0, 0), body)
  }

  lemma {:induction false} NextIsTrusted(cfg: Config, p: Plan, y: seq<Step>, i: nat)
    requires InOrder(p) && History(cfg, y) && |y| == i && Ready(LedgerAt(cfg, y, |y|), p, i) && CheckpointAt(cfg.checkpoints, i).None?
    ensures var b := NextBlock(cfg, y, BodyAt(p, i));
            var r := Trust(cfg, Compacts(y), LedgerAt(cfg, y, |y|), b);
            && Normal(cfg, b) == b && r.Success? && Ready(r.value.ledger, p, i + 1) && r.value.block == b
  {
    hide History, Ready, BodyAt, LedgerAt, CaptureUndo, ApplyStateOnly, TipHash, StripBinding, InOrder, Emission.Minted, Emission.TheoreticalSum,
         Emission.Theoretical;
    var b := NextBlock(cfg, y, BodyAt(p, i));
    var l := LedgerAt(cfg, y, |y|);
    BodyIsUnbound(p, i);
    NextOfHistory(cfg, y);
    MintedFollowsSchedule(cfg, y, |y|);
    BodyReplays(l, p, i, Subsidy(l, i));
    TrustSteps(cfg, Compacts(y), l, b);
  }

  /** A node that keeps every body holds such a chain and serves it. */
  lemma {:induction false} PlannedNode(cfg: Config, p: Plan, n: nat) returns (s: ChainState, x: seq<Step>)
    requires InOrder(p) && 0 < n && forall h: nat :: h < n ==> CheckpointAt(cfg.checkpoints, h).None?
    ensures Inv(cfg, s, x) && Serves(s) && s.firstHeight == 0 && |s.blocks| == n && Follows(p, 0, s.blocks)
  {
    hide Inv, History, Serves, Ready, BodyAt, ArchiveOf, CheckpointAt, LedgerAt, InOrder;
    x := LinkedChain(cfg, p, n);
    s := ArchiveOf(cfg, x);
    ArchiveInv(cfg, x);
    IndicesOfInv(cfg, s, x);
    ArchiveBlocks(cfg, x);
    HeightsOf(s);
  }

  lemma {:induction false} ArchiveBlocks(cfg: Config, x: seq<Step>)
    ensures ArchiveOf(cfg, x).blocks == StepBlocks(x)
  {
    hide PushAll;
    PushAllFields(NewFair(cfg), x);
    assert [] + StepBlocks(x) == StepBlocks(x);
  }

  lemma {:induction false} HeightsOf(s: ChainState)
    requires HeightsAreIndices(s) && s.firstHeight == 0
    ensures forall i :: 0 <= i < |s.blocks| ==> s.blocks[i].header.height == i
  {
  }

  /**
    The failing input for payments and receipts.  On any network there is a chain, below the pins, that satisfies its
    invariant and on which paging and a single pass leave a wallet with different payments and different receipts: the
    payment is confirmed by the single pass only, and the single pass alone enters its change as money received.
   */
  lemma {:induction false} TwoPagesDiffer(cfg: Config, opens: Opens, coin: Output, change: Output) returns (s: ChainState, x: seq<Step>, w: Wallet)
    requires Payments(opens, coin, change) && forall h: nat :: h <= LAST ==> CheckpointAt(cfg.checkpoints, h).None?
    ensures Inv(cfg, s, x) && s.firstHeight == 0 && |s.blocks| == SCAN_PAGE + 1
    ensures AllPages(opens, w, s).Success? && ScanBlocks(opens, w, s.blocks).Success?
    ensures AllPages(opens, w, s).value.sends != ScanBlocks(opens, w, s.blocks).value.sends
    ensures AllPages(opens, w, s).value.receipts != ScanBlocks(opens, w, s.blocks).value.receipts
  {
    hide Inv, Serves, AllPages, ScanBlocks, CheckpointAt, Follows, Payments;
    ChangeInOrder(opens, coin, change);
    s, x := PlannedNode(cfg, ChangePlan(coin, change), LAST + 1);
    PagesDiffer(opens, coin, change, s);
    w := Waiting(coin, s.blocks[0]);
  }

  lemma {:induction false} ChangeInOrder(opens: Opens, coin: Output, change: Output)
    requires Payments(opens, coin, change)
    ensures InOrder(ChangePlan(coin, change))
  {
    var p := ChangePlan(coin, change);
    assert Made(p, 0) == Filler(0).commit && Made(p, 2) == coin.commit;
  }

  /**
    The failing input for coins.  On any network there is a chain, below the pins, that satisfies its invariant and pays a
    commitment, spends it and pays it again more than a page later.  A wallet new at genesis holds two entries of it after
    a single pass and one after paging; a wallet new at the block that spends it holds the second payment as spent after a
    single pass, and as spendable after paging.
   */
  lemma {:induction false} PaidAgainDiffers(cfg: Config, opens: Opens, coin: Output) returns (s: ChainState, x: seq<Step>)
    requires Payment(opens, coin) && forall h: nat :: h <= AGAIN ==> CheckpointAt(cfg.checkpoints, h).None?
    ensures Inv(cfg, s, x) && s.firstHeight == 0 && |s.blocks| == AGAIN + 1
    ensures AllPages(opens, Restored(0), s).Success? && ScanBlocks(opens, Restored(0), s.blocks).Success?
    ensures EntriesOf(AllPages(opens, Restored(0), s).value.coins, coin.commit) == [Coin(2, coin.coinbase, true)]
    ensures EntriesOf(ScanBlocks(opens, Restored(0), s.blocks).value.coins, coin.commit)
            == [Coin(2, coin.coinbase, true), Coin(AGAIN, coin.coinbase, true)]
    ensures AllPages(opens, Restored(3), s).Success? && ScanBlocks(opens, Restored(3), s.blocks[3..]).Success?
    ensures EntriesOf(AllPages(opens, Restored(3), s).value.coins, coin.commit) == [Coin(AGAIN, coin.coinbase, false)]
    ensures EntriesOf(ScanBlocks(opens, Restored(3), s.blocks[3..]).value.coins, coin.commit) == [Coin(AGAIN, coin.coinbase, true)]
  {
    hide Inv, Serves, AllPages, ScanBlocks, CheckpointAt, Follows, Payment, EntriesOf;
    AgainInOrder(coin);
    s, x := PlannedNode(cfg, AgainPlan(coin), AGAIN + 1);
    assert s.blocks[0..] == s.blocks;
    CoinsDiffer(opens, coin, s, 0);
    CoinsDiffer(opens, coin, s, 3);
  }

  lemma {:induction false} AgainInOrder(coin: Output)
    ensures InOrder(AgainPlan(coin))
  {
  }
}
