/**
  Pages against a single pass: what paging a chain that stands still leaves in the wallet, and when that is what
  reading the whole range at once would leave.
 */
module WalletPages {
  import opened Wrappers
  import opened Curve
  import opened Sorting
  import opened Transactions
  import opened Ledgers
  import opened Blocks
  import opened Consensus
  import opened WalletScan

  // ------------------------------------------------------ pages add up --

  lemma {:induction false} SpentConcat(a: seq<Block>, b: seq<Block>)
    ensures SpentIn(a + b) == SpentIn(a) + SpentIn(b)
    decreases |b|
  {
    if b == [] {
      assert a + b == a;
    } else {
      assert (a + b)[..|a + b| - 1] == a + b[..|b| - 1];
      SpentConcat(a, b[..|b| - 1]);
    }
  }

  lemma {:induction false} Assoc(a: seq<(nat, Output)>, b: seq<(nat, Output)>, c: seq<(nat, Output)>)
    ensures (a + b) + c == a + (b + c)
  {
  }

  lemma {:induction false} CreatedConcat(a: seq<Block>, b: seq<Block>)
    ensures CreatedIn(a + b) == CreatedIn(a) + CreatedIn(b)
    decreases |b|
  {
    if b == [] {
      assert a + b == a;
    } else {
      hide CreatedBy;
      var before, last := b[..|b| - 1], b[|b| - 1];
      assert (a + b)[..|a + b| - 1] == a + before;
      CreatedConcat(a, before);
      Assoc(CreatedIn(a), CreatedIn(before), CreatedBy(last.header.height, last.body.outputs));
    }
  }

  // ------------------------------------------------- the entries of a coin --

  /** The entries that a list of outputs makes for the commitment, for a wallet that does not know it yet. */
  function Opened(opens: Opens, created: seq<(nat, Output)>, c: Bytes32): seq<Coin> {
    if created == [] then []
    else
      var (height, o) := created[|created| - 1];
      Opened(opens, created[..|created| - 1], c) + if o.commit == c && opens(o) then [Coin(height, o.coinbase, false)] else []
  }

  lemma {:induction false} OpenedConcat(opens: Opens, a: seq<(nat, Output)>, b: seq<(nat, Output)>, c: Bytes32)
    ensures Opened(opens, a + b, c) == Opened(opens, a, c) + Opened(opens, b, c)
    decreases |b|
  {
    if b == [] {
      assert a + b == a;
    } else {
      var before := b[..|b| - 1];
      assert (a + b)[..|a + b| - 1] == a + before;
      OpenedConcat(opens, a, before, c);
    }
  }

  /** The coins found are the opened outputs not known before, entry by entry. */
  lemma {:induction false} FoundIs(opens: Opens, known: set<Bytes32>, created: seq<(nat, Output)>)
    ensures forall c :: c in Found(opens, known, created) <==> c !in known && Opened(opens, created, c) != []
    ensures forall c :: c !in known ==> EntriesOf(Found(opens, known, created), c) == Opened(opens, created, c)
  {
    if created != [] {
      FoundIs(opens, known, created[..|created| - 1]);
    }
  }

  /** What the blocks of a slice make for the commitment. */
  function PaidIn(opens: Opens, blocks: seq<Block>, c: Bytes32): seq<Coin> {
    Opened(opens, CreatedIn(blocks), c)
  }

  lemma {:induction false} PaidConcat(opens: Opens, a: seq<Block>, b: seq<Block>, c: Bytes32)
    ensures PaidIn(opens, a + b, c) == PaidIn(opens, a, c) + PaidIn(opens, b, c)
  {
    hide CreatedIn, Opened;
    CreatedConcat(a, b);
    OpenedConcat(opens, CreatedIn(a), CreatedIn(b), c);
  }

  lemma {:induction false} OpenedFresh(opens: Opens, created: seq<(nat, Output)>, c: Bytes32)
    ensures forall i :: 0 <= i < |Opened(opens, created, c)| ==> !Opened(opens, created, c)[i].spent
  {
    if created != [] {
      OpenedFresh(opens, created[..|created| - 1], c);
    }
  }

  /** A spend twice is a spend once. */
  lemma {:induction false} MarkedTwice(entries: seq<Coin>, a: bool, b: bool)
    ensures Marked(Marked(entries, a), b) == Marked(entries, a || b)
    ensures Marked(SetSpent(entries, a), b) == SetSpent(entries, a || b)
  {
  }

  /** Fresh entries show whether they are spent. */
  lemma {:induction false} MarkedShows(entries: seq<Coin>, a: bool, b: bool)
    requires entries != [] && forall i :: 0 <= i < |entries| ==> !entries[i].spent
    ensures Marked(entries, a) == Marked(entries, b) <==> a == b
  {
    assert Marked(entries, true)[0] != Marked(entries, false)[0];
  }

  lemma {:induction false} FreshAlike(entries: seq<Coin>, spent: bool)
    requires forall i :: 0 <= i < |entries| ==> !entries[i].spent
    ensures SetSpent(entries, spent) == Marked(entries, spent) && |Marked(entries, spent)| == |entries|
  {
  }

  // --------------------------------------------------- what a page does --

  /** What a scan of these blocks makes of entries held before; a canonical pass forgets old spent flags. */
  function HeldAfter(entries: seq<Coin>, canonical: bool, spent: bool): seq<Coin> {
    if canonical then SetSpent(entries, spent) else Marked(entries, spent)
  }

  /** r is what scanning these blocks makes of the coins. */
  ghost predicate IsPage(opens: Opens, coins: Coins, canonical: bool, blocks: seq<Block>, r: Coins) {
    && (forall c :: c in r <==> c in coins || c in OpenedIn(opens, blocks))
    && (forall c :: c in coins ==> r[c] == HeldAfter(coins[c], canonical, c in SpentIn(blocks)))
    && (forall c :: c in r && c !in coins ==> r[c] == Marked(PaidIn(opens, blocks, c), c in SpentIn(blocks)))
  }

  lemma {:induction false} OpenedIsPaid(opens: Opens, blocks: seq<Block>, c: Bytes32)
    ensures c in OpenedIn(opens, blocks) <==> PaidIn(opens, blocks, c) != []
  {
    OpenedSomewhere(opens, CreatedIn(blocks), c);
  }

  lemma {:induction false} OpenedSomewhere(opens: Opens, created: seq<(nat, Output)>, c: Bytes32)
    ensures Opened(opens, created, c) != [] <==> exists x :: x in created && opens(x.1) && x.1.commit == c
  {
    if created != [] {
      var before, last := created[..|created| - 1], created[|created| - 1];
      OpenedSomewhere(opens, before, c);
      assert created == before + [last];
    }
  }

  /** A page scan does that, canonical or not. */
  lemma {:induction false} PageCoins(opens: Opens, w: Wallet, blocks: seq<Block>)
    requires CoversCanonicalHistory(w, blocks) ==> w.coins.Keys <= Commits(CreatedIn(blocks))
    ensures IsPage(opens, w.coins, CoversCanonicalHistory(w, blocks), blocks, ScanInner(opens, w, blocks, false).coins)
  {
    hide CreatedIn, SpentIn, Found, Highest, BlockAt, Commits, CoversCanonicalHistory, Opened, OpenedIn, SetSpent, Marked;
    var created := CreatedIn(blocks);
    FoundIs(opens, w.coins.Keys, created);
    var found := Found(opens, w.coins.Keys, created);
    forall c ensures c in OpenedIn(opens, blocks) <==> Opened(opens, created, c) != [] {
      OpenedIsPaid(opens, blocks, c);
    }
    forall c | c in found ensures c in Commits(created) && SetSpent(found[c], c in SpentIn(blocks)) == Marked(found[c], c in SpentIn(blocks)) {
      OpenedIsCreated(opens, blocks);
      OpenedFresh(opens, created, c);
      FreshAlike(found[c], c in SpentIn(blocks));
    }
    forall c | c in w.coins
      ensures SetSpent(Marked(w.coins[c], c in SpentIn(blocks)), c in SpentIn(blocks)) == SetSpent(w.coins[c], c in SpentIn(blocks))
    {
      SetAfterMark(w.coins[c], c in SpentIn(blocks));
    }
    forall c | c in found
      ensures SetSpent(Marked(found[c], c in SpentIn(blocks)), c in SpentIn(blocks)) == SetSpent(found[c], c in SpentIn(blocks))
    {
      SetAfterMark(found[c], c in SpentIn(blocks));
    }
  }

  lemma {:induction false} SetAfterMark(entries: seq<Coin>, spent: bool)
    ensures SetSpent(Marked(entries, spent), spent) == SetSpent(entries, spent)
  {
  }

  // ------------------------------------------------ the coins, page by page --

  /** Block m is the first to pay the wallet under c. */
  ghost predicate FirstPaid(opens: Opens, all: seq<Block>, c: Bytes32, m: nat) {
    m < |all| && c in OpenedIn(opens, all[..m + 1]) && c !in OpenedIn(opens, all[..m])
  }

  /** The entries of c after the first k blocks, first paid on the page that starts at p: those of that page, spent by a block from there on. */
  function NewEntries(opens: Opens, all: seq<Block>, c: Bytes32, p: nat, k: nat): seq<Coin>
    requires p < |all| && p <= k <= |all|
  {
    Marked(PaidIn(opens, all[p..PageStop(all, p)], c), c in SpentIn(all[p..k]))
  }

  /** The coins that the pages up to block k leave. */
  ghost predicate PagedCoins(opens: Opens, w: Wallet, all: seq<Block>, k: nat, m: Coins)
    requires k <= |all|
  {
    && (forall c :: c in m <==> c in w.coins || c in OpenedIn(opens, all[..k]))
    && (forall c :: c in w.coins ==> m[c] == HeldAfter(w.coins[c], Canonical(w), c in SpentIn(all[..k])))
    && (forall c, j: nat :: c !in w.coins && j < k && FirstPaid(opens, all, c, j) ==>
          PageStart(j) <= j && c in m && m[c] == NewEntries(opens, all, c, PageStart(j), k))
  }

  lemma {:induction false} OpenedIsUnion(opens: Opens, a: seq<Block>, b: seq<Block>)
    ensures OpenedIn(opens, a + b) == OpenedIn(opens, a) + OpenedIn(opens, b)
  {
    hide CreatedIn;
    CreatedConcat(a, b);
    forall c ensures c in OpenedIn(opens, a + b) <==> c in OpenedIn(opens, a) || c in OpenedIn(opens, b) {
      if c in OpenedIn(opens, a) {
        var x :| x in CreatedIn(a) && opens(x.1) && x.1.commit == c;
        assert x in CreatedIn(a + b);
      }
      if c in OpenedIn(opens, b) {
        var x :| x in CreatedIn(b) && opens(x.1) && x.1.commit == c;
        assert x in CreatedIn(a + b);
      }
    }
  }

  lemma {:induction false} OpenedBetween(opens: Opens, all: seq<Block>, lo: nat, mid: nat, hi: nat)
    requires lo <= mid <= hi <= |all|
    ensures OpenedIn(opens, all[lo..hi]) == OpenedIn(opens, all[lo..mid]) + OpenedIn(opens, all[mid..hi])
    ensures SpentIn(all[lo..hi]) == SpentIn(all[lo..mid]) + SpentIn(all[mid..hi])
  {
    hide OpenedIn, SpentIn;
    assert all[lo..hi] == all[lo..mid] + all[mid..hi];
    OpenedIsUnion(opens, all[lo..mid], all[mid..hi]);
    SpentConcat(all[lo..mid], all[mid..hi]);
  }

  /** What is paid is paid first in some block, and only one. */
  lemma {:induction false} SomeFirst(opens: Opens, all: seq<Block>, c: Bytes32, k: nat) returns (m: nat)
    requires k <= |all| && c in OpenedIn(opens, all[..k])
    ensures m < k && FirstPaid(opens, all, c, m)
  {
    hide OpenedIn;
    if k == 0 || c !in OpenedIn(opens, all[..k - 1]) {
      NothingOpened(opens, all);
      m := k - 1;
    } else {
      m := SomeFirst(opens, all, c, k - 1);
    }
  }

  lemma {:induction false} NothingOpened(opens: Opens, all: seq<Block>)
    ensures OpenedIn(opens, all[..0]) == {}
  {
  }

  lemma {:induction false} OpenedGrows(opens: Opens, all: seq<Block>, a: nat, b: nat)
    requires a <= b <= |all|
    ensures OpenedIn(opens, all[..a]) <= OpenedIn(opens, all[..b])
  {
    hide OpenedIn, SpentIn;
    OpenedBetween(opens, all, 0, a, b);
    assert all[0..a] == all[..a] && all[0..b] == all[..b];
  }

  lemma {:induction false} OneFirst(opens: Opens, all: seq<Block>, c: Bytes32, m: nat, n: nat)
    requires FirstPaid(opens, all, c, m) && FirstPaid(opens, all, c, n)
    ensures m == n
  {
    hide OpenedIn;
    if m < n {
      OpenedGrows(opens, all, m + 1, n);
    } else if n < m {
      OpenedGrows(opens, all, n + 1, m);
    }
  }

  /** Paid first in block m: not in the first k blocks up to there. */
  lemma {:induction false} FirstMeans(opens: Opens, all: seq<Block>, c: Bytes32, m: nat, k: nat)
    requires FirstPaid(opens, all, c, m) && k <= |all|
    ensures c in OpenedIn(opens, all[..k]) <==> m < k
  {
    hide OpenedIn;
    if m < k {
      OpenedGrows(opens, all, m + 1, k);
    } else {
      OpenedGrows(opens, all, k, m);
    }
  }

  /** The first page. */
  lemma {:induction false} FirstCoinsPaged(opens: Opens, w: Wallet, all: seq<Block>, r: Coins)
    requires all != [] && IsPage(opens, w.coins, Canonical(w), all[..PageStop(all, 0)], r)
    ensures PagedCoins(opens, w, all, PageStop(all, 0), r)
  {
    hide OpenedIn, SpentIn, PaidIn, Marked, HeldAfter, Canonical;
    var k := PageStop(all, 0);
    assert all[0..k] == all[..k];
    forall c, j: nat | c !in w.coins && j < k && FirstPaid(opens, all, c, j)
      ensures PageStart(j) == 0 && c in r && r[c] == NewEntries(opens, all, c, 0, k)
    {
      FirstMeans(opens, all, c, j, k);
    }
  }

  /**
    A page that overlaps the one before in one block: entries known by then are kept, and marked when it spends them; a
    commitment first paid on this page gets this page's entries.
   */
  lemma {:induction false} NextPage(opens: Opens, w: Wallet, all: seq<Block>, k: nat, m: Coins, r: Coins)
    requires 2 <= k <= |all| && (k - 1) % (SCAN_PAGE - 1) == 0 && PagedCoins(opens, w, all, k, m)
    requires IsPage(opens, m, false, all[k - 1..PageStop(all, k - 1)], r)
    ensures PagedCoins(opens, w, all, PageStop(all, k - 1), r)
  {
    hide OpenedIn, SpentIn, PaidIn, Marked, SetSpent, Canonical, PageStart, NewEntries;
    var j := PageStop(all, k - 1);
    var b := all[k - 1..j];
    forall c ensures c in r <==> c in w.coins || c in OpenedIn(opens, all[..j]) {
      OpenedOverlap(opens, all, k, j);
    }
    forall c | c in w.coins ensures r[c] == HeldAfter(w.coins[c], Canonical(w), c in SpentIn(all[..j])) {
      OpenedOverlap(opens, all, k, j);
      MarkedTwice(w.coins[c], c in SpentIn(all[..k]), c in SpentIn(b));
    }
    forall c, i: nat | c !in w.coins && i < j && FirstPaid(opens, all, c, i)
      ensures PageStart(i) <= i && c in r && r[c] == NewEntries(opens, all, c, PageStart(i), j)
    {
      OpenedOverlap(opens, all, k, j);
      FirstMeans(opens, all, c, i, k);
      FirstMeans(opens, all, c, i, j);
      if i < k {
        StillMarked(opens, all, c, i, k, j, m[c]);
      } else {
        PageStartOf(k - 1, i);
        FreshOnPage(opens, all, c, k, j);
      }
    }
  }

  lemma {:induction false} FreshOnPage(opens: Opens, all: seq<Block>, c: Bytes32, k: nat, j: nat)
    requires 0 < k <= |all| && j == PageStop(all, k - 1)
    ensures NewEntries(opens, all, c, k - 1, j) == Marked(PaidIn(opens, all[k - 1..j], c), c in SpentIn(all[k - 1..j]))
  {
  }

  lemma {:induction false} StillMarked(opens: Opens, all: seq<Block>, c: Bytes32, i: nat, k: nat, j: nat, entries: seq<Coin>)
    requires 0 < k <= j <= |all| && i < k && PageStart(i) <= i && entries == NewEntries(opens, all, c, PageStart(i), k)
    ensures Marked(entries, c in SpentIn(all[k - 1..j])) == NewEntries(opens, all, c, PageStart(i), j)
  {
    hide OpenedIn, SpentIn, PaidIn, Marked, PageStart;
    var p := PageStart(i);
    OpenedBetween(opens, all, p, k - 1, k);
    OpenedBetween(opens, all, p, k - 1, j);
    OpenedBetween(opens, all, k - 1, k, j);
    MarkedTwice(PaidIn(opens, all[p..PageStop(all, p)], c), c in SpentIn(all[p..k]), c in SpentIn(all[k - 1..j]));
  }

  lemma {:induction false} OpenedOverlap(opens: Opens, all: seq<Block>, k: nat, j: nat)
    requires 0 < k <= j <= |all|
    ensures OpenedIn(opens, all[..j]) == OpenedIn(opens, all[..k]) + OpenedIn(opens, all[k - 1..j])
    ensures SpentIn(all[..j]) == SpentIn(all[..k]) + SpentIn(all[k - 1..j])
  {
    hide OpenedIn, SpentIn;
    assert all[0..k] == all[..k] && all[0..j] == all[..j];
    OpenedBetween(opens, all, 0, k - 1, j);
    OpenedBetween(opens, all, 0, k - 1, k);
    OpenedBetween(opens, all, k - 1, k, j);
  }

  /**
    Pages read the commitment c, first paid on the page that starts at p, as a single pass does: no later page pays under
    it again, and if the range spends it at all, it does so on this page or later.
   */
  ghost predicate ReadAlike(opens: Opens, all: seq<Block>, c: Bytes32, p: nat)
    requires p < |all|
  {
    && c !in OpenedIn(opens, all[PageStop(all, p)..])
    && (c in SpentIn(all[..p]) ==> c in SpentIn(all[p..]))
  }

  ghost predicate CoinAlike(opens: Opens, w: Wallet, all: seq<Block>, c: Bytes32) {
    c !in w.coins ==> forall j: nat :: FirstPaid(opens, all, c, j) ==> PageStart(j) <= j && ReadAlike(opens, all, c, PageStart(j))
  }

  /** The entries of a page against those of the whole range. */
  lemma {:induction false} EntriesAlike(opens: Opens, all: seq<Block>, c: Bytes32, m: nat)
    requires FirstPaid(opens, all, c, m)
    ensures PageStart(m) <= m
    ensures NewEntries(opens, all, c, PageStart(m), |all|) == Marked(PaidIn(opens, all, c), c in SpentIn(all))
            <==> ReadAlike(opens, all, c, PageStart(m))
  {
    hide OpenedIn, SpentIn, PaidIn, Marked, PageStart;
    PageReads(all, m);
    var p := PageStart(m);
    var stop := PageStop(all, p);
    var before, page, after := all[..p], all[p..stop], all[stop..];
    assert all[p..|all|] == all[p..] && all[0..|all|] == all && all[0..p] == all[..p];
    OpenedBetween(opens, all, 0, p, |all|);
    FirstMeans(opens, all, c, m, p);
    FirstMeans(opens, all, c, m, stop);
    OpenedIsPaid(opens, before, c);
    OpenedIsPaid(opens, page, c);
    OpenedIsPaid(opens, after, c);
    assert all == before + (page + after) && all[..stop] == before + page;
    OpenedIsUnion(opens, before, page);
    PaidConcat(opens, page, after, c);
    PaidConcat(opens, before, page + after, c);
    PaidFresh(opens, page, c);
    PaidFresh(opens, all, c);
    var mine, whole := PaidIn(opens, page, c), PaidIn(opens, all, c);
    assert whole == mine + PaidIn(opens, after, c);
    FreshAlike(mine, c in SpentIn(all[p..]));
    FreshAlike(whole, c in SpentIn(all));
    if PaidIn(opens, after, c) == [] {
      assert whole == mine;
      MarkedShows(mine, c in SpentIn(all[p..]), c in SpentIn(all));
    }
  }

  lemma {:induction false} PaidFresh(opens: Opens, blocks: seq<Block>, c: Bytes32)
    ensures forall i :: 0 <= i < |PaidIn(opens, blocks, c)| ==> !PaidIn(opens, blocks, c)[i].spent
  {
    hide CreatedIn;
    OpenedFresh(opens, CreatedIn(blocks), c);
  }

  lemma {:induction false} NeverPaid(opens: Opens, w: Wallet, all: seq<Block>, c: Bytes32)
    requires c !in OpenedIn(opens, all)
    ensures CoinAlike(opens, w, all, c)
  {
    hide OpenedIn, ReadAlike, PageStart;
    assert all[..|all|] == all;
    forall j: nat | FirstPaid(opens, all, c, j) ensures false {
      FirstMeans(opens, all, c, j, |all|);
    }
  }

  /** Pages and a single pass know the same commitments; they hold the same entries of one exactly when they read it alike. */
  lemma {:induction false} CoinsAlike(opens: Opens, w: Wallet, all: seq<Block>, paged: Coins, single: Coins)
    requires PagedCoins(opens, w, all, |all|, paged) && IsPage(opens, w.coins, Canonical(w), all, single)
    ensures paged.Keys == single.Keys
    ensures forall c :: c in single ==> (paged[c] == single[c] <==> CoinAlike(opens, w, all, c))
    ensures paged == single <==> AllCoinsAlike(opens, w, all)
  {
    hide OpenedIn, SpentIn, PaidIn, Marked, HeldAfter, Canonical, NewEntries, ReadAlike, FirstPaid, PageStart;
    assert all[..|all|] == all;
    forall c | c !in paged ensures CoinAlike(opens, w, all, c) {
      NeverPaid(opens, w, all, c);
    }
    forall c | c in paged ensures paged[c] == single[c] <==> CoinAlike(opens, w, all, c) {
      if c !in w.coins {
        var m := SomeFirst(opens, all, c, |all|);
        EntriesAlike(opens, all, c, m);
        forall j: nat | FirstPaid(opens, all, c, j) ensures j == m {
          OneFirst(opens, all, c, j, m);
        }
      }
    }
  }

  // ------------------------------------------------ paid once, spent later --

  /** Under every commitment new to it the wallet is paid once, and not after the range has spent it. */
  ghost predicate PaidOnce(opens: Opens, w: Wallet, all: seq<Block>) {
    forall c, m: nat :: c !in w.coins && FirstPaid(opens, all, c, m) ==> |PaidIn(opens, all, c)| == 1 && c !in SpentIn(all[..m])
  }

  /** Then all coins are read alike, whatever happens to the outputs of others. */
  lemma {:induction false} PaidOnceIsAlike(opens: Opens, w: Wallet, all: seq<Block>, c: Bytes32)
    requires PaidOnce(opens, w, all)
    ensures CoinAlike(opens, w, all, c)
  {
    hide OpenedIn, SpentIn, PaidIn, PageStart;
    if c !in w.coins {
      forall j: nat | FirstPaid(opens, all, c, j) ensures PageStart(j) <= j && ReadAlike(opens, all, c, PageStart(j)) {
        PageReads(all, j);
        PaidThere(opens, all, c, j);
        SpentBetween(all, 0, 0, PageStart(j), j);
        assert all[0..PageStart(j)] == all[..PageStart(j)] && all[0..j] == all[..j];
      }
    }
  }

  lemma {:induction false} PaidThere(opens: Opens, all: seq<Block>, c: Bytes32, m: nat)
    requires FirstPaid(opens, all, c, m) && |PaidIn(opens, all, c)| == 1
    ensures PageStart(m) <= m && c !in OpenedIn(opens, all[PageStop(all, PageStart(m))..])
  {
    hide OpenedIn, PaidIn, PageStart;
    PageReads(all, m);
    var stop := PageStop(all, PageStart(m));
    FirstMeans(opens, all, c, m, stop);
    OpenedIsPaid(opens, all[..stop], c);
    OpenedIsPaid(opens, all[stop..], c);
    PaidConcat(opens, all[..stop], all[stop..], c);
    assert all == all[..stop] + all[stop..];
  }

  // ------------------------------------------- pages against a single pass --

  /** The wallet's observations fit the chain it is about to scan, block `first` being the one it left off at. */
  ghost predicate FitsChain(w: Wallet, first: Block) {
    && !NeedsCanonicalPass(w) && first.header.height == ScanFrom(w)
    && (w.tip.Some? && w.scannedTo == ScanFrom(w) ==> w.tip.value == HashOf(first))
    && (forall c :: c in w.coins ==> NoneAbove(w.coins[c], ScanFrom(w)))
    && (Canonical(w) ==>
          && w.coins.Keys <= Commits(CreatedIn([first]))
          && forall i :: 0 <= i < |w.sends| && w.sends[i].height.Some? ==>
               w.sends[i].inputs != {} && w.sends[i].inputs <= SpentIn([first]))
  }

  ghost predicate Canonical(w: Wallet) {
    ScanFrom(w) == 0 || ScanFrom(w) == w.birth
  }

  /** Where scanning the first k of these blocks leaves the wallet: position and anchor. */
  ghost predicate At(w: Wallet, all: seq<Block>, k: nat, n: Wallet) {
    && 0 < k <= |all|
    && n == w.(coins := n.coins, sends := n.sends, receipts := n.receipts,
               scannedTo := all[k - 1].header.height, tip := Some(HashOf(all[k - 1])))
  }

  /** The wallet after the pages up to block k. */
  ghost predicate Progress(opens: Opens, w: Wallet, all: seq<Block>, k: nat, n: Wallet) {
    At(w, all, k, n) && PagedCoins(opens, w, all, k, n.coins)
  }

  ghost predicate Consecutive(all: seq<Block>) {
    forall i :: 0 <= i < |all| ==> all[i].header.height == all[0].header.height + i
  }

  lemma {:induction false} HighestOf(start: nat, page: seq<Block>)
    requires page != [] && Consecutive(page) && start <= page[0].header.height
    ensures Highest(start, page) == page[|page| - 1].header.height
    decreases |page|
  {
    if |page| > 1 {
      var before := page[..|page| - 1];
      assert forall i :: 0 <= i < |before| ==> before[i] == page[i];
      HighestOf(start, before);
    } else {
      assert page[..0] == [];
    }
  }

  lemma {:induction false} BlockAtLast(page: seq<Block>)
    requires page != [] && Consecutive(page)
    ensures BlockAt(page, page[|page| - 1].header.height) == Some(page[|page| - 1])
    decreases |page|
  {
    if |page| > 1 {
      var rest := page[1..];
      assert forall i :: 0 <= i < |rest| ==> rest[i] == page[i + 1];
      BlockAtLast(rest);
    }
  }

  /** Where a page leaves the position and the anchor. */
  lemma {:induction false} PageEnd(opens: Opens, w: Wallet, page: seq<Block>)
    requires page != [] && Consecutive(page) && ScanFrom(w) <= page[0].header.height
    ensures var last := page[|page| - 1];
            var n := ScanInner(opens, w, page, false);
            n == w.(coins := n.coins, sends := n.sends, receipts := n.receipts, scannedTo := last.header.height, tip := Some(HashOf(last)))
  {
    hide Highest, BlockAt, SpentIn, CreatedIn, Found, MarkSpent, Reconcile, CoversCanonicalHistory, ScanSends, NewReceipts;
    HighestOf(ScanFrom(w), page);
    BlockAtLast(page);
  }

  lemma {:induction false} CanonicalPage(w: Wallet, page: seq<Block>)
    requires page != [] && Consecutive(page) && FitsChain(w, page[0])
    ensures CoversCanonicalHistory(w, page) == Canonical(w)
  {
    assert Contiguous(page);
  }

  lemma {:induction false} FirstCoins(w: Wallet, page: seq<Block>)
    requires page != [] && Consecutive(page) && FitsChain(w, page[0])
    ensures Canonical(w) ==> w.coins.Keys <= Commits(CreatedIn(page))
  {
    hide CreatedIn, HasScannedHistory;
    assert page == [page[0]] + page[1..];
    CreatedConcat([page[0]], page[1..]);
    forall c | c in Commits(CreatedIn([page[0]])) ensures c in Commits(CreatedIn(page)) {
      var x :| x in CreatedIn([page[0]]) && x.1.commit == c;
      assert x in CreatedIn(page);
    }
  }

  lemma {:induction false} ContinuityHolds(w: Wallet, page: seq<Block>)
    requires page != [] && FitsChain(w, page[0])
    ensures CheckContinuity(w, page).Pass?
  {
    hide CoversCanonicalHistory, CreatedIn, Commits;
  }

  /** The first page of a scan, or the whole range at once. */
  lemma {:induction false} FirstPage(opens: Opens, w: Wallet, all: seq<Block>, k: nat)
    requires 0 < k <= |all| && Consecutive(all) && FitsChain(w, all[0])
    ensures ScanBlocks(opens, w, all[..k]).Success?
    ensures var next := ScanBlocks(opens, w, all[..k]).value;
            At(w, all, k, next) && IsPage(opens, w.coins, Canonical(w), all[..k], next.coins)
  {
    hide CreatedIn, SpentIn, FitsChain, CoversCanonicalHistory, IsPage, Canonical, CheckContinuity, ScanInner, Commits;
    var page := all[..k];
    assert page[0] == all[0] && Consecutive(page);
    ContinuityHolds(w, page);
    CanonicalPage(w, page);
    FirstCoins(w, page);
    PageCoins(opens, w, page);
    PositionOf(w, all[0]);
    PageEnd(opens, w, page);
  }

  lemma {:induction false} PositionOf(w: Wallet, first: Block)
    requires FitsChain(w, first)
    ensures ScanFrom(w) == first.header.height && !NeedsCanonicalPass(w)
  {
    hide CreatedIn, Commits;
  }

  /** A later page of a scan, overlapping the one before in its last block. */
  lemma {:induction false} LaterPage(opens: Opens, w: Wallet, all: seq<Block>, k: nat, n: Wallet)
    requires 2 <= k <= |all| && (k - 1) % (SCAN_PAGE - 1) == 0 && Consecutive(all) && FitsChain(w, all[0])
    requires Progress(opens, w, all, k, n)
    ensures var j := PageStop(all, k - 1);
            ScanBlocks(opens, n, all[k - 1..j]).Success? && Progress(opens, w, all, j, ScanBlocks(opens, n, all[k - 1..j]).value)
  {
    hide CreatedIn, SpentIn, IsPage, PagedCoins, Canonical, ScanInner, Commits, FitsChain;
    var b := all[k - 1..PageStop(all, k - 1)];
    PositionOf(w, all[0]);
    assert b[0] == all[k - 1] && Consecutive(b);
    assert !CoversCanonicalHistory(n, b) by {
      assert b[0].header.height > w.birth;
    }
    PageCoins(opens, n, b);
    NextPage(opens, w, all, k, n.coins, ScanInner(opens, n, b, false).coins);
    PageEnd(opens, n, b);
  }

  // ------------------------------------------------ payments over pages --

  /** Where the page that starts at `at` stops. */
  function PageStop(all: seq<Block>, at: nat): nat
    requires at < |all|
  {
    if at + SCAN_PAGE < |all| then at + SCAN_PAGE else |all|
  }

  /** The first page that reads block m starts here: each page begins with the last block of the one before. */
  function PageStart(m: nat): nat {
    if m == 0 then 0 else (m - 1) / (SCAN_PAGE - 1) * (SCAN_PAGE - 1)
  }

  /** A payment as the pages from `at` on leave it. */
  function PagedSend(all: seq<Block>, at: nat, e: Send): Send
    requires at < |all|
    decreases |all| - at
  {
    var j := PageStop(all, at);
    var next := ScanSend(all[at..j], false, e);
    if j - at < SCAN_PAGE then next else PagedSend(all, j - 1, next)
  }

  function PagedSends(all: seq<Block>, at: nat, sends: seq<Send>): seq<Send>
    requires at < |all|
  {
    seq(|sends|, i requires 0 <= i < |sends| => PagedSend(all, at, sends[i]))
  }

  /** The block at which some page first sees all these inputs consumed. */
  function PagedSettled(all: seq<Block>, at: nat, inputs: set<Bytes32>): (m: Option<nat>)
    requires at < |all|
    ensures m.Some? ==> at <= m.value < |all|
    decreases |all| - at
  {
    var j := PageStop(all, at);
    SettledInRange(all[at..j], inputs);
    match SettledBy(all[at..j], inputs)
    case Some(m) => Some(at + m)
    case None => if j - at < SCAN_PAGE then None else PagedSettled(all, j - 1, inputs)
  }

  lemma {:induction false} PagedSendIs(all: seq<Block>, at: nat, e: Send)
    requires at < |all|
    ensures PagedSend(all, at, e)
            == if !Pending(e) || PagedSettled(all, at, e.inputs).None? then e else Confirm(e, all[PagedSettled(all, at, e.inputs).value])
    decreases |all| - at
  {
    hide SettledBy, SpentIn;
    var j := PageStop(all, at);
    SettledInRange(all[at..j], e.inputs);
    var next := ScanSend(all[at..j], false, e);
    if j - at >= SCAN_PAGE {
      PagedSendIs(all, j - 1, next);
    }
  }

  lemma {:induction false} SpentMonotone(a: seq<Block>, b: seq<Block>, c: seq<Block>)
    ensures SpentIn(b) <= SpentIn(a + b + c)
  {
    hide SpentIn;
    SpentConcat(a, b);
    SpentConcat(a + b, c);
  }

  lemma {:induction false} SpentBetween(all: seq<Block>, lo: nat, l: nat, h: nat, hi: nat)
    requires lo <= l <= h <= hi <= |all|
    ensures SpentIn(all[l..h]) <= SpentIn(all[lo..hi])
  {
    hide SpentIn;
    assert all[lo..hi] == all[lo..l] + all[l..h] + all[h..hi];
    SpentMonotone(all[lo..l], all[l..h], all[h..hi]);
  }

  /** Settling is completing: all inputs are consumed with this block and not without it. */
  lemma {:induction false} SettledByIs(blocks: seq<Block>, inputs: set<Bytes32>)
    ensures SettledBy(blocks, inputs).None? <==> inputs == {} || !(inputs <= SpentIn(blocks))
    ensures SettledBy(blocks, inputs).Some? ==>
              var m := SettledBy(blocks, inputs).value;
              m < |blocks| && inputs != {} && inputs <= SpentIn(blocks[..m + 1]) && !(inputs <= SpentIn(blocks[..m]))
  {
    if blocks != [] {
      hide SpentIn;
      var n := |blocks| - 1;
      SettledByIs(blocks[..n], inputs);
      SpentConcat(blocks[..n], blocks[n..]);
      assert blocks == blocks[..n] + blocks[n..] && blocks[..n + 1] == blocks;
      if SettledBy(blocks[..n], inputs).Some? {
        var m := SettledBy(blocks[..n], inputs).value;
        assert blocks[..n][..m + 1] == blocks[..m + 1] && blocks[..n][..m] == blocks[..m];
      }
    }
  }

  /** A page that settles a payment saw all its inputs. */
  lemma {:induction false} PagedSound(all: seq<Block>, at: nat, inputs: set<Bytes32>) returns (lo: nat)
    requires at < |all| && PagedSettled(all, at, inputs).Some?
    ensures var m := PagedSettled(all, at, inputs).value;
            && at <= lo <= m < lo + SCAN_PAGE && m < |all| && (lo - at) % (SCAN_PAGE - 1) == 0
            && inputs != {} && inputs <= SpentIn(all[lo..m + 1])
    decreases |all| - at
  {
    hide SettledBy, SpentIn;
    var j := PageStop(all, at);
    SettledByIs(all[at..j], inputs);
    if SettledBy(all[at..j], inputs).Some? {
      lo := at;
      var m := SettledBy(all[at..j], inputs).value;
      assert all[at..j][..m + 1] == all[at..at + m + 1];
    } else {
      lo := PagedSound(all, j - 1, inputs);
    }
  }

  /** No page settles the payment before it completes. */
  lemma {:induction false} NotSettledBefore(all: seq<Block>, at: nat, j: nat, inputs: set<Bytes32>, m: nat)
    requires at <= j <= |all| && m < |all| && !(inputs <= SpentIn(all[..m]))
    requires SettledBy(all[at..j], inputs).Some?
    ensures m <= at + SettledBy(all[at..j], inputs).value < j
  {
    hide SettledBy, SpentIn;
    SettledByIs(all[at..j], inputs);
    var n := SettledBy(all[at..j], inputs).value;
    assert all[at..j][..n + 1] == all[at..at + n + 1] && all[0..m] == all[..m];
    if at + n < m {
      SpentBetween(all, 0, at, at + n + 1, m);
    }
  }

  /** The page that first reads block m settles there a payment all of whose inputs it has seen by then. */
  lemma {:induction false} SettledOnPage(all: seq<Block>, at: nat, j: nat, inputs: set<Bytes32>, m: nat)
    requires at <= m < j <= |all| && inputs != {} && inputs <= SpentIn(all[at..m + 1])
    ensures SettledBy(all[at..j], inputs).Some? && at + SettledBy(all[at..j], inputs).value <= m
  {
    hide SettledBy, SpentIn;
    SettledByIs(all[at..j], inputs);
    SpentBetween(all, at, at, m + 1, j);
    var n := SettledBy(all[at..j], inputs).value;
    assert all[at..j][..n] == all[at..at + n];
    if m < at + n {
      SpentBetween(all, at, at, m + 1, at + n);
    }
  }

  /** A payment whose inputs all lie in the page where it completes is settled there, over pages too. */
  lemma {:induction false} PagedComplete(all: seq<Block>, at: nat, inputs: set<Bytes32>, m: nat)
    requires m < |all| && at <= PageStart(m) && at % (SCAN_PAGE - 1) == 0
    requires inputs != {} && inputs <= SpentIn(all[PageStart(m)..m + 1]) && !(inputs <= SpentIn(all[..m]))
    ensures PagedSettled(all, at, inputs) == Some(m)
    decreases |all| - at
  {
    hide SettledBy, SpentIn;
    var j := PageStop(all, at);
    if SettledBy(all[at..j], inputs).Some? {
      NotSettledBefore(all, at, j, inputs, m);
    }
    if PageStart(m) == at {
      SettledOnPage(all, at, j, inputs, m);
    } else {
      PagedComplete(all, j - 1, inputs, m);
    }
  }

  /** Whenever the payment completes, it completes in a page that reads all the blocks that consumed it. */
  predicate CompletesInOnePage(all: seq<Block>, inputs: set<Bytes32>) {
    SettledInRange(all, inputs);
    SettledBy(all, inputs).Some? ==>
      var m := SettledBy(all, inputs).value; inputs <= SpentIn(all[PageStart(m)..m + 1])
  }

  /** Pages and a single pass settle a payment in the same block exactly when it completes in one page. */
  lemma {:induction false} SettledAlike(all: seq<Block>, inputs: set<Bytes32>)
    requires all != []
    ensures PagedSettled(all, 0, inputs) == SettledBy(all, inputs) <==> CompletesInOnePage(all, inputs)
  {
    hide SettledBy, SpentIn, PagedSettled, PageStart;
    SettledByIs(all, inputs);
    var whole, paged := SettledBy(all, inputs), PagedSettled(all, 0, inputs);
    if paged.Some? {
      var lo := PagedSound(all, 0, inputs);
      var m := paged.value;
      SpentBetween(all, 0, lo, m + 1, |all|);
      assert all[0..|all|] == all;
      PageStartOf(lo, m);
      SpentBetween(all, PageStart(m), lo, m + 1, m + 1);
    }
    if whole.Some? && CompletesInOnePage(all, inputs) {
      PageStartOf(0, 0);
      PagedComplete(all, 0, inputs, whole.value);
    }
  }

  lemma {:induction false} PageStartOf(lo: nat, m: nat)
    requires lo <= m < lo + SCAN_PAGE && lo % (SCAN_PAGE - 1) == 0
    ensures PageStart(m) <= lo && PageStart(m) % (SCAN_PAGE - 1) == 0
    ensures PageStart(m) == if m > lo || m == 0 then lo else lo - (SCAN_PAGE - 1)
  {
  }

  lemma {:induction false} SendAlike(all: seq<Block>, e: Send)
    requires all != [] && Consecutive(all)
    ensures PagedSend(all, 0, e) == ScanSend(all, false, e) <==> (Pending(e) ==> CompletesInOnePage(all, e.inputs))
  {
    hide SettledBy, SpentIn, PagedSettled, CompletesInOnePage;
    PagedSendIs(all, 0, e);
    SettledInRange(all, e.inputs);
    SettledAlike(all, e.inputs);
  }

  // --------------------------------------------- when a payment completes --

  ghost predicate Consumes(b: Block, c: Bytes32) {
    exists i :: 0 <= i < |b.body.inputs| && b.body.inputs[i].commit == c
  }

  /** No commitment is consumed by two blocks. */
  ghost predicate SpentOnce(all: seq<Block>) {
    forall i, j, c :: 0 <= i < j < |all| && Consumes(all[i], c) ==> !Consumes(all[j], c)
  }

  ghost predicate SomeConsumes(blocks: seq<Block>, c: Bytes32) {
    exists i :: 0 <= i < |blocks| && Consumes(blocks[i], c)
  }

  lemma {:induction false} ConsumesSnoc(before: seq<Block>, last: Block, c: Bytes32)
    ensures SomeConsumes(before + [last], c) <==> SomeConsumes(before, c) || Consumes(last, c)
  {
    hide Consumes;
    var all := before + [last];
    assert all[|before|] == last;
    if SomeConsumes(before, c) {
      var i :| 0 <= i < |before| && Consumes(before[i], c);
      assert all[i] == before[i];
    }
    if SomeConsumes(all, c) {
      var i :| 0 <= i < |all| && Consumes(all[i], c);
      assert i < |before| ==> all[i] == before[i];
    }
  }

  lemma {:induction false} SpentHere(blocks: seq<Block>, c: Bytes32)
    ensures c in SpentIn(blocks) <==> SomeConsumes(blocks, c)
  {
    hide Consumes;
    if blocks != [] {
      hide SpentIn, SomeConsumes;
      var n := |blocks| - 1;
      assert blocks == blocks[..n] + [blocks[n]];
      SpentHere(blocks[..n], c);
      SpentConcat(blocks[..n], [blocks[n]]);
      OneBlockSpends(blocks[n], c);
      ConsumesSnoc(blocks[..n], blocks[n], c);
    }
  }

  lemma {:induction false} OneBlockSpends(b: Block, c: Bytes32)
    ensures c in SpentIn([b]) <==> Consumes(b, c)
  {
    assert [b][..0] == [] && SpentIn([]) == {};
    if Consumes(b, c) {
      var i :| 0 <= i < |b.body.inputs| && b.body.inputs[i].commit == c;
      assert b.body.inputs[i] in b.body.inputs;
    }
    if c in SpentIn([b]) {
      var x :| x in b.body.inputs && x.commit == c;
      var i :| 0 <= i < |b.body.inputs| && b.body.inputs[i] == x;
    }
  }

  /** Every input of the payment is consumed by a block of one page. */
  ghost predicate WithinOnePage(all: seq<Block>, lo: nat, inputs: set<Bytes32>) {
    lo < |all| && lo % (SCAN_PAGE - 1) == 0 && inputs <= SpentIn(all[lo..PageStop(all, lo)])
  }

  /** A commitment consumed in a slice and by block m lies in the slice up to m. */
  lemma {:induction false} SpentUpTo(all: seq<Block>, lo: nat, hi: nat, m: nat, c: Bytes32)
    requires SpentOnce(all) && lo <= hi <= |all| && m < |all| && c in SpentIn(all[lo..hi]) && c in SpentIn(all[..m + 1])
    ensures lo <= m && c in SpentIn(all[lo..m + 1])
  {
    hide SpentIn, Consumes;
    SpentHere(all[lo..hi], c);
    SpentHere(all[..m + 1], c);
    var i :| 0 <= i < hi - lo && Consumes(all[lo..hi][i], c);
    var j :| 0 <= j < m + 1 && Consumes(all[..m + 1][j], c);
    assert all[lo..hi][i] == all[lo + i] && all[..m + 1][j] == all[j];
    assert j == lo + i;
    SpentHere(all[lo..m + 1], c);
    assert all[lo..m + 1][i] == all[j];
  }

  /** When nothing is consumed twice, a payment completes in one page exactly when it never completes or one page consumes all of it. */
  lemma {:induction false} CompletesWithin(all: seq<Block>, inputs: set<Bytes32>)
    requires SpentOnce(all)
    ensures CompletesInOnePage(all, inputs)
            <==> inputs == {} || !(inputs <= SpentIn(all)) || exists lo :: WithinOnePage(all, lo, inputs)
  {
    hide SpentIn, SettledBy, SpentOnce, PageStart;
    SettledByIs(all, inputs);
    if SettledBy(all, inputs).Some? {
      var m := SettledBy(all, inputs).value;
      PageReads(all, m);
      if CompletesInOnePage(all, inputs) {
        SpentBetween(all, PageStart(m), PageStart(m), m + 1, PageStop(all, PageStart(m)));
        assert WithinOnePage(all, PageStart(m), inputs);
      }
      if exists lo :: WithinOnePage(all, lo, inputs) {
        var lo :| WithinOnePage(all, lo, inputs);
        WithinCompletes(all, inputs, lo, m);
      }
    }
  }

  lemma {:induction false} PageReads(all: seq<Block>, m: nat)
    requires m < |all|
    ensures PageStart(m) <= m < PageStop(all, PageStart(m)) && PageStart(m) % (SCAN_PAGE - 1) == 0
  {
  }

  lemma {:induction false} WithinCompletes(all: seq<Block>, inputs: set<Bytes32>, lo: nat, m: nat)
    requires SpentOnce(all) && WithinOnePage(all, lo, inputs) && m < |all|
    requires inputs != {} && inputs <= SpentIn(all[..m + 1]) && !(inputs <= SpentIn(all[..m]))
    ensures inputs <= SpentIn(all[PageStart(m)..m + 1])
  {
    hide SpentIn, SpentOnce, PageStart;
    var hi := PageStop(all, lo);
    var c :| c in inputs && c !in SpentIn(all[..m]);
    SpentUpTo(all, lo, hi, m, c);
    LastConsumer(all, lo, hi, m, c);
    PageStartOf(lo, m);
    forall d | d in inputs ensures d in SpentIn(all[lo..m + 1]) {
      SpentUpTo(all, lo, hi, m, d);
    }
    SpentBetween(all, PageStart(m), lo, m + 1, m + 1);
  }

  lemma {:induction false} LastConsumer(all: seq<Block>, lo: nat, hi: nat, m: nat, c: Bytes32)
    requires SpentOnce(all) && lo <= hi <= |all| && m < |all|
    requires c in SpentIn(all[lo..hi]) && c in SpentIn(all[..m + 1]) && c !in SpentIn(all[..m])
    ensures lo <= m < hi
  {
    hide SpentIn, Consumes;
    SpentHere(all[lo..hi], c);
    SpentHere(all[..m + 1], c);
    SpentHere(all[..m], c);
    assert forall k :: 0 <= k < m ==> all[..m][k] == all[k];
    var i :| 0 <= i < hi - lo && Consumes(all[lo..hi][i], c);
    var j :| 0 <= j < m + 1 && Consumes(all[..m + 1][j], c);
    assert all[lo..hi][i] == all[lo + i] && all[..m + 1][j] == all[j];
  }

  /** One block that consumes all of a payment is enough. */
  lemma {:induction false} OneBlockIsEnough(all: seq<Block>, inputs: set<Bytes32>, m: nat)
    requires SpentOnce(all) && m < |all| && inputs <= SpentIn([all[m]])
    ensures CompletesInOnePage(all, inputs)
  {
    hide SpentIn, SpentOnce, CompletesInOnePage, PageStart;
    PageReads(all, m);
    assert all[m..m + 1] == [all[m]];
    SpentBetween(all, PageStart(m), m, m + 1, PageStop(all, PageStart(m)));
    assert WithinOnePage(all, PageStart(m), inputs);
    CompletesWithin(all, inputs);
  }

  // ------------------------------------------------ receipts over pages --

  /** The commitments of the outputs that the wallet opens in a slice. */
  function OpenedIn(opens: Opens, blocks: seq<Block>): set<Bytes32> {
    set x | x in CreatedIn(blocks) && opens(x.1) :: x.1.commit
  }

  /** What the wallet knows when the page at `at` begins, having known `keys` when the scan began. */
  function KnownAt(opens: Opens, keys: set<Bytes32>, all: seq<Block>, at: nat): set<Bytes32>
    requires at < |all|
  {
    if at == 0 then keys else keys + OpenedIn(opens, all[..at + 1])
  }

  /** The receipts as the pages from `at` on leave them. */
  function PagedReceipts(opens: Opens, keys: set<Bytes32>, all: seq<Block>, at: nat, had: Receipts): Receipts
    requires at < |all|
    decreases |all| - at
  {
    var j := PageStop(all, at);
    var next := NewReceipts(opens, KnownAt(opens, keys, all, at), all[at..j]) + had;
    if j - at < SCAN_PAGE then next else PagedReceipts(opens, keys, all, j - 1, next)
  }

  ghost predicate Outputs(opens: Opens, outputs: seq<Output>, key: (Bytes32, bool)) {
    exists j :: 0 <= j < |outputs| && outputs[j].commit == key.0 && outputs[j].coinbase == key.1 && opens(outputs[j])
  }

  /** Scanning the block with this much known enters a receipt under this key. */
  ghost predicate Enters(opens: Opens, known: set<Bytes32>, b: Block, key: (Bytes32, bool)) {
    key.0 !in known && (key.1 || !SpendsAny(b, known)) && Outputs(opens, b.body.outputs, key)
  }

  lemma {:induction false} OutputsSnoc(opens: Opens, before: seq<Output>, o: Output, key: (Bytes32, bool))
    ensures Outputs(opens, before + [o], key) <==> Outputs(opens, before, key) || (o.commit == key.0 && o.coinbase == key.1 && opens(o))
  {
    var all := before + [o];
    if Outputs(opens, all, key) {
      var j :| 0 <= j < |all| && all[j].commit == key.0 && all[j].coinbase == key.1 && opens(all[j]);
      assert j < |before| ==> before[j] == all[j];
    }
    if Outputs(opens, before, key) {
      var j :| 0 <= j < |before| && before[j].commit == key.0 && before[j].coinbase == key.1 && opens(before[j]);
      assert all[j] == before[j];
    }
    assert all[|before|] == o;
  }

  lemma {:induction false} EnterOutputsIs(opens: Opens, known: set<Bytes32>, height: nat, spendsOurs: bool, outputs: seq<Output>, r: Receipts)
    ensures var after := EnterOutputs(opens, known, height, spendsOurs, outputs, r);
            forall key ::
              && (key in after <==> key in r || (key.0 !in known && (key.1 || !spendsOurs) && Outputs(opens, outputs, key)))
              && (key in after ==> after[key] == if key in r then r[key] else height)
  {
    if outputs != [] {
      hide Outputs;
      var n := |outputs| - 1;
      EnterOutputsIs(opens, known, height, spendsOurs, outputs[..n], r);
      assert outputs == outputs[..n] + [outputs[n]];
      forall key: (Bytes32, bool)
        ensures Outputs(opens, outputs, key)
                <==> Outputs(opens, outputs[..n], key) || (outputs[n].commit == key.0 && outputs[n].coinbase == key.1 && opens(outputs[n]))
      {
        OutputsSnoc(opens, outputs[..n], outputs[n], key);
      }
    }
  }

  /** Block m is the first of these to enter the key. */
  ghost predicate FirstEnters(opens: Opens, known: set<Bytes32>, blocks: seq<Block>, key: (Bytes32, bool), m: nat) {
    m < |blocks| && Enters(opens, known, blocks[m], key) && forall i :: 0 <= i < m ==> !Enters(opens, known, blocks[i], key)
  }

  ghost predicate EntersIn(opens: Opens, known: set<Bytes32>, blocks: seq<Block>, key: (Bytes32, bool), height: nat) {
    exists m: nat :: FirstEnters(opens, known, blocks, key, m) && blocks[m].header.height == height
  }

  /** These receipts are the keys that some block enters, each with the height of the first. */
  ghost predicate AreEntered(opens: Opens, known: set<Bytes32>, blocks: seq<Block>, r: Receipts) {
    && (forall key :: key in r ==> EntersIn(opens, known, blocks, key, r[key]))
    && (forall key: (Bytes32, bool), m :: 0 <= m < |blocks| && Enters(opens, known, blocks[m], key) ==> key in r)
  }

  lemma {:induction false} NewReceiptsIs(opens: Opens, known: set<Bytes32>, blocks: seq<Block>)
    ensures AreEntered(opens, known, blocks, NewReceipts(opens, known, blocks))
  {
    if blocks != [] {
      hide Enters, EnterOutputs;
      var n := |blocks| - 1;
      NewReceiptsIs(opens, known, blocks[..n]);
      var before, r := NewReceipts(opens, known, blocks[..n]), NewReceipts(opens, known, blocks);
      LastBlockEnters(opens, known, blocks[n], before);
      assert forall i :: 0 <= i < n ==> blocks[..n][i] == blocks[i];
      forall key | key in r ensures EntersIn(opens, known, blocks, key, r[key]) {
        if key in before {
          assert EntersIn(opens, known, blocks[..n], key, before[key]);
          var m: nat :| FirstEnters(opens, known, blocks[..n], key, m) && blocks[..n][m].header.height == before[key];
          assert FirstEnters(opens, known, blocks, key, m);
        } else {
          assert FirstEnters(opens, known, blocks, key, n);
        }
      }
      forall key: (Bytes32, bool), m | 0 <= m < |blocks| && Enters(opens, known, blocks[m], key) ensures key in r {
        if m < n {
          assert blocks[..n][m] == blocks[m] && Enters(opens, known, blocks[..n][m], key);
          assert key in before;
        }
      }
    }
  }

  lemma {:induction false} LastBlockEnters(opens: Opens, known: set<Bytes32>, b: Block, before: Receipts)
    ensures var r := EnterOutputs(opens, known, b.header.height, SpendsAny(b, known), b.body.outputs, before);
            forall key ::
              && (key in r <==> key in before || Enters(opens, known, b, key))
              && (key in r ==> r[key] == if key in before then before[key] else b.header.height)
  {
    hide Outputs, EnterOutputs, SpendsAny;
    EnterOutputsIs(opens, known, b.header.height, SpendsAny(b, known), b.body.outputs, before);
  }

  // ---------------------------------------------------- outputs and blocks --

  lemma {:induction false} OpenedIsCreated(opens: Opens, blocks: seq<Block>)
    ensures OpenedIn(opens, blocks) <= Commits(CreatedIn(blocks))
  {
    hide CreatedIn;
  }

  lemma {:induction false} OneBlockCreates(b: Block)
    ensures CreatedIn([b]) == CreatedBy(b.header.height, b.body.outputs)
  {
    hide CreatedBy;
    assert [b][..0] == [];
    assert CreatedIn([]) == [];
    assert [] + CreatedBy(b.header.height, b.body.outputs) == CreatedBy(b.header.height, b.body.outputs);
  }

  lemma {:induction false} BlockCreates(opens: Opens, b: Block, key: (Bytes32, bool)) returns (x: (nat, Output))
    requires Outputs(opens, b.body.outputs, key)
    ensures x in CreatedIn([b]) && x.1.commit == key.0 && opens(x.1)
  {
    OneBlockCreates(b);
    hide CreatedIn;
    var j :| 0 <= j < |b.body.outputs| && b.body.outputs[j].commit == key.0 && b.body.outputs[j].coinbase == key.1 && opens(b.body.outputs[j]);
    x := (b.header.height, b.body.outputs[j]);
    assert CreatedBy(b.header.height, b.body.outputs)[j] == x;
  }

  /** An output of block m is created in every slice that holds the block. */
  lemma {:induction false} CreatedHere(opens: Opens, all: seq<Block>, lo: nat, m: nat, hi: nat, key: (Bytes32, bool))
    requires lo <= m < hi <= |all| && Outputs(opens, all[m].body.outputs, key)
    ensures key.0 in Commits(CreatedIn(all[lo..hi])) && key.0 in OpenedIn(opens, all[lo..hi])
  {
    hide CreatedIn, Outputs;
    var b := all[m];
    var x := BlockCreates(opens, b, key);
    assert all[lo..hi] == all[lo..m] + [b] + all[m + 1..hi];
    CreatedConcat(all[lo..m], [b]);
    CreatedConcat(all[lo..m] + [b], all[m + 1..hi]);
    assert x in CreatedIn(all[lo..hi]);
  }

  // ------------------------------------------------ receipts, page by page --

  /** Block m enters the key on the page that first reads it, which is the page at `at` or a later one. */
  ghost predicate EntersPaged(opens: Opens, keys: set<Bytes32>, all: seq<Block>, at: nat, m: nat, key: (Bytes32, bool)) {
    m < |all| && at <= PageStart(m) <= m && Enters(opens, KnownAt(opens, keys, all, PageStart(m)), all[m], key)
  }

  /** Block m is the first to enter the key on the page that first reads it. */
  ghost predicate FirstPaged(opens: Opens, keys: set<Bytes32>, all: seq<Block>, at: nat, m: nat, key: (Bytes32, bool)) {
    EntersPaged(opens, keys, all, at, m, key) && forall i: nat :: i < m ==> !EntersPaged(opens, keys, all, at, i, key)
  }

  ghost predicate PagedAs(opens: Opens, keys: set<Bytes32>, all: seq<Block>, at: nat, key: (Bytes32, bool), height: nat) {
    exists m: nat :: FirstPaged(opens, keys, all, at, m, key) && m < |all| && all[m].header.height == height
  }

  /** On a page's own slice: exactly the blocks this page is the first to read enter anything. */
  lemma {:induction false} PageEnters(opens: Opens, keys: set<Bytes32>, all: seq<Block>, at: nat, m: nat, key: (Bytes32, bool))
    requires at < |all| && at % (SCAN_PAGE - 1) == 0 && at <= m < PageStop(all, at)
    ensures Enters(opens, KnownAt(opens, keys, all, at), all[m], key) ==> PageStart(m) == at
  {
    PageStartOf(at, m);
    assert all[0..m + 1] == all[..m + 1];
    if m == at > 0 && Enters(opens, KnownAt(opens, keys, all, at), all[m], key) {
      CreatedHere(opens, all, 0, m, m + 1, key);
    }
  }

  /** These receipts are those there were and what the pages from `at` on enter. */
  ghost predicate ArePaged(opens: Opens, keys: set<Bytes32>, all: seq<Block>, at: nat, had: Receipts, r: Receipts) {
    && (forall key :: key in had ==> key in r && r[key] == had[key])
    && (forall key :: key in r && key !in had ==> PagedAs(opens, keys, all, at, key, r[key]))
    && (forall key: (Bytes32, bool), m: nat :: EntersPaged(opens, keys, all, at, m, key) ==> key in r)
  }

  lemma {:induction false} PagedReceiptsIs(opens: Opens, keys: set<Bytes32>, all: seq<Block>, at: nat, had: Receipts)
    requires at < |all| && at % (SCAN_PAGE - 1) == 0
    ensures ArePaged(opens, keys, all, at, had, PagedReceipts(opens, keys, all, at, had))
    decreases |all| - at
  {
    hide EntersPaged, NewReceipts, KnownAt, PagedAs;
    var j := PageStop(all, at);
    var next := NewReceipts(opens, KnownAt(opens, keys, all, at), all[at..j]) + had;
    var r := PagedReceipts(opens, keys, all, at, had);
    PageReceipts(opens, keys, all, at, had);
    if j - at >= SCAN_PAGE {
      PagedReceiptsIs(opens, keys, all, j - 1, next);
      forall key | key in r && key !in had ensures PagedAs(opens, keys, all, at, key, r[key]) {
        if key !in next {
          PagedLater(opens, keys, all, at, had, next, key, r[key]);
        }
      }
    }
    forall key, m: nat | EntersPaged(opens, keys, all, at, m, key) ensures key in r {
      PagedSplits(opens, keys, all, at, m, key);
    }
  }

  /** What this page leaves out and the later pages enter is entered over all of them alike. */
  lemma {:induction false} PagedLater(opens: Opens, keys: set<Bytes32>, all: seq<Block>, at: nat, had: Receipts, next: Receipts,
                                      key: (Bytes32, bool), height: nat)
    requires at < |all| && at % (SCAN_PAGE - 1) == 0 && AreOfPage(opens, keys, all, at, had, next) && key !in next
    requires PagedAs(opens, keys, all, PageStop(all, at) - 1, key, height) && PageStop(all, at) - at >= SCAN_PAGE
    ensures PagedAs(opens, keys, all, at, key, height)
  {
    hide Enters, KnownAt, PageStart;
    var later := PageStop(all, at) - 1;
    var m: nat :| FirstPaged(opens, keys, all, later, m, key) && m < |all| && all[m].header.height == height;
    assert EntersPaged(opens, keys, all, at, m, key);
    forall i: nat | i < m ensures !EntersPaged(opens, keys, all, at, i, key) {
      if EntersPaged(opens, keys, all, at, i, key) {
        PagedSplits(opens, keys, all, at, i, key);
      }
    }
    assert FirstPaged(opens, keys, all, at, m, key);
  }

  /** A block is entered on this page, or there is a next page and it is entered from there on. */
  lemma {:induction false} PagedSplits(opens: Opens, keys: set<Bytes32>, all: seq<Block>, at: nat, m: nat, key: (Bytes32, bool))
    requires at < |all| && at % (SCAN_PAGE - 1) == 0 && EntersPaged(opens, keys, all, at, m, key)
    ensures var j := PageStop(all, at);
            PageStart(m) == at || (j - at >= SCAN_PAGE && EntersPaged(opens, keys, all, j - 1, m, key))
  {
    hide Enters, KnownAt;
    StartWithin(PageStart(m), m);
  }

  ghost predicate AreOfPage(opens: Opens, keys: set<Bytes32>, all: seq<Block>, at: nat, had: Receipts, r: Receipts) {
    && (forall key :: key in had ==> key in r && r[key] == had[key])
    && (forall key :: key in r && key !in had ==> PagedAs(opens, keys, all, at, key, r[key]))
    && (forall key: (Bytes32, bool), m: nat :: EntersPaged(opens, keys, all, at, m, key) && PageStart(m) == at ==> key in r)
  }

  lemma {:induction false} PageReceipts(opens: Opens, keys: set<Bytes32>, all: seq<Block>, at: nat, had: Receipts)
    requires at < |all| && at % (SCAN_PAGE - 1) == 0
    ensures AreOfPage(opens, keys, all, at, had, NewReceipts(opens, KnownAt(opens, keys, all, at), all[at..PageStop(all, at)]) + had)
  {
    hide Enters, NewReceipts, KnownAt, PageStart, PagedAs, EntersIn;
    var j := PageStop(all, at);
    var known := KnownAt(opens, keys, all, at);
    var entered := NewReceipts(opens, known, all[at..j]);
    NewReceiptsIs(opens, known, all[at..j]);
    forall key | key in entered ensures PagedAs(opens, keys, all, at, key, entered[key]) {
      OnThisPage(opens, keys, all, at, key, entered[key]);
    }
    forall key: (Bytes32, bool), m: nat | EntersPaged(opens, keys, all, at, m, key) && PageStart(m) == at ensures key in entered {
      StartWithin(at, m);
      assert all[at..j][m - at] == all[m] && Enters(opens, known, all[at..j][m - at], key);
    }
  }

  /** What is entered first within the page is entered first from the page on. */
  lemma {:induction false} OnThisPage(opens: Opens, keys: set<Bytes32>, all: seq<Block>, at: nat, key: (Bytes32, bool), height: nat)
    requires at < |all| && at % (SCAN_PAGE - 1) == 0
    requires EntersIn(opens, KnownAt(opens, keys, all, at), all[at..PageStop(all, at)], key, height)
    ensures PagedAs(opens, keys, all, at, key, height)
  {
    hide Enters, KnownAt, PageStart;
    var known := KnownAt(opens, keys, all, at);
    var page := all[at..PageStop(all, at)];
    var i: nat :| FirstEnters(opens, known, page, key, i) && page[i].header.height == height;
    assert page[i] == all[at + i];
    PageEnters(opens, keys, all, at, at + i, key);
    assert EntersPaged(opens, keys, all, at, at + i, key);
    assert forall h :: at <= h < at + i ==> page[h - at] == all[h];
    forall h: nat | h < at + i ensures !EntersPaged(opens, keys, all, at, h, key) {
      StartsInOrder(h, at + i);
    }
    assert FirstPaged(opens, keys, all, at, at + i, key);
  }

  lemma {:induction false} StartsInOrder(m: nat, n: nat)
    requires m <= n
    ensures PageStart(m) <= PageStart(n)
  {
  }

  lemma {:induction false} StartWithin(at: nat, m: nat)
    requires PageStart(m) == at
    ensures at <= m < at + SCAN_PAGE
  {
  }

  /**
    A receipt that comes too late: a single pass enters it by block m, and the page that reads this block does not, since
    an earlier page met an output under the same commitment, or one that the block consumes, so that the payment looks
    like change.
   */
  ghost predicate LateReceipt(opens: Opens, keys: set<Bytes32>, had: Receipts, all: seq<Block>, m: nat, key: (Bytes32, bool)) {
    && m < |all| && PageStart(m) <= m
    && key !in had && FirstEnters(opens, keys, all, key, m)
    && var known := KnownAt(opens, keys, all, PageStart(m));
       key.0 in known || (!key.1 && SpendsAny(all[m], known))
  }

  ghost predicate NeverLate(opens: Opens, keys: set<Bytes32>, had: Receipts, all: seq<Block>, key: (Bytes32, bool)) {
    forall m: nat :: !LateReceipt(opens, keys, had, all, m, key)
  }

  ghost predicate SameReceipt(a: Receipts, b: Receipts, key: (Bytes32, bool)) {
    (key in a <==> key in b) && (key in a ==> a[key] == b[key])
  }

  /** The page that first reads block m enters what a single pass does, unless it comes too late. */
  lemma {:induction false} EntersAlike(opens: Opens, keys: set<Bytes32>, had: Receipts, all: seq<Block>, m: nat, key: (Bytes32, bool))
    requires m < |all|
    ensures EntersPaged(opens, keys, all, 0, m, key) ==> Enters(opens, keys, all[m], key)
    ensures key !in had && FirstEnters(opens, keys, all, key, m) ==>
              (EntersPaged(opens, keys, all, 0, m, key) <==> !LateReceipt(opens, keys, had, all, m, key))
  {
    hide Outputs, OpenedIn;
    StartWithin(PageStart(m), m);
    assert keys <= KnownAt(opens, keys, all, PageStart(m));
  }

  lemma {:induction false} OneFirstEnters(opens: Opens, known: set<Bytes32>, blocks: seq<Block>, key: (Bytes32, bool), m: nat, n: nat)
    requires FirstEnters(opens, known, blocks, key, m) && n < |blocks| && Enters(opens, known, blocks[n], key)
    ensures m <= n && (FirstEnters(opens, known, blocks, key, n) ==> m == n)
  {
    hide Enters;
  }

  /** Pages and a single pass leave the same receipt under a key exactly when none comes too late. */
  lemma {:induction false} ReceiptAlike(opens: Opens, keys: set<Bytes32>, had: Receipts, all: seq<Block>, paged: Receipts, single: Receipts,
                                        key: (Bytes32, bool))
    requires Consecutive(all) && ArePaged(opens, keys, all, 0, had, paged) && AreEntered(opens, keys, all, single)
    ensures SameReceipt(paged, single + had, key) <==> NeverLate(opens, keys, had, all, key)
  {
    hide Enters, EntersPaged, PageStart, KnownAt;
    if key in had {
      assert SameReceipt(paged, single + had, key);
    } else if key in single {
      var m: nat :| FirstEnters(opens, keys, all, key, m) && all[m].header.height == single[key];
      EntersAlike(opens, keys, had, all, m, key);
      if key in paged {
        var n: nat :| FirstPaged(opens, keys, all, 0, n, key) && n < |all| && all[n].header.height == paged[key];
        EntersAlike(opens, keys, had, all, n, key);
        OneFirstEnters(opens, keys, all, key, m, n);
      }
      forall n: nat | LateReceipt(opens, keys, had, all, n, key) ensures n == m {
        OneFirstEnters(opens, keys, all, key, m, n);
      }
    } else if key in paged {
      var n: nat :| FirstPaged(opens, keys, all, 0, n, key) && n < |all| && all[n].header.height == paged[key];
      EntersAlike(opens, keys, had, all, n, key);
    }
  }

  /** Pages and a single pass leave the same receipts exactly when none comes too late. */
  lemma {:induction false} ReceiptsAlike(opens: Opens, keys: set<Bytes32>, had: Receipts, all: seq<Block>)
    requires Consecutive(all) && all != []
    ensures var paged, single := PagedReceipts(opens, keys, all, 0, had), NewReceipts(opens, keys, all) + had;
            && (forall key :: SameReceipt(paged, single, key) <==> NeverLate(opens, keys, had, all, key))
            && (paged == single <==> forall key :: NeverLate(opens, keys, had, all, key))
  {
    hide NewReceipts, PagedReceipts, ArePaged, AreEntered, NeverLate, SameReceipt;
    PagedReceiptsIs(opens, keys, all, 0, had);
    NewReceiptsIs(opens, keys, all);
    var paged, single := PagedReceipts(opens, keys, all, 0, had), NewReceipts(opens, keys, all) + had;
    forall key ensures SameReceipt(paged, single, key) <==> NeverLate(opens, keys, had, all, key) {
      ReceiptAlike(opens, keys, had, all, paged, NewReceipts(opens, keys, all), key);
    }
    SameReceipts(paged, single);
  }

  lemma {:induction false} SameReceipts(a: Receipts, b: Receipts)
    ensures a == b <==> forall key :: SameReceipt(a, b, key)
  {
    if forall key :: SameReceipt(a, b, key) {
      forall key ensures key in a <==> key in b {
        assert SameReceipt(a, b, key);
      }
      forall key | key in a ensures a[key] == b[key] {
        assert SameReceipt(a, b, key);
      }
    }
  }

  /** The page an anchored or fresh wallet asks for next. */
  lemma {:induction false} PageFor(w: Wallet, s: ChainState, all: seq<Block>, at: nat)
    requires at < |all| && Serves(s) && all == BlocksFrom(s, all[0].header.height, None)
    requires s.firstHeight <= all[0].header.height < EndOf(s)
    requires ScanFrom(w) == all[at].header.height
    ensures Consecutive(all) && ScanFrom(w) <= TipHeight(s) && s.firstHeight <= ScanFrom(w)
    ensures BlocksFrom(s, ScanFrom(w), Some(SCAN_PAGE)) == all[at..if at + SCAN_PAGE < |all| then at + SCAN_PAGE else |all|]
    ensures |all| == EndOf(s) - all[0].header.height
  {
    var f := all[0].header.height - s.firstHeight;
    assert all == s.blocks[f..];
    assert forall i :: 0 <= i < |all| ==> all[i] == s.blocks[f + i];
    assert ScanFrom(w) - s.firstHeight == f + at;
    assert s.blocks[f + at..] == all[at..];
  }

  lemma {:induction false} PageOf(opens: Opens, w: Wallet, s: ChainState, page: seq<Block>)
    requires !NeedsCanonicalPass(w) && ScanFrom(w) <= TipHeight(s) && s.firstHeight <= ScanFrom(w)
    requires page == BlocksFrom(s, ScanFrom(w), Some(SCAN_PAGE)) && 0 < |page| <= SCAN_PAGE && ScanBlocks(opens, w, page).Success?
    ensures var next := ScanBlocks(opens, w, page).value;
            var found := FoundCount(opens, w.coins.Keys, CreatedIn(page));
            OnePage(opens, w, s) == if |page| < SCAN_PAGE then Success(Finished(next, found))
                                    else if ScanFrom(next) > ScanFrom(w) then Success(More(next, found)) else Failure(StuckPosition)
  {
    hide FoundCount, CreatedIn, ScanBlocks, HasScannedHistory, NeedsCanonicalPass, BlocksFrom, ScanFrom, TipHeight;
  }

  // ------------------------------------------- the record, page by page --

  /** After a scan the wallet knows what it knew and what it opened. */
  lemma {:induction false} KnownAfter(opens: Opens, w: Wallet, all: seq<Block>, k: nat, n: Wallet)
    requires 2 <= k && Progress(opens, w, all, k, n)
    ensures n.coins.Keys == KnownAt(opens, w.coins.Keys, all, k - 1)
  {
    hide CreatedIn, SpentIn, OpenedIn, Canonical, FirstPaid, HeldAfter, NewEntries;
  }

  /** A page that is not the whole history enters payments and receipts without taking anything back. */
  lemma {:induction false} PlainPage(opens: Opens, n: Wallet, page: seq<Block>)
    requires !CoversCanonicalHistory(n, page)
    ensures var next := ScanInner(opens, n, page, false);
            next.sends == ScanSends(page, false, n.sends) && next.receipts == NewReceipts(opens, n.coins.Keys, page) + n.receipts
  {
    hide Highest, BlockAt, SpentIn, CreatedIn, Found, MarkSpent, Reconcile, CoversCanonicalHistory, ScanSends, NewReceipts;
  }

  /** Nor does the first page, when what the wallet holds fits the chain. */
  lemma {:induction false} FirstRecord(opens: Opens, w: Wallet, page: seq<Block>)
    requires page != [] && Consecutive(page) && FitsChain(w, page[0])
    ensures var next := ScanInner(opens, w, page, false);
            next.sends == ScanSends(page, false, w.sends) && next.receipts == NewReceipts(opens, w.coins.Keys, page) + w.receipts
  {
    hide CoversCanonicalHistory, ScanInner, FitsChain;
    CanonicalPage(w, page);
    if Canonical(w) {
      KeptReceipts(opens, w, page);
      KeptConfirmations(w, page);
    } else {
      PlainPage(opens, w, page);
    }
  }

  lemma {:induction false} KeptConfirmations(w: Wallet, page: seq<Block>)
    requires page != [] && FitsChain(w, page[0]) && Canonical(w)
    ensures ScanSends(page, true, w.sends) == ScanSends(page, false, w.sends)
  {
    hide SpentIn, CreatedIn, SettledBy;
    assert page[0..1] == [page[0]] && page[0..|page|] == page;
    SpentBetween(page, 0, 0, 1, |page|);
    forall i | 0 <= i < |w.sends| ensures ScanSend(page, true, w.sends[i]) == ScanSend(page, false, w.sends[i]) {
    }
  }

  lemma {:induction false} KeptReceipts(opens: Opens, w: Wallet, page: seq<Block>)
    requires page != [] && Consecutive(page) && FitsChain(w, page[0]) && Canonical(w) && CoversCanonicalHistory(w, page)
    ensures var next := ScanInner(opens, w, page, false);
            next.sends == ScanSends(page, true, w.sends) && next.receipts == NewReceipts(opens, w.coins.Keys, page) + w.receipts
  {
    hide Highest, BlockAt, SpentIn, CreatedIn, Found, CoversCanonicalHistory, ScanSends, NewReceipts, FitsChain, Commits, Opened, OpenedIn,
         Marked, SetSpent;
    FirstCoins(w, page);
    var created := CreatedIn(page);
    FoundIs(opens, w.coins.Keys, created);
    OpenedIsCreated(opens, page);
    var found := Found(opens, w.coins.Keys, created);
    forall c | c in found ensures c in Commits(created) {
      OpenedIsPaid(opens, page, c);
    }
    var all := MarkSpent(w.coins + found, SpentIn(page));
    assert forall c :: c in all ==> c in Commits(created);
  }

  lemma {:induction false} PagedSendsStep(all: seq<Block>, at: nat, sends: seq<Send>)
    requires at < |all|
    ensures var j := PageStop(all, at);
            PagedSends(all, at, sends)
            == if j - at < SCAN_PAGE then ScanSends(all[at..j], false, sends) else PagedSends(all, j - 1, ScanSends(all[at..j], false, sends))
  {
    hide ScanSend;
  }

  /** From the second page on, paging runs to the end of the chain. */
  lemma {:induction false} PagesFinish(opens: Opens, w: Wallet, s: ChainState, all: seq<Block>, k: nat, n: Wallet)
    requires Serves(s) && all != [] && all == BlocksFrom(s, all[0].header.height, None) && s.firstHeight <= all[0].header.height < EndOf(s)
    requires Consecutive(all) && FitsChain(w, all[0])
    requires 2 <= k && (k - 1) % (SCAN_PAGE - 1) == 0 && Progress(opens, w, all, k, n)
    ensures AllPages(opens, n, s).Success?
    ensures var after := AllPages(opens, n, s).value;
            && Progress(opens, w, all, |all|, after)
            && after.sends == PagedSends(all, k - 1, n.sends)
            && after.receipts == PagedReceipts(opens, w.coins.Keys, all, k - 1, n.receipts)
    decreases |all| - k
  {
    hide CreatedIn, SpentIn, PagedCoins, Canonical, Commits, FitsChain, OnePage, BlocksFrom, Serves, ScanSends, NewReceipts, PagedSends,
         CheckContinuity, ScanInner, KnownAt;
    PositionOf(w, all[0]);
    assert ScanFrom(n) == all[k - 1].header.height;
    PageFor(n, s, all, k - 1);
    var j := PageStop(all, k - 1);
    LaterPage(opens, w, all, k, n);
    var page := all[k - 1..j];
    PageOf(opens, n, s, page);
    var next := ScanBlocks(opens, n, page).value;
    assert next.scannedTo == all[j - 1].header.height;
    LaterIsPlain(w, all, k, n, page);
    PlainPage(opens, n, page);
    KnownAfter(opens, w, all, k, n);
    PagedSendsStep(all, k - 1, n.sends);
    if |page| >= SCAN_PAGE {
      assert j == k - 1 + SCAN_PAGE;
      PagesFinish(opens, w, s, all, j, next);
    } else {
      assert j == |all|;
    }
  }

  lemma {:induction false} LaterIsPlain(w: Wallet, all: seq<Block>, k: nat, n: Wallet, page: seq<Block>)
    requires 2 <= k <= |all| && Consecutive(all) && FitsChain(w, all[0]) && n.birth == w.birth
    requires page != [] && page[0] == all[k - 1]
    ensures !CoversCanonicalHistory(n, page)
  {
    hide CreatedIn, SpentIn, Commits;
    PositionOf(w, all[0]);
    assert all[k - 1].header.height == all[0].header.height + (k - 1);
  }

  /** One whole pass, in the same words. */
  lemma {:induction false} WholePass(opens: Opens, w: Wallet, all: seq<Block>)
    requires all != [] && Consecutive(all) && FitsChain(w, all[0])
    ensures ScanBlocks(opens, w, all).Success?
    ensures var single := ScanBlocks(opens, w, all).value;
            && At(w, all, |all|, single) && IsPage(opens, w.coins, Canonical(w), all, single.coins)
            && single.sends == ScanSends(all, false, w.sends)
            && single.receipts == NewReceipts(opens, w.coins.Keys, all) + w.receipts
  {
    hide CreatedIn, SpentIn, IsPage, Canonical, Commits, FitsChain, ScanSends, NewReceipts, CheckContinuity, ScanInner;
    assert all[..|all|] == all;
    FirstPage(opens, w, all, |all|);
    FirstRecord(opens, w, all);
  }

  /** All pages, in the same words. */
  lemma {:induction false} AllPagesAre(opens: Opens, w: Wallet, s: ChainState, all: seq<Block>)
    requires Serves(s) && s.firstHeight <= ScanFrom(w) < EndOf(s)
    requires all == BlocksFrom(s, ScanFrom(w), None) && all != [] && FitsChain(w, all[0])
    ensures AllPages(opens, w, s).Success?
    ensures var paged := AllPages(opens, w, s).value;
            && Progress(opens, w, all, |all|, paged)
            && paged.sends == PagedSends(all, 0, w.sends)
            && paged.receipts == PagedReceipts(opens, w.coins.Keys, all, 0, w.receipts)
  {
    hide CreatedIn, SpentIn, IsPage, PagedCoins, Canonical, Commits, FitsChain, OnePage, ScanSends, NewReceipts, PagedSends, CheckContinuity,
         ScanInner, BlocksFrom, Serves;
    PositionOf(w, all[0]);
    PageFor(w, s, all, 0);
    var k := PageStop(all, 0);
    assert all[..|all|] == all && all[0..k] == all[..k] && Consecutive(all[..k]) && all[..k][0] == all[0];
    FirstPage(opens, w, all, k);
    FirstRecord(opens, w, all[..k]);
    PagedSendsStep(all, 0, w.sends);
    PageOf(opens, w, s, all[..k]);
    var next := ScanBlocks(opens, w, all[..k]).value;
    FirstCoinsPaged(opens, w, all, next.coins);
    assert next.scannedTo == all[k - 1].header.height;
    if k >= SCAN_PAGE {
      PagesFinish(opens, w, s, all, k, next);
    }
  }

  /** The whole record of payments agrees exactly when every pending one completes in one page. */
  ghost predicate AllCompleteInOnePage(all: seq<Block>, sends: seq<Send>) {
    forall i :: 0 <= i < |sends| && Pending(sends[i]) ==> CompletesInOnePage(all, sends[i].inputs)
  }

  lemma {:induction false} SendsAlike(all: seq<Block>, sends: seq<Send>)
    requires all != [] && Consecutive(all)
    ensures |PagedSends(all, 0, sends)| == |sends| == |ScanSends(all, false, sends)|
    ensures PagedSends(all, 0, sends) == ScanSends(all, false, sends) <==> AllCompleteInOnePage(all, sends)
    ensures forall i :: 0 <= i < |sends| ==>
              (PagedSends(all, 0, sends)[i] == ScanSends(all, false, sends)[i]
               <==> (Pending(sends[i]) ==> CompletesInOnePage(all, sends[i].inputs)))
  {
    hide ScanSend, PagedSend, CompletesInOnePage, Pending;
    forall i | 0 <= i < |sends|
      ensures PagedSend(all, 0, sends[i]) == ScanSend(all, false, sends[i])
              <==> (Pending(sends[i]) ==> CompletesInOnePage(all, sends[i].inputs))
    {
      SendAlike(all, sends[i]);
    }
    assert |PagedSends(all, 0, sends)| == |sends| == |ScanSends(all, false, sends)|;
    forall i | 0 <= i < |sends|
      ensures PagedSends(all, 0, sends)[i] == PagedSend(all, 0, sends[i]) && ScanSends(all, false, sends)[i] == ScanSend(all, false, sends[i])
    {
    }
  }

  /** Every commitment is read alike. */
  ghost predicate AllCoinsAlike(opens: Opens, w: Wallet, all: seq<Block>) {
    forall c :: CoinAlike(opens, w, all, c)
  }

  /** No receipt comes too late. */
  ghost predicate NoLateReceipt(opens: Opens, w: Wallet, all: seq<Block>) {
    forall key :: NeverLate(opens, w.coins.Keys, w.receipts, all, key)
  }

  /**
    When pages add up.  On a chain that does not move, paging ends; against one pass over the whole range, in spite of the
    block each page reads twice, it leaves the same position and anchor and knows the same commitments.  It holds the same
    entries of a commitment, with the same spent flags, exactly when it reads the commitment alike; it leaves the same
    confirmation of a payment exactly when the payment completes in one page, and the same receipt under a key exactly when
    none comes too late.  So the wallets are equal exactly when all three hold throughout.
   */
  lemma {:induction false} PagedIsSinglePass(opens: Opens, w: Wallet, s: ChainState, all: seq<Block>)
    requires Serves(s) && s.firstHeight <= ScanFrom(w) < EndOf(s)
    requires all == BlocksFrom(s, ScanFrom(w), None) && FitsChain(w, all[0])
    ensures AllPages(opens, w, s).Success? && ScanBlocks(opens, w, all).Success?
    ensures var paged, single := AllPages(opens, w, s).value, ScanBlocks(opens, w, all).value;
            && paged == single.(coins := paged.coins, sends := paged.sends, receipts := paged.receipts)
            && single.scannedTo == TipHeight(s)
            && paged.coins.Keys == single.coins.Keys
            && |paged.sends| == |single.sends| == |w.sends|
            && (forall c :: c in single.coins ==> (paged.coins[c] == single.coins[c] <==> CoinAlike(opens, w, all, c)))
            && (forall i :: 0 <= i < |w.sends| ==>
                  (paged.sends[i] == single.sends[i] <==> (Pending(w.sends[i]) ==> CompletesInOnePage(all, w.sends[i].inputs))))
            && (forall key :: SameReceipt(paged.receipts, single.receipts, key)
                              <==> NeverLate(opens, w.coins.Keys, w.receipts, all, key))
            && (paged == single
                <==> AllCoinsAlike(opens, w, all) && AllCompleteInOnePage(all, w.sends) && NoLateReceipt(opens, w, all))
  {
    hide CreatedIn, SpentIn, IsPage, PagedCoins, Canonical, ScanBlocks, Commits, FitsChain, OnePage, ScanSends, NewReceipts, PagedSends,
         PagedReceipts, NeverLate, SameReceipt, CompletesInOnePage, Pending, CoinAlike, AllCoinsAlike, AllCompleteInOnePage;
    PositionOf(w, all[0]);
    PageFor(w, s, all, 0);
    AllPagesAre(opens, w, s, all);
    WholePass(opens, w, all);
    var paged, single := AllPages(opens, w, s).value, ScanBlocks(opens, w, all).value;
    CoinsAlike(opens, w, all, paged.coins, single.coins);
    SendsAlike(all, w.sends);
    ReceiptsAlike(opens, w.coins.Keys, w.receipts, all);
    assert single.scannedTo == all[|all| - 1].header.height;
  }

  /** The receipt is late for looking like change: its block consumes what an earlier page met. */
  ghost predicate LooksLikeChange(opens: Opens, keys: set<Bytes32>, all: seq<Block>, m: nat, key: (Bytes32, bool)) {
    m < |all| && PageStart(m) <= m && !key.1 && SpendsAny(all[m], KnownAt(opens, keys, all, PageStart(m)))
  }

  /** Paid once under a commitment, the wallet cannot have opened it on an earlier page. */
  lemma {:induction false} LateIsChange(opens: Opens, w: Wallet, all: seq<Block>, m: nat, key: (Bytes32, bool))
    requires PaidOnce(opens, w, all) && LateReceipt(opens, w.coins.Keys, w.receipts, all, m, key)
    ensures LooksLikeChange(opens, w.coins.Keys, all, m, key)
  {
    hide OpenedIn, PaidIn, PageStart, Outputs, SpendsAny;
    var at := PageStart(m);
    if key.0 in KnownAt(opens, w.coins.Keys, all, at) {
      StrictlyLater(m);
      var before, after := all[..at + 1], all[at + 1..];
      assert all == before + after && after == all[at + 1..|all|];
      CreatedHere(opens, all, at + 1, m, |all|, key);
      OpenedIsPaid(opens, before, key.0);
      OpenedIsPaid(opens, after, key.0);
      PaidConcat(opens, before, after, key.0);
      var n := SomeFirst(opens, all, key.0, at + 1);
      assert false;
    }
  }

  lemma {:induction false} StrictlyLater(m: nat)
    requires PageStart(m) > 0
    ensures PageStart(m) < m
  {
  }

  /**
    A wallet paid once under every commitment new to it, and before the range spends it, has the coins and spent flags of
    a single pass, whatever happens to the outputs of others; then receipts differ by late change alone.
   */
  lemma {:induction false} PaidOnceIsEnough(opens: Opens, w: Wallet, s: ChainState, all: seq<Block>)
    requires Serves(s) && s.firstHeight <= ScanFrom(w) < EndOf(s)
    requires all == BlocksFrom(s, ScanFrom(w), None) && FitsChain(w, all[0]) && PaidOnce(opens, w, all)
    ensures AllPages(opens, w, s).Success? && ScanBlocks(opens, w, all).Success?
    ensures AllPages(opens, w, s).value.coins == ScanBlocks(opens, w, all).value.coins
    ensures forall m: nat, key :: LateReceipt(opens, w.coins.Keys, w.receipts, all, m, key) ==> LooksLikeChange(opens, w.coins.Keys, all, m, key)
  {
    hide AllPages, ScanBlocks, CoinAlike, PaidOnce, FitsChain, BlocksFrom, LateReceipt, LooksLikeChange, Serves, NoLateReceipt;
    PagedIsSinglePass(opens, w, s, all);
    forall c ensures CoinAlike(opens, w, all, c) {
      PaidOnceIsAlike(opens, w, all, c);
    }
    forall m: nat, key | LateReceipt(opens, w.coins.Keys, w.receipts, all, m, key)
      ensures LooksLikeChange(opens, w.coins.Keys, all, m, key)
    {
      LateIsChange(opens, w, all, m, key);
    }
  }
}
