/**
  Giving up payments that can never confirm (`impossible_sends` in crates/nightfall-core/src/wallet_state.rs,
  `release_sends` in crates/nightfall-wallet/src/lib.rs).
 */
module Releases {
  import opened Words
  import opened Curve
  import opened WalletScan

  const MIN_AGE: nat := 600

  /** Old enough, not empty, and not the lock of a swap. */
  predicate Judgeable(e: Send, now: u64) {
    Pending(e) && e.inputs != {} && (if now >= e.timestamp then now - e.timestamp else 0) >= MIN_AGE && !e.swapLock
  }

  predicate AllPresent(inputs: set<Bytes32>, present: Bytes32 -> bool) {
    forall c :: c in inputs ==> present(c)
  }

  /** An input does not exist any more, or the transaction is refused for good. */
  predicate Impossible(e: Send, now: u64, present: Bytes32 -> bool, rejected: Send -> bool) {
    Judgeable(e, now) && (!AllPresent(e.inputs, present) || rejected(e))
  }

  ghost predicate GivenUp(sends: seq<Send>, n: nat, now: u64, present: Bytes32 -> bool, rejected: Send -> bool, txid: nat)
    requires n <= |sends|
  {
    exists i :: 0 <= i < n && sends[i].txid == txid && Impossible(sends[i], now, present, rejected)
  }

  ghost predicate FreedBy(e: Send, present: Bytes32 -> bool, c: Bytes32) {
    c in e.inputs && present(c)
  }

  ghost predicate Freed(sends: seq<Send>, n: nat, now: u64, present: Bytes32 -> bool, rejected: Send -> bool, c: Bytes32)
    requires n <= |sends|
  {
    exists i :: 0 <= i < n && Impossible(sends[i], now, present, rejected) && FreedBy(sends[i], present, c)
  }

  /** `impossible_sends`: exactly the impossible payments, and exactly their inputs that still exist. */
  method ImpossibleSends(sends: seq<Send>, now: u64, present: Bytes32 -> bool, rejected: Send -> bool)
    returns (txids: set<nat>, unspend: set<Bytes32>)
    ensures forall id :: id in txids <==> GivenUp(sends, |sends|, now, present, rejected, id)
    ensures forall c :: c in unspend <==> Freed(sends, |sends|, now, present, rejected, c)
  {
    txids, unspend := {}, {};
    for n := 0 to |sends|
      invariant forall id :: id in txids <==> GivenUp(sends, n, now, present, rejected, id)
      invariant forall c :: c in unspend <==> Freed(sends, n, now, present, rejected, c)
    {
      var e := sends[n];
      OneMoreSend(sends, n, now, present, rejected);
      if Judgeable(e, now) && !(AllPresent(e.inputs, present) && !rejected(e)) {
        txids := txids + {e.txid};
        unspend := unspend + set c | c in e.inputs && present(c);
      }
    }
  }

  lemma {:induction false} OneMoreSend(sends: seq<Send>, n: nat, now: u64, present: Bytes32 -> bool, rejected: Send -> bool)
    requires n < |sends|
    ensures forall id :: GivenUp(sends, n + 1, now, present, rejected, id)
                         <==> GivenUp(sends, n, now, present, rejected, id)
                              || (sends[n].txid == id && Impossible(sends[n], now, present, rejected))
    ensures forall c :: Freed(sends, n + 1, now, present, rejected, c)
                        <==> Freed(sends, n, now, present, rejected, c)
                             || (Impossible(sends[n], now, present, rejected) && FreedBy(sends[n], present, c))
  {
    hide Judgeable, FreedBy, Impossible;
    var e := sends[n];
    forall id
      ensures GivenUp(sends, n + 1, now, present, rejected, id)
              <==> GivenUp(sends, n, now, present, rejected, id) || (e.txid == id && Impossible(e, now, present, rejected))
    {
      if e.txid == id && Impossible(e, now, present, rejected) {
        assert sends[n].txid == id && Impossible(sends[n], now, present, rejected);
      }
    }
    forall c
      ensures Freed(sends, n + 1, now, present, rejected, c)
              <==> Freed(sends, n, now, present, rejected, c) || (Impossible(e, now, present, rejected) && FreedBy(e, present, c))
    {
      if Impossible(e, now, present, rejected) && FreedBy(e, present, c) {
        assert Impossible(sends[n], now, present, rejected) && FreedBy(sends[n], present, c);
      }
    }
  }

  // ------------------------------------------------------------ releasing --

  predicate Named(e: Send, txids: set<nat>) {
    Pending(e) && e.txid in txids
  }

  /** The named pending payments fail. */
  function Failed(sends: seq<Send>, txids: set<nat>): seq<Send> {
    seq(|sends|, i requires 0 <= i < |sends| => if Named(sends[i], txids) then sends[i].(failed := true, quarantined := true) else sends[i])
  }

  ghost predicate Claimed(sends: seq<Send>, c: Bytes32) {
    exists i :: 0 <= i < |sends| && Pending(sends[i]) && c in sends[i].inputs
  }

  function ClaimsOf(sends: seq<Send>): (r: set<Bytes32>)
    ensures forall c :: c in r <==> Claimed(sends, c)
  {
    set i, c | 0 <= i < |sends| && Pending(sends[i]) && c in sends[i].inputs :: c
  }

  /** `release_sends`: surviving inputs become spendable again unless another pending payment claims them. */
  function ReleaseSends(w: Wallet, txids: set<nat>, unspend: set<Bytes32>): Wallet {
    if forall i :: 0 <= i < |w.sends| ==> !Named(w.sends[i], txids) then w
    else
      var sends := Failed(w.sends, txids);
      var claimed := ClaimsOf(sends);
      w.(sends := sends,
         coins := map c | c in w.coins :: if c in unspend && c !in claimed then SetSpent(w.coins[c], false) else w.coins[c])
  }

  /**
    Releasing is safe for every other payment.  After the impossible payments are given up, an input that a
    payment still waits for keeps its entries, nothing becomes spendable that does not exist,
    and no payment that could still confirm is touched.
   */
  lemma {:induction false} ReleaseIsSafe(w: Wallet, now: u64, present: Bytes32 -> bool, rejected: Send -> bool,
                                         txids: set<nat>, unspend: set<Bytes32>)
    requires forall id :: id in txids <==> GivenUp(w.sends, |w.sends|, now, present, rejected, id)
    requires forall c :: c in unspend <==> Freed(w.sends, |w.sends|, now, present, rejected, c)
    requires forall i, j :: 0 <= i < j < |w.sends| ==> w.sends[i].txid != w.sends[j].txid
    ensures var after := ReleaseSends(w, txids, unspend);
            && after == w.(sends := after.sends, coins := after.coins)
            && |after.sends| == |w.sends| && after.coins.Keys == w.coins.Keys
            && (forall c :: c in w.coins && Claimed(after.sends, c) ==> after.coins[c] == w.coins[c])
            && (forall c :: c in w.coins && after.coins[c] != w.coins[c] ==>
                  after.coins[c] == SetSpent(w.coins[c], false) && present(c) && Claimed(w.sends, c))
            && (forall i :: 0 <= i < |w.sends| ==>
                  (after.sends[i] != w.sends[i] <==> Impossible(w.sends[i], now, present, rejected)))
  {
    hide SetSpent;
    var after := ReleaseSends(w, txids, unspend);
    forall i | 0 <= i < |w.sends|
      ensures Named(w.sends[i], txids) <==> Impossible(w.sends[i], now, present, rejected)
    {
      if Impossible(w.sends[i], now, present, rejected) {
        assert GivenUp(w.sends, |w.sends|, now, present, rejected, w.sends[i].txid);
      }
      if w.sends[i].txid in txids {
        var j :| 0 <= j < |w.sends| && w.sends[j].txid == w.sends[i].txid && Impossible(w.sends[j], now, present, rejected);
        assert i == j;
      }
    }
    forall c | c in w.coins && after.coins[c] != w.coins[c] ensures present(c) && Claimed(w.sends, c) {
      assert c in unspend;
      var i :| 0 <= i < |w.sends| && Impossible(w.sends[i], now, present, rejected) && FreedBy(w.sends[i], present, c);
      assert Pending(w.sends[i]);
    }
  }
}
