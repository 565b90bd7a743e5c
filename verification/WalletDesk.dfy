/**
  Committing a scan: workers scan isolated copies of the wallet, and a copy is adopted only if the live wallet is
  still what it was copied from (crates/nightfall-core/src/wallet_state.rs, crates/nightfall-core/src/app.rs).
 */
module WalletDesk {
  import opened Wrappers
  import opened Words
  import opened Curve
  import opened Transactions
  import opened Blocks
  import opened Consensus
  import opened WalletScan
  import Releases

  // ------------------------------------------------- committing a scan --

  /** What the owner does to the wallet. */
  datatype Edit =
    | Pay(txid: nat, inputs: set<Bytes32>, timestamp: u64, swapLock: bool)
    | GiveUp(txids: set<nat>, unspend: set<Bytes32>)
    | Reserve(held: set<Bytes32>)
    | Release(freed: set<Bytes32>)
    | Note(key: nat, value: nat)

  function DoEdit(w: Wallet, e: Edit): Wallet {
    match e
    case Pay(txid, inputs, timestamp, swapLock) =>
      w.(coins := MarkSpent(w.coins, inputs),
         sends := if exists i :: 0 <= i < |w.sends| && w.sends[i].txid == txid then w.sends
                  else w.sends + [Send(txid, inputs, None, timestamp, false, false, swapLock)])
    case GiveUp(txids, unspend) => Releases.ReleaseSends(w, txids, unspend)
    case Note(key, value) => w.(notes := w.notes[key := value])
    case Reserve(held) => w.(reserved := w.reserved + held)
    case Release(freed) => w.(reserved := w.reserved - freed)
  }

  /** The chain work of one worker turn: a page of an ordinary scan, or a reconciling pass from the birth height. */
  datatype ChainWork = Page(chain: ChainState) | Rebase(blocks: seq<Block>)

  /** A turn that fails leaves the candidate to be thrown away. */
  function DoWork(opens: Opens, w: Wallet, work: ChainWork): Option<Wallet> {
    match work
    case Page(chain) =>
      var r := OnePage(opens, w, chain);
      if r.Failure? then None else Some(match r.value case Finished(done, _) => done case More(next, _) => next)
    case Rebase(blocks) => Some(ScanInner(opens, w, blocks, true))
  }

  /** A scan in flight on an isolated copy: the state it started from, and the copy after the chain work. */
  datatype Draft = Draft(base: Wallet, candidate: Wallet, work: Option<ChainWork>)

  datatype Op = Edited(edit: Edit) | Committed(work: ChainWork)

  datatype Desk = Desk(live: Wallet, drafts: seq<Draft>, log: seq<Op>)

  datatype DeskEvent =
    | UserEdit(edit: Edit)
    | Begin
    | Work(draft: nat, work: ChainWork)
    | Commit(draft: nat)

  /** `scan_candidate`, the chain work, `commit_scan`: adopt the copy only if the live wallet is still its base. */
  function DoDesk(opens: Opens, d: Desk, e: DeskEvent): Desk {
    match e
    case UserEdit(edit) => d.(live := DoEdit(d.live, edit), log := d.log + [Edited(edit)])
    case Begin => d.(drafts := d.drafts + [Draft(d.live, d.live, None)])
    case Work(k, work) =>
      if k < |d.drafts| && d.drafts[k].work.None? && DoWork(opens, d.drafts[k].candidate, work).Some?
      then d.(drafts := d.drafts[k := Draft(d.drafts[k].base, DoWork(opens, d.drafts[k].candidate, work).value, Some(work))])
      else d
    case Commit(k) =>
      if k < |d.drafts| && d.drafts[k].work.Some? && d.drafts[k].base == d.live
      then d.(live := d.drafts[k].candidate, log := d.log + [Committed(d.drafts[k].work.value)])
      else d
  }

  function RunDesk(opens: Opens, d: Desk, events: seq<DeskEvent>): Desk {
    if events == [] then d else DoDesk(opens, RunDesk(opens, d, events[..|events| - 1]), events[|events| - 1])
  }

  /** The edits and the committed work, one after another, nothing in flight. */
  function Sequential(opens: Opens, w: Wallet, log: seq<Op>): Option<Wallet> {
    if log == [] then Some(w)
    else
      match Sequential(opens, w, log[..|log| - 1])
      case None => None
      case Some(before) =>
        match log[|log| - 1]
        case Edited(edit) => Some(DoEdit(before, edit))
        case Committed(work) => DoWork(opens, before, work)
  }

  /** The payments, without what a scan says about them. */
  function Payments(sends: seq<Send>): seq<(nat, set<Bytes32>)> {
    seq(|sends|, i requires 0 <= i < |sends| => (sends[i].txid, sends[i].inputs))
  }

  /** What only the owner changes: which payments there are, the reservations and the notes. */
  datatype Owned = Owned(payments: seq<(nat, set<Bytes32>)>, reserved: set<Bytes32>, notes: map<nat, nat>)

  function OwnedOf(w: Wallet): Owned {
    Owned(Payments(w.sends), w.reserved, w.notes)
  }

  function EditOwned(o: Owned, e: Edit): Owned {
    match e
    case Pay(txid, inputs, _, _) =>
      if exists i :: 0 <= i < |o.payments| && o.payments[i].0 == txid then o else o.(payments := o.payments + [(txid, inputs)])
    case GiveUp(_, _) => o
    case Reserve(held) => o.(reserved := o.reserved + held)
    case Release(freed) => o.(reserved := o.reserved - freed)
    case Note(key, value) => o.(notes := o.notes[key := value])
  }

  /** What the edits alone would leave. */
  function OwnedBy(start: Owned, log: seq<Op>): Owned {
    if log == [] then start
    else
      var before := OwnedBy(start, log[..|log| - 1]);
      match log[|log| - 1]
      case Edited(edit) => EditOwned(before, edit)
      case Committed(_) => before
  }

  ghost predicate DeskOk(opens: Opens, start: Wallet, d: Desk) {
    && Sequential(opens, start, d.log) == Some(d.live)
    && OwnedOf(d.live) == OwnedBy(OwnedOf(start), d.log)
    && forall k :: 0 <= k < |d.drafts| ==>
         if d.drafts[k].work.None? then d.drafts[k].candidate == d.drafts[k].base
         else DoWork(opens, d.drafts[k].base, d.drafts[k].work.value) == Some(d.drafts[k].candidate)
  }

  lemma {:induction false} ScanKeepsPayments(blocks: seq<Block>, reconcile: bool, sends: seq<Send>)
    ensures Payments(ScanSends(blocks, reconcile, sends)) == Payments(sends)
  {
    hide SettledBy, SpentIn;
    var after := ScanSends(blocks, reconcile, sends);
    forall i | 0 <= i < |sends| ensures after[i].txid == sends[i].txid && after[i].inputs == sends[i].inputs {
    }
  }

  /** Chain work touches neither the reservations nor the notes, and neither drops nor adds a payment. */
  lemma {:induction false} WorkKeepsOwned(opens: Opens, w: Wallet, work: ChainWork)
    requires DoWork(opens, w, work).Some?
    ensures var after := DoWork(opens, w, work).value;
            OwnedOf(after) == OwnedOf(w)
  {
    hide SpentIn, CreatedIn, Found, FoundCount, MarkSpent, Reconcile, Highest, BlockAt, CoversCanonicalHistory, BlocksFrom, CheckContinuity,
         HasScannedHistory, ScanSends, NewReceipts, Payments;
    forall blocks, reconcile ensures Payments(ScanSends(blocks, reconcile, w.sends)) == Payments(w.sends) {
      ScanKeepsPayments(blocks, reconcile, w.sends);
    }
  }

  lemma {:induction false} SequentialSnoc(opens: Opens, w: Wallet, log: seq<Op>, op: Op)
    requires Sequential(opens, w, log).Some?
    ensures Sequential(opens, w, log + [op])
            == match op
               case Edited(edit) => Some(DoEdit(Sequential(opens, w, log).value, edit))
               case Committed(work) => DoWork(opens, Sequential(opens, w, log).value, work)
    ensures OwnedBy(OwnedOf(w), log + [op])
            == match op
               case Edited(edit) => EditOwned(OwnedBy(OwnedOf(w), log), edit)
               case Committed(_) => OwnedBy(OwnedOf(w), log)
  {
    hide DoEdit, DoWork, EditOwned, OwnedOf;
    assert (log + [op])[..|log|] == log;
  }

  lemma {:induction false} EditIsOwned(w: Wallet, e: Edit)
    ensures OwnedOf(DoEdit(w, e)) == EditOwned(OwnedOf(w), e)
  {
    hide MarkSpent;
    match e
    case Pay(txid, inputs, _, _) =>
      if exists i :: 0 <= i < |w.sends| && w.sends[i].txid == txid {
        var i :| 0 <= i < |w.sends| && w.sends[i].txid == txid;
        assert Payments(w.sends)[i].0 == txid;
      }
    case GiveUp(txids, unspend) => assert Payments(Releases.ReleaseSends(w, txids, unspend).sends) == Payments(w.sends);
    case Reserve(_) =>
    case Release(_) =>
    case Note(_, _) =>
  }

  lemma {:induction false} DoDeskOk(opens: Opens, start: Wallet, d: Desk, e: DeskEvent)
    requires DeskOk(opens, start, d)
    ensures DeskOk(opens, start, DoDesk(opens, d, e))
  {
    hide DoWork, DoEdit, Sequential, OwnedBy, OwnedOf, EditOwned;
    match e
    case UserEdit(edit) =>
      SequentialSnoc(opens, start, d.log, Edited(edit));
      EditIsOwned(d.live, edit);
    case Begin =>
    case Work(k, work) =>
    case Commit(k) =>
      if k < |d.drafts| && d.drafts[k].work.Some? && d.drafts[k].base == d.live {
        SequentialSnoc(opens, start, d.log, Committed(d.drafts[k].work.value));
        WorkKeepsOwned(opens, d.live, d.drafts[k].work.value);
      }
  }

  /**
    No lost update.  For every interleaving of the owner's edits with any number of workers, the live wallet is
    what the edits and the committed scans give when run one after another in commit order; its payments,
    reservations and notes are those of the edits alone: no scan ever overwrites one.
   */
  lemma {:induction false} NoLostUpdate(opens: Opens, start: Wallet, events: seq<DeskEvent>)
    ensures var d := RunDesk(opens, Desk(start, [], []), events);
            Sequential(opens, start, d.log) == Some(d.live) && OwnedOf(d.live) == OwnedBy(OwnedOf(start), d.log)
    ensures DeskOk(opens, start, RunDesk(opens, Desk(start, [], []), events))
    decreases |events|
  {
    hide DoDesk;
    if events != [] {
      var n := |events| - 1;
      NoLostUpdate(opens, start, events[..n]);
      DoDeskOk(opens, start, RunDesk(opens, Desk(start, [], []), events[..n]), events[n]);
    }
  }
}
