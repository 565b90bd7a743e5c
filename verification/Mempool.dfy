/**
  The mempool of crates/nightfall-consensus/src/lib.rs: first-seen admission, expiry, and the selection of
  transactions for a block.  Transaction ids are symbolic hashes of the fields they cover.
 */
module Mempools {
  import opened Wrappers
  import opened Words
  import opened Curve
  import opened Sorting
  import opened Utxos
  import opened Transactions
  import opened Ledgers
  import opened Aggregation
  import opened Admission
  import opened Blocks

  // ------------------------------------------------------ transaction ids --

  /** The bytes of an output that an id covers: everything but the sender's signature. */
  datatype OutputBytes = OutputBytes(coinbase: bool, commit: Bytes32, ephemeralPk: Bytes32, outputPk: Bytes32, proof: Network, payload: nat)

  datatype TxId =
    | LegacyId(commits: seq<Bytes32>, outputs: seq<OutputBytes>, kernels: seq<Message>)
    | BoundId(keyed: seq<(Bytes32, Bytes32)>, outputs: seq<OutputBytes>, stealths: seq<(Message, Bytes32)>, stealthOffset: nat, kernelOffset: nat)

  function BytesLe(a: Bytes32, b: Bytes32): bool { Key(a) <= Key(b) }

  function BytesOf(o: Output): OutputBytes {
    OutputBytes(o.coinbase, o.commit, o.ephemeralPk, o.outputPk, o.proof, o.payload)
  }

  function MessageOf(k: Kernel): Message { k.SigningMessage() }

  function KeyedOf(i: Input): (Bytes32, Bytes32) {
    (i.commit, if i.inputKey.Some? then i.inputKey.value else ZERO_BYTES)
  }

  function StealthPair(k: Kernel): (Message, Bytes32) {
    (k.SigningMessage(), if k.stealthExcess.Some? then k.stealthExcess.value else ZERO_BYTES)
  }

  /** `legacy_txid`: ignores every binding field and every signature. */
  function LegacyTxid(tx: Transaction): TxId {
    LegacyId(Sort(BytesLe, MapSeq(InputCommit, tx.inputs)), MapSeq(BytesOf, tx.outputs), MapSeq(MessageOf, tx.kernels))
  }

  /** `txid`. */
  function Txid(tx: Transaction): TxId {
    if !HasAnyBinding(AsBody(tx)) then LegacyTxid(tx)
    else BoundId(MapSeq(KeyedOf, Sort(InputLe, tx.inputs)), MapSeq(BytesOf, tx.outputs), MapSeq(StealthPair, tx.kernels),
                 if tx.stealthOffset.Some? then tx.stealthOffset.value else 0,
                 if tx.kernelOffset.Some? then tx.kernelOffset.value else 0)
  }

  /** The commitments a transaction spends. */
  function Spent(tx: Transaction): set<Bytes32> {
    set i | i in tx.inputs :: i.commit
  }

  predicate SharesInput(a: Transaction, b: Transaction) {
    Spent(a) * Spent(b) != {}
  }

  lemma {:induction false} SharingIsSymmetric(a: Transaction, b: Transaction)
    ensures SharesInput(a, b) == SharesInput(b, a)
  {
    assert Spent(a) * Spent(b) == Spent(b) * Spent(a);
  }

  lemma {:induction false} SpentByCommits(tx: Transaction, c: Bytes32)
    ensures c in Spent(tx) <==> c in MapSeq(InputCommit, tx.inputs)
  {
    var list := MapSeq(InputCommit, tx.inputs);
    if c in Spent(tx) {
      var n :| 0 <= n < |tx.inputs| && tx.inputs[n].commit == c;
      assert list[n] == c;
    }
    if c in list {
      var n :| 0 <= n < |list| && list[n] == c;
      assert tx.inputs[n] in tx.inputs;
    }
  }

  /** The two shapes of one spend consume the same outputs. */
  lemma {:induction false} LegacySpendsAlike(a: Transaction, b: Transaction)
    requires LegacyTxid(a) == LegacyTxid(b)
    ensures Spent(a) == Spent(b)
  {
    hide Sort;
    SortElements(BytesLe, MapSeq(InputCommit, a.inputs));
    SortElements(BytesLe, MapSeq(InputCommit, b.inputs));
    forall c ensures c in Spent(a) <==> c in Spent(b) {
      SpentByCommits(a, c);
      SpentByCommits(b, c);
    }
  }

  // ------------------------------------------------------------- the pool --

  const MAX_ENTRIES: nat := 10_000
  const MAX_AGE: nat := 21_600

  datatype Pool = Pool(txs: map<TxId, Transaction>, seen: map<TxId, u64>)

  datatype InsertOutcome = Added | Known | Conflict | Full

  const NO_TXS: Pool := Pool(map[], map[])

  function Cutoff(now: u64): u64 {
    if now > MAX_AGE then now - MAX_AGE else 0
  }

  /** `expire`: forget what has waited six hours, and shrink the timestamp index with the map. */
  function Expire(p: Pool, now: u64): Pool {
    var live := map id | id in p.txs && (id in p.seen ==> p.seen[id] > Cutoff(now)) :: p.txs[id];
    Pool(live, map id | id in p.seen && id in live :: p.seen[id])
  }

  function Conflicts(p: Pool, tx: Transaction): set<TxId> {
    set id | id in p.txs && SharesInput(p.txs[id], tx)
  }

  /** The only replacement: the same spend again, now with its binding fields. */
  predicate Upgrades(held: Transaction, tx: Transaction) {
    !HasFullBinding(held) && HasFullBinding(tx) && LegacyTxid(held) == LegacyTxid(tx)
  }

  lemma {:induction false} OneElement(s: set<TxId>)
    requires |s| == 1
    ensures forall x, y :: x in s && y in s ==> x == y
  {
    var x :| x in s;
    assert |s - {x}| == 0;
  }

  function TheOne(s: set<TxId>): (x: TxId)
    requires |s| == 1
    ensures s == {x}
  {
    OneElement(s);
    var x :| x in s;
    x
  }

  function Place(p: Pool, tx: Transaction, now: u64): (InsertOutcome, Pool) {
    var id := Txid(tx);
    var conflicts := Conflicts(p, tx);
    if id in p.txs then (Known, p)
    else if conflicts == {} then
      (Added, Pool(p.txs[id := tx], if id in p.seen then p.seen else p.seen[id := now]))
    else if |conflicts| == 1 && Upgrades(p.txs[TheOne(conflicts)], tx) then
      var held := TheOne(conflicts);
      var first := if held in p.seen then p.seen[held] else now;
      (Added, Pool((p.txs - {held})[id := tx], (p.seen - {held})[id := first]))
    else (Conflict, p)
  }

  /** `insert_checked`: a full pool is swept once before it refuses. */
  function Admit(p: Pool, tx: Transaction, now: u64): (InsertOutcome, Pool) {
    if |p.txs| < MAX_ENTRIES then Place(p, tx, now)
    else
      var swept := Expire(p, now);
      if |swept.txs| >= MAX_ENTRIES then (Full, swept) else Place(swept, tx, now)
  }

  function Created(tx: Transaction): set<Bytes32> {
    set o | o in tx.outputs :: o.commit
  }

  predicate TouchedBy(tx: Transaction, b: Body) {
    Spent(tx) * (set i | i in b.inputs :: i.commit) != {} || Created(tx) * (set o | o in b.outputs :: o.commit) != {}
  }

  /** `remove_included`: by spent and created commitment, a block does not know which transactions it holds. */
  function RemoveIncluded(p: Pool, b: Body): Pool {
    var live := map id | id in p.txs && !TouchedBy(p.txs[id], b) :: p.txs[id];
    Pool(live, map id | id in p.seen && id in live :: p.seen[id])
  }

  function Ids(ids: seq<TxId>): set<TxId> {
    set id | id in ids
  }

  function DropIds(p: Pool, ids: seq<TxId>): Pool {
    Pool(p.txs - Ids(ids), p.seen - Ids(ids))
  }

  // ------------------------------------------------------------ invariant --

  /** One timestamp per transaction, each under its own id, no two spending one output, within the cap. */
  ghost predicate PoolOk(p: Pool) {
    && p.seen.Keys == p.txs.Keys
    && (forall id :: id in p.txs ==> Txid(p.txs[id]) == id)
    && (forall a, b :: a in p.txs && b in p.txs && a != b ==> !SharesInput(p.txs[a], p.txs[b]))
    && |p.txs| <= MAX_ENTRIES
  }

  lemma {:induction false} FewerIsOk(p: Pool, q: Pool)
    requires PoolOk(p) && q.seen.Keys == q.txs.Keys && q.txs.Keys <= p.txs.Keys
    requires forall id :: id in q.txs ==> q.txs[id] == p.txs[id]
    ensures PoolOk(q) && |q.txs| <= |p.txs|
  {
    hide Txid, SharesInput;
    SubsetSize(q.txs.Keys, p.txs.Keys);
    assert |q.txs| == |q.txs.Keys| && |p.txs| == |p.txs.Keys|;
  }

  lemma {:induction false} SubsetSize(a: set<TxId>, b: set<TxId>)
    requires a <= b
    ensures |a| <= |b|
  {
    assert b == a + (b - a);
  }

  lemma {:induction false} ExpireOk(p: Pool, now: u64)
    requires PoolOk(p)
    ensures PoolOk(Expire(p, now)) && |Expire(p, now).txs| <= |p.txs|
  {
    hide Txid, SharesInput;
    FewerIsOk(p, Expire(p, now));
  }

  lemma {:induction false} RemoveOk(p: Pool, b: Body)
    requires PoolOk(p)
    ensures PoolOk(RemoveIncluded(p, b))
  {
    hide Txid, SharesInput, TouchedBy;
    FewerIsOk(p, RemoveIncluded(p, b));
  }

  lemma {:induction false} DropOk(p: Pool, ids: seq<TxId>)
    requires PoolOk(p)
    ensures PoolOk(DropIds(p, ids))
  {
    hide Txid, SharesInput;
    FewerIsOk(p, DropIds(p, ids));
  }

  lemma {:induction false} AddOk(p: Pool, tx: Transaction, q: Pool)
    requires PoolOk(p) && |p.txs| < MAX_ENTRIES && Txid(tx) !in p.txs
    requires forall a :: a in p.txs ==> !SharesInput(p.txs[a], tx)
    requires q.txs == p.txs[Txid(tx) := tx] && q.seen.Keys == p.seen.Keys + {Txid(tx)}
    ensures PoolOk(q)
  {
    hide Txid, SharesInput;
    var id := Txid(tx);
    forall a | a in p.txs ensures !SharesInput(tx, p.txs[a]) {
      SharingIsSymmetric(tx, p.txs[a]);
    }
    assert q.txs.Keys == p.txs.Keys + {id};
    assert |q.txs.Keys| == |p.txs.Keys| + 1;
    assert |q.txs| == |q.txs.Keys| && |p.txs| == |p.txs.Keys|;
  }

  lemma {:induction false} WithoutOk(p: Pool, held: TxId)
    requires PoolOk(p) && held in p.txs
    ensures PoolOk(Pool(p.txs - {held}, p.seen - {held})) && |p.txs - {held}| == |p.txs| - 1
  {
    hide Txid, SharesInput;
    var q := Pool(p.txs - {held}, p.seen - {held});
    FewerIsOk(p, q);
    assert q.txs.Keys == p.txs.Keys - {held};
    assert |q.txs| == |q.txs.Keys| && |p.txs| == |p.txs.Keys|;
  }

  lemma {:induction false} ReplaceOk(p: Pool, tx: Transaction, held: TxId, first: u64)
    requires PoolOk(p) && held in p.txs && Txid(tx) !in p.txs && Conflicts(p, tx) == {held}
    ensures PoolOk(Pool((p.txs - {held})[Txid(tx) := tx], (p.seen - {held})[Txid(tx) := first]))
  {
    hide PoolOk, Txid, SharesInput;
    var r := Pool(p.txs - {held}, p.seen - {held});
    WithoutOk(p, held);
    CapOf(p);
    SameKeys(r);
    forall a | a in r.txs ensures !SharesInput(r.txs[a], tx) {
      assert a !in Conflicts(p, tx);
    }
    AddOk(r, tx, Pool(r.txs[Txid(tx) := tx], r.seen[Txid(tx) := first]));
  }

  lemma {:induction false} CapOf(p: Pool)
    requires PoolOk(p)
    ensures |p.txs| <= MAX_ENTRIES
  {
    hide Txid, SharesInput;
  }

  lemma {:induction false} PlaceOk(p: Pool, tx: Transaction, now: u64)
    requires PoolOk(p) && |p.txs| < MAX_ENTRIES
    ensures PoolOk(Place(p, tx, now).1)
  {
    hide Txid, SharesInput, Upgrades, PoolOk;
    var conflicts := Conflicts(p, tx);
    SameKeys(p);
    if Txid(tx) in p.txs {
    } else if conflicts == {} {
      forall a | a in p.txs ensures !SharesInput(p.txs[a], tx) {
        assert a !in conflicts;
      }
      AddOk(p, tx, Place(p, tx, now).1);
    } else if |conflicts| == 1 {
      var held := TheOne(conflicts);
      ReplaceOk(p, tx, held, if held in p.seen then p.seen[held] else now);
    }
  }

  lemma {:induction false} SameKeys(p: Pool)
    requires PoolOk(p)
    ensures p.seen.Keys == p.txs.Keys
  {
    hide Txid, SharesInput;
  }

  lemma {:induction false} AdmitOk(p: Pool, tx: Transaction, now: u64)
    requires PoolOk(p)
    ensures PoolOk(Admit(p, tx, now).1)
  {
    hide PoolOk, Place, Expire;
    if |p.txs| < MAX_ENTRIES {
      PlaceOk(p, tx, now);
    } else {
      ExpireOk(p, now);
      if |Expire(p, now).txs| < MAX_ENTRIES {
        PlaceOk(Expire(p, now), tx, now);
      }
    }
  }

  // ------------------------------------------------------------ every run --

  datatype PoolEvent =
    | InsertTx(tx: Transaction, now: u64)
    | Sweep(now: u64)
    | Included(body: Body)
    | Forget(ids: seq<TxId>)

  function DoPool(p: Pool, e: PoolEvent): Pool {
    match e
    case InsertTx(tx, now) => Admit(p, tx, now).1
    case Sweep(now) => Expire(p, now)
    case Included(body) => RemoveIncluded(p, body)
    case Forget(ids) => DropIds(p, ids)
  }

  function RunPool(p: Pool, events: seq<PoolEvent>): Pool {
    if events == [] then p else DoPool(RunPool(p, events[..|events| - 1]), events[|events| - 1])
  }

  lemma {:induction false} DoPoolOk(p: Pool, e: PoolEvent)
    requires PoolOk(p)
    ensures PoolOk(DoPool(p, e))
  {
    hide PoolOk, Admit, Expire, RemoveIncluded, DropIds;
    match e
    case InsertTx(tx, now) => AdmitOk(p, tx, now);
    case Sweep(now) => ExpireOk(p, now);
    case Included(body) => RemoveOk(p, body);
    case Forget(ids) => DropOk(p, ids);
  }

  /** The invariant holds in every run, from the empty pool or any pool that has it. */
  lemma {:induction false} EveryRunOk(p: Pool, events: seq<PoolEvent>)
    requires PoolOk(p)
    ensures PoolOk(RunPool(p, events))
    decreases |events|
  {
    hide PoolOk, DoPool;
    if events != [] {
      EveryRunOk(p, events[..|events| - 1]);
      DoPoolOk(RunPool(p, events[..|events| - 1]), events[|events| - 1]);
    }
  }

  // --------------------------------------------------------- no second life --

  /** Some held transaction spends c, and was first seen at time s. */
  ghost predicate HeldSince(p: Pool, c: Bytes32, s: u64) {
    exists id :: id in p.txs && c in Spent(p.txs[id]) && id in p.seen && p.seen[id] == s
  }

  ghost predicate Held(p: Pool, c: Bytes32) {
    exists id :: id in p.txs && c in Spent(p.txs[id])
  }

  /** An insertion into a full pool, which sweeps it first, once the six hours since s are over. */
  ghost predicate LateSweep(p: Pool, e: PoolEvent, s: u64) {
    e.InsertTx? && |p.txs| >= MAX_ENTRIES && e.now >= s + MAX_AGE
  }

  lemma {:induction false} PlaceKeepsAge(p: Pool, tx: Transaction, now: u64, c: Bytes32, s: u64)
    requires PoolOk(p) && HeldSince(p, c, s) && |p.txs| < MAX_ENTRIES
    ensures HeldSince(Place(p, tx, now).1, c, s)
  {
    hide Txid, Spent, LegacyTxid, HasFullBinding;
    var a :| a in p.txs && c in Spent(p.txs[a]) && p.seen[a] == s;
    var q := Place(p, tx, now).1;
    var conflicts := Conflicts(p, tx);
    if Place(p, tx, now).0 == Added && conflicts != {} && a in conflicts {
      var held := TheOne(conflicts);
      LegacySpendsAlike(p.txs[held], tx);
      assert a == held;
      assert Txid(tx) in q.txs && c in Spent(q.txs[Txid(tx)]) && q.seen[Txid(tx)] == s;
    } else {
      assert a in q.txs && c in Spent(q.txs[a]) && q.seen[a] == s;
    }
  }

  lemma {:induction false} ExpireKeepsAge(p: Pool, now: u64, c: Bytes32, s: u64)
    requires PoolOk(p) && HeldSince(p, c, s) && now < s + MAX_AGE && s > 0
    ensures HeldSince(Expire(p, now), c, s)
  {
    hide Txid, Spent;
    var a :| a in p.txs && c in Spent(p.txs[a]) && p.seen[a] == s;
    assert a in Expire(p, now).txs;
  }

  /** What Place enters anew it enters with the time of the call. */
  lemma {:induction false} PlacedAnew(p: Pool, tx: Transaction, now: u64, c: Bytes32)
    requires PoolOk(p) && !Held(p, c) && |p.txs| < MAX_ENTRIES && Held(Place(p, tx, now).1, c)
    ensures HeldSince(Place(p, tx, now).1, c, now)
  {
    hide Txid, Spent, LegacyTxid, HasFullBinding;
    var q := Place(p, tx, now).1;
    assert forall id :: id in p.txs ==> c !in Spent(p.txs[id]);
    var b :| b in q.txs && c in Spent(q.txs[b]);
    var conflicts := Conflicts(p, tx);
    if conflicts != {} {
      var held := TheOne(conflicts);
      LegacySpendsAlike(p.txs[held], tx);
    }
    assert q.seen[b] == now;
  }

  lemma {:induction false} OneAge(p: Pool, c: Bytes32, s: u64, t: u64)
    requires PoolOk(p) && HeldSince(p, c, s) && HeldSince(p, c, t)
    ensures s == t
  {
    hide Txid, Spent;
    var a :| a in p.txs && c in Spent(p.txs[a]) && a in p.seen && p.seen[a] == s;
    var b :| b in p.txs && c in Spent(p.txs[b]) && b in p.seen && p.seen[b] == t;
    OneHolder(p, a, b, c);
  }

  /** A spend that is still held after an event is held since the same time, unless the event swept it out and let it in again. */
  lemma {:induction false} EventKeepsAgeExactly(p: Pool, e: PoolEvent, c: Bytes32, s: u64)
    requires PoolOk(p) && HeldSince(p, c, s) && s > 0 && Held(DoPool(p, e), c)
    ensures HeldSince(DoPool(p, e), c, s) <==> !LateSweep(p, e, s)
  {
    hide Place, Expire, Txid;
    match e
    case InsertTx(tx, now) =>
      hide PoolOk, HeldSince, Held;
      if |p.txs| < MAX_ENTRIES {
        PlaceKeepsAge(p, tx, now, c, s);
      } else {
        ExpireOk(p, now);
        if now < s + MAX_AGE {
          ExpireKeepsAge(p, now, c, s);
          if |Expire(p, now).txs| < MAX_ENTRIES {
            PlaceKeepsAge(Expire(p, now), tx, now, c, s);
          }
        } else {
          LetInAgain(p, tx, now, c, s);
        }
      }
    case Sweep(now) =>
      if now < s + MAX_AGE {
        ExpireKeepsAge(p, now, c, s);
      } else {
        SweptAfterSixHours(p, c, s, now);
      }
    case Included(body) =>
      FewerKeepsAge(p, RemoveIncluded(p, body), c, s);
    case Forget(ids) =>
      FewerKeepsAge(p, DropIds(p, ids), c, s);
  }

  lemma {:induction false} LetInAgain(p: Pool, tx: Transaction, now: u64, c: Bytes32, s: u64)
    requires PoolOk(p) && HeldSince(p, c, s) && |p.txs| >= MAX_ENTRIES && now >= s + MAX_AGE && Held(Admit(p, tx, now).1, c)
    ensures !HeldSince(Admit(p, tx, now).1, c, s)
  {
    hide Place, Expire, PoolOk, HeldSince, Held;
    ExpireOk(p, now);
    SweptAfterSixHours(p, c, s, now);
    var swept := Expire(p, now);
    if |swept.txs| < MAX_ENTRIES {
      PlacedAnew(swept, tx, now, c);
      AdmitOk(p, tx, now);
      if HeldSince(Admit(p, tx, now).1, c, s) {
        OneAge(Admit(p, tx, now).1, c, s, now);
      }
    }
  }

  /**
    The exception does happen: a full pool offered again, six hours later, a transaction it holds.  The sweep within the
    insertion forgets it, and the insertion lets it in with a new first-seen time.
   */
  lemma {:induction false} FullPoolRenews(p: Pool, tx: Transaction, c: Bytes32, s: u64, now: u64)
    requires PoolOk(p) && |p.txs| == MAX_ENTRIES
    requires Txid(tx) in p.txs && p.txs[Txid(tx)] == tx && c in Spent(tx)
    requires p.seen[Txid(tx)] == s && s > 0 && now >= s + MAX_AGE
    ensures HeldSince(p, c, s) && LateSweep(p, InsertTx(tx, now), s)
    ensures Admit(p, tx, now).0 == Added && HeldSince(Admit(p, tx, now).1, c, now) && now != s
  {
    hide Txid, Spent, LegacyTxid, HasFullBinding;
    var id := Txid(tx);
    var swept := Expire(p, now);
    assert id !in swept.txs && id !in swept.seen;
    assert swept.txs.Keys <= p.txs.Keys - {id};
    SubsetSize(swept.txs.Keys, p.txs.Keys - {id});
    assert |swept.txs| == |swept.txs.Keys| && |p.txs| == |p.txs.Keys|;
    assert Conflicts(swept, tx) == {} by {
      forall a | a in swept.txs ensures !SharesInput(swept.txs[a], tx) {
        assert !SharesInput(p.txs[a], p.txs[id]);
      }
    }
    assert Admit(p, tx, now) == Place(swept, tx, now);
    assert Place(swept, tx, now).1.txs[id] == tx && Place(swept, tx, now).1.seen[id] == now;
  }

  lemma {:induction false} OneHolder(p: Pool, a: TxId, b: TxId, c: Bytes32)
    requires PoolOk(p) && a in p.txs && b in p.txs && c in Spent(p.txs[a]) && c in Spent(p.txs[b])
    ensures a == b
  {
    hide Txid, Spent;
    assert c in Spent(p.txs[a]) * Spent(p.txs[b]);
  }

  lemma {:induction false} FewerKeepsAge(p: Pool, q: Pool, c: Bytes32, s: u64)
    requires PoolOk(p) && HeldSince(p, c, s) && Held(q, c)
    requires q.seen.Keys == q.txs.Keys && q.txs.Keys <= p.txs.Keys
    requires forall id :: id in q.txs ==> q.txs[id] == p.txs[id] && q.seen[id] == p.seen[id]
    ensures HeldSince(q, c, s)
  {
    hide Txid, Spent;
    var a :| a in p.txs && c in Spent(p.txs[a]) && p.seen[a] == s;
    var b :| b in q.txs && c in Spent(q.txs[b]);
    OneHolder(p, a, b, c);
  }

  /** The spend of c is held after every prefix of the run. */
  ghost predicate HeldThroughout(p: Pool, events: seq<PoolEvent>, c: Bytes32) {
    forall n {:trigger events[..n]} :: 0 <= n <= |events| ==> Held(RunPool(p, events[..n]), c)
  }

  /**
    No second life.  However often a held spend is replaced by a more complete shape of itself, its first-seen time
    stays; so the first sweep six hours after that time forgets it.  Only a full pool can sweep the spend out
    and let it in again within one insertion.
   */
  lemma {:induction false} UpgradesDoNotExtend(p: Pool, events: seq<PoolEvent>, c: Bytes32, s: u64, now: u64)
    requires PoolOk(p) && HeldSince(p, c, s) && s > 0 && HeldThroughout(p, events, c)
    requires forall n :: 0 <= n < |events| ==> !LateSweep(RunPool(p, events[..n]), events[n], s)
    requires now >= s + MAX_AGE
    ensures HeldSince(RunPool(p, events), c, s)
    ensures !Held(Expire(RunPool(p, events), now), c)
    decreases |events|
  {
    hide DoPool, Expire, PoolOk, HeldSince, Held, LateSweep;
    if events != [] {
      var n := |events| - 1;
      assert events[..|events|] == events;
      forall k | 0 <= k <= n ensures Held(RunPool(p, events[..n][..k]), c) {
        assert events[..n][..k] == events[..k];
      }
      forall k | 0 <= k < n ensures !LateSweep(RunPool(p, events[..n][..k]), events[..n][k], s) {
        assert events[..n][..k] == events[..k];
      }
      UpgradesDoNotExtend(p, events[..n], c, s, now);
      EveryRunOk(p, events[..n]);
      EventKeepsAgeExactly(RunPool(p, events[..n]), events[n], c, s);
    }
    EveryRunOk(p, events);
    SweptAfterSixHours(RunPool(p, events), c, s, now);
  }

  lemma {:induction false} SweptAfterSixHours(p: Pool, c: Bytes32, s: u64, now: u64)
    requires PoolOk(p) && HeldSince(p, c, s) && now >= s + MAX_AGE
    ensures !Held(Expire(p, now), c)
  {
    hide Txid, Spent;
    var a :| a in p.txs && c in Spent(p.txs[a]) && p.seen[a] == s;
    if Held(Expire(p, now), c) {
      var b :| b in Expire(p, now).txs && c in Spent(Expire(p, now).txs[b]);
      OneHolder(p, a, b, c);
      assert false;
    }
  }

  // ------------------------------------------------------------- selection --

  function Fee(t: Transaction): u64 {
    var fee := CheckedFeeSum(t.kernels);
    if fee.Some? then fee.value else 0
  }

  /** Ids in byte order; the order itself is not modelled, only that different ids rank differently. */
  type IdOrder = TxId -> nat

  ghost predicate Injective(order: IdOrder) {
    forall a, b :: order(a) == order(b) ==> a == b
  }

  /** Highest fee first, then the smaller id. */
  function Ranks(order: IdOrder): (Transaction, Transaction) -> bool {
    (a: Transaction, b: Transaction) => Fee(a) > Fee(b) || (Fee(a) == Fee(b) && order(Txid(a)) <= order(Txid(b)))
  }

  predicate Clashes(t: Transaction, chosen: seq<Transaction>) {
    exists i :: 0 <= i < |chosen| && SharesInput(t, chosen[i])
  }

  /** The walk over ranked candidates: skip what clashes, stop at the limit. */
  function Greedy(s: seq<Transaction>, max: nat, chosen: seq<Transaction>): seq<Transaction>
    decreases |s|
  {
    if s == [] || |chosen| >= max then chosen
    else Greedy(s[1..], max, if Clashes(s[0], chosen) then chosen else chosen + [s[0]])
  }

  ghost predicate ConflictFree(s: seq<Transaction>) {
    forall i, j :: 0 <= i < j < |s| ==> !SharesInput(s[i], s[j])
  }

  /** A selection starts with what was already chosen, stays conflict-free and within the limit. */
  lemma {:induction false} GreedySound(s: seq<Transaction>, max: nat, chosen: seq<Transaction>)
    requires ConflictFree(chosen) && |chosen| <= max
    ensures var r := Greedy(s, max, chosen);
            && ConflictFree(r) && |chosen| <= |r| <= max && r[..|chosen|] == chosen
            && forall i :: |chosen| <= i < |r| ==> r[i] in s
    decreases |s|
  {
    hide SharesInput;
    if s != [] && |chosen| < max {
      if Clashes(s[0], chosen) {
        GreedySound(s[1..], max, chosen);
      } else {
        var more := chosen + [s[0]];
        forall i, j | 0 <= i < j < |more| ensures !SharesInput(more[i], more[j]) {
          if j == |chosen| {
            SharingIsSymmetric(more[i], s[0]);
          }
        }
        GreedySound(s[1..], max, more);
        var r := Greedy(s, max, chosen);
        assert r[..|chosen|] == r[..|more|][..|chosen|];
        assert r[|chosen|] == r[..|more|][|chosen|];
      }
    }
  }

  /** A candidate was chosen, or the block was full, or it clashes with a choice ranked before it. */
  ghost predicate Excused(t: Transaction, before: seq<Transaction>, r: seq<Transaction>, max: nat) {
    t in r || |r| == max || exists i :: 0 <= i < |r| && SharesInput(t, r[i]) && r[i] in before
  }

  lemma {:induction false} ExcusedByMore(t: Transaction, a: seq<Transaction>, b: seq<Transaction>, r: seq<Transaction>, max: nat)
    requires Excused(t, a, r, max) && forall x :: x in a ==> x in b
    ensures Excused(t, b, r, max)
  {
    hide SharesInput;
  }

  lemma {:induction false} FirstIsExcused(s: seq<Transaction>, max: nat, chosen: seq<Transaction>)
    requires ConflictFree(chosen) && |chosen| < max && s != []
    ensures Excused(s[0], chosen, Greedy(s, max, chosen), max)
  {
    hide SharesInput, ConflictFree;
    var r := Greedy(s, max, chosen);
    GreedySound(s, max, chosen);
    if Clashes(s[0], chosen) {
      var i :| 0 <= i < |chosen| && SharesInput(s[0], chosen[i]);
      assert r[i] == r[..|chosen|][i];
    } else {
      var next := chosen + [s[0]];
      NextIsConflictFree(s[0], chosen);
      GreedySound(s[1..], max, next);
      assert r[|chosen|] == r[..|next|][|chosen|];
    }
  }

  /** Whoever was left out clashes with a choice ranked before it, or the block was full. */
  lemma {:induction false} GreedyMaximal(s: seq<Transaction>, max: nat, chosen: seq<Transaction>, k: nat)
    requires ConflictFree(chosen) && |chosen| <= max && k < |s|
    ensures Excused(s[k], chosen + s[..k], Greedy(s, max, chosen), max)
    decreases |s|
  {
    hide SharesInput, ConflictFree, Clashes;
    if |chosen| < max {
      if k == 0 {
        FirstIsExcused(s, max, chosen);
        ExcusedByMore(s[0], chosen, chosen + s[..0], Greedy(s, max, chosen), max);
      } else {
        var next := if Clashes(s[0], chosen) then chosen else chosen + [s[0]];
        NextIsConflictFree(s[0], chosen);
        GreedyMaximal(s[1..], max, next, k - 1);
        hide Excused, Greedy;
        assert s[..k] == [s[0]] + s[1..][..k - 1];
        ExcusedByMore(s[k], next + s[1..][..k - 1], chosen + s[..k], Greedy(s[1..], max, next), max);
        GreedyStep(s, max, chosen);
      }
    } else {
      GreedyFull(s, max, chosen);
    }
  }

  lemma {:induction false} GreedyStep(s: seq<Transaction>, max: nat, chosen: seq<Transaction>)
    requires s != [] && |chosen| < max
    ensures Greedy(s, max, chosen) == Greedy(s[1..], max, if Clashes(s[0], chosen) then chosen else chosen + [s[0]])
  {
    hide Clashes;
  }

  lemma {:induction false} GreedyFull(s: seq<Transaction>, max: nat, chosen: seq<Transaction>)
    requires |chosen| == max
    ensures |Greedy(s, max, chosen)| == max
  {
  }

  lemma {:induction false} NextIsConflictFree(t: Transaction, chosen: seq<Transaction>)
    requires ConflictFree(chosen)
    ensures ConflictFree(if Clashes(t, chosen) then chosen else chosen + [t])
  {
    hide SharesInput;
    var more := chosen + [t];
    if !Clashes(t, chosen) {
      forall i, j | 0 <= i < j < |more| ensures !SharesInput(more[i], more[j]) {
        if j == |chosen| {
          SharingIsSymmetric(more[i], t);
        }
      }
    }
  }

  /** Without conflicts the walk takes the top of the ranking. */
  lemma {:induction false} GreedyTakesTop(s: seq<Transaction>, max: nat, chosen: seq<Transaction>)
    requires ConflictFree(chosen + s) && |chosen| <= max
    ensures Greedy(s, max, chosen) == chosen + s[..if |s| <= max - |chosen| then |s| else max - |chosen|]
    decreases |s|
  {
    hide SharesInput;
    if s != [] && |chosen| < max {
      assert (chosen + s)[|chosen|] == s[0] && forall i :: 0 <= i < |chosen| ==> (chosen + s)[i] == chosen[i];
      if Clashes(s[0], chosen) {
        var i :| 0 <= i < |chosen| && SharesInput(s[0], chosen[i]);
        SharingIsSymmetric(s[0], chosen[i]);
        assert false;
      }
      assert (chosen + [s[0]]) + s[1..] == chosen + s;
      GreedyTakesTop(s[1..], max, chosen + [s[0]]);
    }
  }

  // ------------------------------------------------------- ranking a pool --

  ghost predicate NoRepeats(s: seq<Transaction>) {
    forall i, j :: 0 <= i < j < |s| ==> s[i] != s[j]
  }

  /** The held transactions, each once, in rank order. */
  ghost predicate Ranking(p: Pool, order: IdOrder, s: seq<Transaction>) {
    && Ordered(Ranks(order), s) && NoRepeats(s)
    && forall t :: t in s <==> t in p.txs.Values
  }

  lemma {:induction false} RepeatFreeMultiset(s: seq<Transaction>)
    requires NoRepeats(s)
    ensures multiset(s) == multiset(set t | t in s)
  {
    if s != [] {
      RepeatFreeMultiset(s[1..]);
      assert s == [s[0]] + s[1..];
      assert s[0] !in s[1..];
      assert (set t | t in s) == {s[0]} + set t | t in s[1..];
    }
  }

  lemma {:induction false} RanksIsOrder(order: IdOrder)
    ensures IsTotal(Ranks(order)) && IsTransitive(Ranks(order))
  {
    hide Fee, Txid;
  }

  lemma {:induction false} RankingHasNoTies(p: Pool, order: IdOrder, s: seq<Transaction>)
    requires PoolOk(p) && Injective(order) && forall t :: t in s ==> t in p.txs.Values
    ensures NoTies(Ranks(order), s)
  {
    hide Fee, Txid, SharesInput;
    forall x, y | x in s && y in s && Ranks(order)(x, y) && Ranks(order)(y, x) ensures x == y {
      assert x in p.txs.Values && y in p.txs.Values;
      var a :| a in p.txs && p.txs[a] == x;
      var b :| b in p.txs && p.txs[b] == y;
      assert order(Txid(x)) == order(Txid(y));
    }
  }

  /** A pool has one ranking, whatever order its map is walked in. */
  lemma {:induction false} RankingUnique(p: Pool, order: IdOrder, a: seq<Transaction>, b: seq<Transaction>)
    requires PoolOk(p) && Injective(order) && Ranking(p, order, a) && Ranking(p, order, b)
    ensures a == b
  {
    hide PoolOk, Injective, Ranks, NoTies, IsTotal, IsTransitive, Ordered, NoRepeats;
    RanksIsOrder(order);
    RankingHasNoTies(p, order, a);
    RepeatFreeMultiset(a);
    RepeatFreeMultiset(b);
    assert (set t | t in a) == (set t | t in b);
    OrderedUnique(Ranks(order), a, b);
  }

  lemma {:induction false} RankingIsConflictFree(p: Pool, order: IdOrder, s: seq<Transaction>)
    requires PoolOk(p) && Ranking(p, order, s)
    ensures ConflictFree(s)
  {
    hide Txid, SharesInput, Ranks, Ordered;
    forall i, j | 0 <= i < j < |s| ensures !SharesInput(s[i], s[j]) {
      assert s[i] in p.txs.Values && s[j] in p.txs.Values;
      var a :| a in p.txs && p.txs[a] == s[i];
      var b :| b in p.txs && p.txs[b] == s[j];
      assert s[i] != s[j];
    }
  }

  lemma {:induction false} TwiceCounted(s: seq<Transaction>, i: nat, j: nat)
    requires i < j < |s| && s[i] == s[j]
    ensures multiset(s)[s[i]] >= 2
  {
    assert s == s[..j] + s[j..];
    assert s[..j][i] == s[i] && s[j..][0] == s[i];
    assert s[i] in multiset(s[..j]) && s[i] in multiset(s[j..]);
  }

  lemma {:induction false} SortKeepsRepeatFree(le: (Transaction, Transaction) -> bool, s: seq<Transaction>)
    requires NoRepeats(s)
    ensures NoRepeats(Sort(le, s))
  {
    hide NoRepeats, Sort;
    var r := Sort(le, s);
    SortMultiset(le, s);
    RepeatFreeMultiset(s);
    if exists i, j :: 0 <= i < j < |r| && r[i] == r[j] {
      var i, j :| 0 <= i < j < |r| && r[i] == r[j];
      TwiceCounted(r, i, j);
      assert false;
    }
    NoPairs(r);
  }

  lemma {:induction false} NoPairs(s: seq<Transaction>)
    requires !exists i, j :: 0 <= i < j < |s| && s[i] == s[j]
    ensures NoRepeats(s)
  {
  }

  lemma {:induction false} SortedIsRanking(p: Pool, order: IdOrder, s: seq<Transaction>)
    requires NoRepeats(s) && forall t :: t in s <==> t in p.txs.Values
    ensures Ranking(p, order, Sort(Ranks(order), s))
  {
    hide Ranks, Sort, NoRepeats, Ordered;
    RanksIsOrder(order);
    SortOrdered(Ranks(order), s);
    SortElements(Ranks(order), s);
    SortKeepsRepeatFree(Ranks(order), s);
  }

  // -------------------------------------------------------------- the object --

  class Mempool {
    const order: IdOrder
    var txs: map<TxId, Transaction>
    var seen: map<TxId, u64>

    function State(): Pool
      reads this
    {
      Pool(txs, seen)
    }

    ghost predicate Valid()
      reads this
    {
      PoolOk(State()) && Injective(order)
    }

    constructor (order: IdOrder)
      requires Injective(order)
      ensures Valid() && State() == NO_TXS && this.order == order
    {
      this.order := order;
      txs := map[];
      seen := map[];
    }

    /** `expire`: how many were dropped. */
    method ExpireOld(now: u64) returns (dropped: nat)
      requires Valid()
      modifies this
      ensures Valid() && State() == Expire(old(State()), now)
      ensures dropped == |old(txs)| - |txs|
    {
      hide PoolOk, Injective;
      ExpireOk(State(), now);
      var before := |txs|;
      var cutoff := Cutoff(now);
      txs := map id | id in txs && (id in seen ==> seen[id] > cutoff) :: txs[id];
      seen := map id | id in seen && id in txs :: seen[id];
      return before - |txs|;
    }

    /** `insert_checked`. */
    method InsertChecked(tx: Transaction, now: u64) returns (outcome: InsertOutcome)
      requires Valid()
      modifies this
      ensures Valid() && (outcome, State()) == Admit(old(State()), tx, now)
    {
      hide PoolOk, Injective, Txid, SharesInput, Upgrades, Expire;
      AdmitOk(State(), tx, now);
      if |txs| >= MAX_ENTRIES {
        var _ := ExpireOld(now);
        if |txs| >= MAX_ENTRIES {
          return Full;
        }
      }
      var id := Txid(tx);
      if id in txs {
        return Known;
      }
      var conflicts := Conflicts(State(), tx);
      if conflicts != {} {
        if |conflicts| != 1 || !Upgrades(txs[TheOne(conflicts)], tx) {
          return Conflict;
        }
        var held := TheOne(conflicts);
        var first := if held in seen then seen[held] else now;
        txs := txs - {held};
        seen := seen - {held};
        txs := txs[id := tx];
        seen := seen[id := first];
        return Added;
      }
      txs := txs[id := tx];
      if id !in seen {
        seen := seen[id := now];
      }
      return Added;
    }

    /** `remove_included`. */
    method RemoveConsumed(b: Body)
      requires Valid()
      modifies this
      ensures Valid() && State() == RemoveIncluded(old(State()), b)
    {
      hide PoolOk, Injective, TouchedBy;
      RemoveOk(State(), b);
      txs := map id | id in txs && !TouchedBy(txs[id], b) :: txs[id];
      seen := map id | id in seen && id in txs :: seen[id];
    }

    /** `drop_ids`, one id after another. */
    method DropAll(ids: seq<TxId>) returns (dropped: nat)
      requires Valid()
      modifies this
      ensures Valid() && State() == DropIds(old(State()), ids)
      ensures dropped == |old(txs)| - |txs|
    {
      hide PoolOk, Injective, DropIds;
      DropOk(State(), ids);
      DropNone(State());
      var size := |txs|;
      assert ids[..0] == [] && ids[..|ids|] == ids;
      for i := 0 to |ids|
        invariant State() == DropIds(old(State()), ids[..i])
      {
        DropOneMore(old(State()), ids, i);
        txs := txs - {ids[i]};
        seen := seen - {ids[i]};
      }
      FewerTxs(old(State()), ids);
      return size - |txs|;
    }

    /** The held transactions in whatever order the map gives them. */
    method Candidates() returns (candidates: seq<Transaction>)
      ensures NoRepeats(candidates) && forall t :: t in candidates <==> t in txs.Values
    {
      candidates := [];
      var rest := txs.Values;
      while rest != {}
        invariant rest <= txs.Values
        invariant NoRepeats(candidates) && forall t :: t in candidates <==> t in txs.Values - rest
        decreases |rest|
      {
        var t :| t in rest;
        assert t !in candidates;
        candidates := candidates + [t];
        rest := rest - {t};
      }
    }

    /**
      `select_for_block`: a function of the set of held transactions.  Whatever order the map is walked in, the
      result is the top of the one ranking by fee and id.
     */
    method SelectForBlock(max: nat) returns (chosen: seq<Transaction>, ghost ranking: seq<Transaction>)
      requires Valid()
      ensures Ranking(State(), order, ranking) && forall s :: Ranking(State(), order, s) ==> s == ranking
      ensures chosen == Greedy(ranking, max, [])
      ensures chosen == ranking[..if |ranking| <= max then |ranking| else max]
    {
      hide PoolOk, Injective, Ranking, Ranks, SharesInput, Sort, Ordered, Clashes, Spent, ConflictFree, SpentBy;
      var candidates := Candidates();
      var sorted := Sort(Ranks(order), candidates);
      SortedIsRanking(State(), order, candidates);
      ranking := sorted;
      forall s | Ranking(State(), order, s) ensures s == ranking {
        RankingUnique(State(), order, s, ranking);
      }
      RankingIsConflictFree(State(), order, ranking);
      assert [] + ranking == ranking;
      GreedyTakesTop(ranking, max, []);
      chosen := [];
      NothingSpent();
      var spent: set<Bytes32> := {};
      var i := 0;
      assert sorted[0..] == sorted;
      while i < |sorted| && |chosen| < max
        invariant i <= |sorted|
        invariant Greedy(ranking, max, []) == Greedy(sorted[i..], max, chosen)
        invariant SpentBy(spent, chosen)
      {
        var t := sorted[i];
        SpentDecides(t, chosen, spent);
        SpentByMore(spent, chosen, t);
        assert sorted[i..][0] == t && sorted[i..][1..] == sorted[i + 1..];
        if Spent(t) * spent == {} {
          spent := spent + Spent(t);
          chosen := chosen + [t];
        }
        i := i + 1;
      }
    }
  }

  lemma {:induction false} DropNone(p: Pool)
    ensures DropIds(p, []) == p
  {
    assert Ids([]) == {};
    assert p.txs - {} == p.txs && p.seen - {} == p.seen;
  }

  lemma {:induction false} FewerTxs(p: Pool, ids: seq<TxId>)
    ensures |DropIds(p, ids).txs| <= |p.txs|
  {
    var q := DropIds(p, ids);
    SubsetSize(q.txs.Keys, p.txs.Keys);
    assert |p.txs| == |p.txs.Keys| && |q.txs| == |q.txs.Keys|;
  }

  lemma {:induction false} DropOneMore(p: Pool, ids: seq<TxId>, i: nat)
    requires i < |ids|
    ensures var q := DropIds(p, ids[..i]); DropIds(p, ids[..i + 1]) == Pool(q.txs - {ids[i]}, q.seen - {ids[i]})
  {
    assert ids[..i + 1] == ids[..i] + [ids[i]];
    var a, b := Ids(ids[..i]), Ids(ids[..i + 1]);
    assert b == a + {ids[i]};
    assert p.txs - b == (p.txs - a) - {ids[i]};
    assert p.seen - b == (p.seen - a) - {ids[i]};
  }

  /** The running set of commitments the chosen transactions spend. */
  ghost predicate SpentBy(spent: set<Bytes32>, chosen: seq<Transaction>) {
    forall c :: c in spent <==> exists k :: 0 <= k < |chosen| && c in Spent(chosen[k])
  }

  lemma {:induction false} NothingSpent()
    ensures SpentBy({}, [])
  {
  }

  lemma {:induction false} SpentByMore(spent: set<Bytes32>, chosen: seq<Transaction>, t: Transaction)
    requires SpentBy(spent, chosen)
    ensures SpentBy(spent + Spent(t), chosen + [t])
  {
    hide Spent;
    var more := chosen + [t];
    forall c ensures c in spent + Spent(t) <==> exists k :: 0 <= k < |more| && c in Spent(more[k]) {
      if c in spent {
        var k :| 0 <= k < |chosen| && c in Spent(chosen[k]);
        assert more[k] == chosen[k];
      }
      if c in Spent(t) {
        assert more[|chosen|] == t;
      }
      if exists k :: 0 <= k < |more| && c in Spent(more[k]) {
        var k :| 0 <= k < |more| && c in Spent(more[k]);
        assert k < |chosen| ==> more[k] == chosen[k];
      }
    }
  }

  /** The set of spent commitments answers the same question as the list of choices. */
  lemma {:induction false} SpentDecides(t: Transaction, chosen: seq<Transaction>, spent: set<Bytes32>)
    requires SpentBy(spent, chosen)
    ensures Clashes(t, chosen) <==> Spent(t) * spent != {}
  {
    hide Spent;
    if Clashes(t, chosen) {
      var k :| 0 <= k < |chosen| && SharesInput(t, chosen[k]);
      var c :| c in Spent(t) * Spent(chosen[k]);
      assert c in spent;
    }
    if Spent(t) * spent != {} {
      var c :| c in Spent(t) * spent;
      var k :| 0 <= k < |chosen| && c in Spent(chosen[k]);
      assert c in Spent(t) * Spent(chosen[k]);
    }
  }
}
