/**
  The unspent-output set of crates/nightfall-ledger/src/utxo.rs: a map sorted by commitment, and the
  running commitment sum that replaces walking it.
 */
module Utxos {
  import opened Wrappers
  import opened Curve

  datatype Utxo = Utxo(outputPk: Bytes32, height: nat, isCoinbase: bool)

  type Entries = map<Bytes32, Utxo>

  /** A total order on 32-byte strings. */
  function Key(c: Bytes32): nat {
    match c
    case NotAPoint(b) => 2 * b
    case Encoding(p) => 2 * (p.g * L + p.h) + 1
  }

  lemma {:induction false} KeyInjective(c: Bytes32, d: Bytes32)
    requires Key(c) == Key(d)
    ensures c == d
  {
    if c.Encoding? && d.Encoding? {
      var e := c.point.g - d.point.g;
      assert e >= 1 ==> e * L >= L;
      assert e <= -1 ==> e * L <= -L;
      assert e * L == d.point.h - c.point.h;
    }
  }

  lemma {:induction false} SmallestExists(s: set<Bytes32>)
    requires s != {}
    ensures exists c :: c in s && forall d :: d in s ==> Key(c) <= Key(d)
  {
    var c :| c in s;
    if s != {c} {
      SmallestExists(s - {c});
      var e :| e in s - {c} && forall d :: d in s - {c} ==> Key(e) <= Key(d);
      var least := if Key(c) <= Key(e) then c else e;
      assert forall d :: d in s ==> d == c || d in s - {c};
      assert forall d :: d in s ==> Key(least) <= Key(d);
    }
  }

  /** The first commitment in map order. */
  function Smallest(s: set<Bytes32>): (c: Bytes32)
    requires s != {}
    ensures c in s && forall d :: d in s ==> Key(c) <= Key(d)
  {
    SmallestExists(s);
    assert forall c, d :: c in s && d in s && Key(c) == Key(d) ==> c == d by {
      forall c, d | c in s && d in s && Key(c) == Key(d) ensures c == d {
        KeyInjective(c, d);
      }
    }
    var c :| c in s && forall d :: d in s ==> Key(c) <= Key(d);
    c
  }

  /** The commitments of the set added up in map order; a malformed one spoils the answer. */
  function Walk(s: set<Bytes32>): Option<Point> {
    if s == {} then Some(Identity())
    else
      var c := Smallest(s);
      match (Decompress(c), Walk(s - {c}))
      case (Some(p), Some(q)) => Some(Plus(p, q))
      case _ => None
  }

  // --------------------------------------------------- integer sums over a set --

  ghost function SetSum(s: set<Bytes32>, f: Bytes32 -> int): int {
    if s == {} then 0 else f(Smallest(s)) + SetSum(s - {Smallest(s)}, f)
  }

  lemma {:induction false} SetSumAdd(s: set<Bytes32>, c: Bytes32, f: Bytes32 -> int)
    requires c !in s
    ensures SetSum(s + {c}, f) == SetSum(s, f) + f(c)
    decreases s
  {
    var t := s + {c};
    var first := Smallest(t);
    if first == c {
      assert t - {c} == s;
    } else {
      KeyInjectiveOn(s, Smallest(s), first);
      assert t - {first} == (s - {first}) + {c};
      SetSumAdd(s - {first}, c, f);
    }
  }

  lemma {:induction false} KeyInjectiveOn(s: set<Bytes32>, c: Bytes32, d: Bytes32)
    requires c in s && d in s
    requires forall e :: e in s ==> Key(c) <= Key(e)
    requires forall e :: e in s ==> Key(d) <= Key(e)
    ensures c == d
  {
    assert Key(c) <= Key(d) <= Key(c);
    KeyInjective(c, d);
  }

  lemma {:induction false} SetSumRemove(s: set<Bytes32>, c: Bytes32, f: Bytes32 -> int)
    requires c in s
    ensures SetSum(s - {c}, f) == SetSum(s, f) - f(c)
  {
    SetSumAdd(s - {c}, c, f);
    assert s - {c} + {c} == s;
  }

  ghost function BadCount(c: Bytes32): int {
    if c.NotAPoint? then 1 else 0
  }

  /** The walk sees a malformed entry, or a point with the integer coordinate sums of the set. */
  lemma {:induction false} WalkCoordinates(s: set<Bytes32>)
    ensures SetSum(s, BadCount) >= 0
    ensures Walk(s).Some? <==> SetSum(s, BadCount) == 0
    ensures Walk(s).Some? ==> HasCoordinates(Walk(s).value, SetSum(s, GOf), SetSum(s, HOf))
    ensures Walk(s).Some? <==> forall c :: c in s ==> c.Encoding?
  {
    hide HasCoordinates, Plus;
    if s == {} {
      OwnCoordinates(Identity());
    } else {
      var c := Smallest(s);
      WalkCoordinates(s - {c});
      if Walk(s).Some? {
        OwnCoordinates(c.point);
        PlusCoordinates(c.point, GOf(c), HOf(c), Walk(s - {c}).value, SetSum(s - {c}, GOf), SetSum(s - {c}, HOf));
      }
      if Walk(s - {c}).None? {
        var d :| d in s - {c} && !d.Encoding?;
        assert d in s;
      }
    }
  }

  // ------------------------------------------------------ the running sum --

  /** Running fields that describe exactly the set `s`. */
  ghost predicate Describes(s: set<Bytes32>, sum: Point, malformed: int, summed: int) {
    && summed == |s|
    && malformed == SetSum(s, BadCount)
    && HasCoordinates(sum, SetSum(s, GOf), SetSum(s, HOf))
  }

  lemma {:induction false} DescribesNothing()
    ensures Describes({}, Identity(), 0, 0)
  {
    OwnCoordinates(Identity());
  }

  function Bad(c: Bytes32): nat {
    if c.NotAPoint? then 1 else 0
  }

  lemma {:induction false} DescribesAdd(s: set<Bytes32>, c: Bytes32, sum: Point, malformed: int, summed: int)
    requires c !in s && Describes(s, sum, malformed, summed)
    ensures Describes(s + {c}, if c.Encoding? then Plus(sum, c.point) else sum, malformed + Bad(c), summed + 1)
  {
    hide HasCoordinates, Plus, SetSum;
    SetSumAdd(s, c, GOf);
    SetSumAdd(s, c, HOf);
    SetSumAdd(s, c, BadCount);
    if c.Encoding? {
      OwnCoordinates(c.point);
      PlusCoordinates(sum, SetSum(s, GOf), SetSum(s, HOf), c.point, GOf(c), HOf(c));
    }
  }

  lemma {:induction false} DescribesRemove(s: set<Bytes32>, c: Bytes32, sum: Point, malformed: int, summed: int)
    requires c in s && Describes(s, sum, malformed, summed)
    ensures Describes(s - {c}, if c.Encoding? then Minus(sum, c.point) else sum, malformed - Bad(c), summed - 1)
    ensures malformed >= Bad(c) && summed >= 1
  {
    hide HasCoordinates, Minus, SetSum;
    SetSumRemove(s, c, GOf);
    SetSumRemove(s, c, HOf);
    SetSumRemove(s, c, BadCount);
    WalkCoordinates(s - {c});
    if c.Encoding? {
      OwnCoordinates(c.point);
      MinusCoordinates(sum, SetSum(s, GOf), SetSum(s, HOf), c.point, GOf(c), HOf(c));
    }
  }

  lemma {:induction false} DescribesNext(keys: set<Bytes32>, todo: set<Bytes32>, c: Bytes32, sum: Point, malformed: int)
    requires todo <= keys && c in todo
    requires Describes(keys - todo, sum, malformed, |keys - todo|)
    ensures Describes(keys - (todo - {c}), if c.Encoding? then Plus(sum, c.point) else sum, malformed + Bad(c), |keys - (todo - {c})|)
  {
    hide *;
    var done := keys - todo;
    DescribesAdd(done, c, sum, malformed, |done|);
    assert keys - (todo - {c}) == done + {c};
  }

  /** Running fields that describe the set give the walked sum. */
  lemma {:induction false} DescribesIsWalk(s: set<Bytes32>, sum: Point, malformed: int, summed: int)
    requires Describes(s, sum, malformed, summed)
    ensures Walk(s) == if malformed > 0 then None else Some(sum)
  {
    hide HasCoordinates, SetSum;
    WalkCoordinates(s);
    if malformed == 0 {
      var p := Walk(s).value;
      CongruentRefl(SetSum(s, GOf));
      CongruentRefl(SetSum(s, HOf));
      CoordinatesDetermine(sum, p, SetSum(s, GOf), SetSum(s, HOf), SetSum(s, GOf), SetSum(s, HOf));
    }
  }

  // --------------------------------------------------- the fields and their changes --

  /** The map, the running sum, the count of malformed entries and the count of summed entries. */
  datatype Fields = Fields(entries: Entries, sum: Point, malformed: nat, summed: nat)

  /** What deserialisation leaves behind: the map restored, the skipped fields at their defaults. */
  function Loaded(stored: Entries): Fields {
    Fields(stored, Identity(), 0, 0)
  }

  function AfterInsert(f: Fields, commit: Bytes32, entry: Utxo): Fields {
    var entries := f.entries[commit := entry];
    if commit in f.entries then f.(entries := entries)
    else
      match Decompress(commit)
      case Some(p) => Fields(entries, Plus(f.sum, p), f.malformed, f.summed + 1)
      case None => Fields(entries, f.sum, f.malformed + 1, f.summed + 1)
  }

  function Less(n: nat): nat {
    if n > 0 then n - 1 else 0
  }

  function AfterRemove(f: Fields, commit: Bytes32): Fields {
    if commit !in f.entries then f
    else
      match Decompress(commit)
      case Some(p) => Fields(f.entries - {commit}, Minus(f.sum, p), f.malformed, Less(f.summed))
      case None => Fields(f.entries - {commit}, f.sum, Less(f.malformed), Less(f.summed))
  }

  /** `commitment_sum`: the running sum when the counts agree, a walk otherwise. */
  function Reported(f: Fields): Option<Point> {
    if f.summed != |f.entries.Keys| then Walk(f.entries.Keys)
    else if f.malformed > 0 then None
    else Some(f.sum)
  }

  /** The running fields describe exactly the entries. */
  ghost predicate Covers(f: Fields) {
    Describes(f.entries.Keys, f.sum, f.malformed, f.summed)
  }

  lemma {:induction false} InsertCovers(f: Fields, commit: Bytes32, entry: Utxo)
    requires Covers(f)
    ensures Covers(AfterInsert(f, commit, entry))
  {
    hide Describes, Plus;
    var after := AfterInsert(f, commit, entry);
    assert after.entries.Keys == f.entries.Keys + {commit};
    if commit !in f.entries {
      DescribesAdd(f.entries.Keys, commit, f.sum, f.malformed, f.summed);
    } else {
      assert after.entries.Keys == f.entries.Keys;
    }
  }

  lemma {:induction false} RemoveCovers(f: Fields, commit: Bytes32)
    requires Covers(f)
    ensures Covers(AfterRemove(f, commit))
  {
    hide Describes, Minus;
    if commit in f.entries {
      assert AfterRemove(f, commit).entries.Keys == f.entries.Keys - {commit};
      DescribesRemove(f.entries.Keys, commit, f.sum, f.malformed, f.summed);
    }
  }

  lemma {:induction false} CoveredReportsWalk(f: Fields)
    requires Covers(f)
    ensures Reported(f) == Walk(f.entries.Keys)
  {
    hide HasCoordinates, SetSum;
    DescribesIsWalk(f.entries.Keys, f.sum, f.malformed, f.summed);
  }

  /** The set as the program holds it. */
  class UtxoSet {
    var entries: Entries
    var sum: Point
    var malformed: nat
    var summed: nat

    function State(): Fields
      reads this
    {
      Fields(entries, sum, malformed, summed)
    }

    constructor ()
      ensures State() == Loaded(map[]) && Covers(State())
    {
      entries, sum, malformed, summed := map[], Identity(), 0, 0;
      new;
      DescribesNothing();
      assert entries.Keys == {};
    }

    constructor Deserialised(stored: Entries)
      ensures State() == Loaded(stored)
    {
      entries, sum, malformed, summed := stored, Identity(), 0, 0;
    }

    method Insert(commit: Bytes32, entry: Utxo) returns (isNew: bool)
      modifies this
      ensures State() == AfterInsert(old(State()), commit, entry)
      ensures isNew == (commit !in old(entries))
      ensures old(Covers(State())) ==> Covers(State())
    {
      hide Covers, Plus;
      if Covers(State()) {
        InsertCovers(State(), commit, entry);
      }
      isNew := commit !in entries;
      entries := entries[commit := entry];
      if isNew {
        summed := summed + 1;
        match Decompress(commit)
        case Some(p) => sum := Plus(sum, p);
        case None => malformed := malformed + 1;
      }
    }

    method Remove(commit: Bytes32) returns (gone: Option<Utxo>)
      modifies this
      ensures State() == AfterRemove(old(State()), commit)
      ensures gone == if commit in old(entries) then Some(old(entries)[commit]) else None
      ensures old(Covers(State())) ==> Covers(State())
    {
      hide Covers, Minus;
      if Covers(State()) {
        RemoveCovers(State(), commit);
      }
      gone := if commit in entries then Some(entries[commit]) else None;
      if gone.None? {
        assert entries - {commit} == entries;
      }
      entries := entries - {commit};
      if gone.Some? {
        summed := if summed > 0 then summed - 1 else 0;
        match Decompress(commit)
        case Some(p) => sum := Minus(sum, p);
        case None => malformed := if malformed > 0 then malformed - 1 else 0;
      }
    }

    /** The answer in constant time is the walked answer on every set built through Insert and Remove. */
    method CommitmentSum() returns (r: Option<Point>)
      ensures r == Reported(State())
      ensures Covers(State()) ==> r == Walk(entries.Keys)
    {
      hide Covers, Walk;
      if Covers(State()) {
        CoveredReportsWalk(State());
      }
      if summed != |entries.Keys| {
        return Walk(entries.Keys);
      }
      if malformed > 0 {
        return None;
      }
      return Some(sum);
    }

    method RebuildSum()
      modifies this
      ensures Covers(State()) && entries == old(entries)
    {
      hide Describes, Plus, Smallest, Bad;
      var acc := Identity();
      var bad: nat := 0;
      var keys := entries.Keys;
      var todo := keys;
      DescribesNothing();
      assert keys - todo == {};
      while todo != {}
        invariant todo <= keys && entries == old(entries)
        invariant Describes(keys - todo, acc, bad, |keys - todo|)
        decreases todo
      {
        var c := Smallest(todo);
        DescribesNext(keys, todo, c, acc, bad);
        acc := if c.Encoding? then Plus(acc, c.point) else acc;
        bad := bad + Bad(c);
        todo := todo - {c};
      }
      assert keys - todo == keys;
      sum, malformed, summed := acc, bad, |keys|;
    }
  }

  // ------------------------------------------------- a set that was deserialised --

  datatype Change = Put(commit: Bytes32, entry: Utxo) | Take(commit: Bytes32)

  function Changed(f: Fields, c: Change): Fields {
    match c
    case Put(commit, entry) => AfterInsert(f, commit, entry)
    case Take(commit) => AfterRemove(f, commit)
  }

  function ChangedAll(f: Fields, changes: seq<Change>): Fields {
    if changes == [] then f else Changed(ChangedAll(f, changes[..|changes| - 1]), changes[|changes| - 1])
  }

  /** The set was empty at some moment since it was loaded. */
  ghost predicate EmptyOnce(stored: Entries, changes: seq<Change>) {
    exists i :: 0 <= i <= |changes| && ChangedAll(Loaded(stored), changes[..i]).entries == map[]
  }

  /** The stored entries that decode add up to nothing. */
  ghost predicate AddsToNothing(stored: Entries) {
    HasCoordinates(Identity(), SetSum(stored.Keys, GOf), SetSum(stored.Keys, HOf))
  }

  lemma {:induction false} InsertMoves(f: Fields, commit: Bytes32, entry: Utxo, g: int, h: int)
    requires HasCoordinates(f.sum, SetSum(f.entries.Keys, GOf) - g, SetSum(f.entries.Keys, HOf) - h)
    ensures var a := AfterInsert(f, commit, entry);
            HasCoordinates(a.sum, SetSum(a.entries.Keys, GOf) - g, SetSum(a.entries.Keys, HOf) - h)
  {
    hide HasCoordinates, Plus, SetSum;
    var a := AfterInsert(f, commit, entry);
    assert a.entries.Keys == f.entries.Keys + {commit};
    if commit in f.entries {
      assert a.entries.Keys == f.entries.Keys;
    } else {
      SetSumAdd(f.entries.Keys, commit, GOf);
      SetSumAdd(f.entries.Keys, commit, HOf);
      if commit.Encoding? {
        OwnCoordinates(commit.point);
        PlusCoordinates(f.sum, SetSum(f.entries.Keys, GOf) - g, SetSum(f.entries.Keys, HOf) - h, commit.point, GOf(commit), HOf(commit));
      }
    }
  }

  lemma {:induction false} RemoveMoves(f: Fields, commit: Bytes32, g: int, h: int)
    requires HasCoordinates(f.sum, SetSum(f.entries.Keys, GOf) - g, SetSum(f.entries.Keys, HOf) - h)
    ensures var a := AfterRemove(f, commit);
            HasCoordinates(a.sum, SetSum(a.entries.Keys, GOf) - g, SetSum(a.entries.Keys, HOf) - h)
  {
    hide HasCoordinates, Minus, SetSum;
    if commit in f.entries {
      assert AfterRemove(f, commit).entries.Keys == f.entries.Keys - {commit};
      SetSumRemove(f.entries.Keys, commit, GOf);
      SetSumRemove(f.entries.Keys, commit, HOf);
      if commit.Encoding? {
        OwnCoordinates(commit.point);
        MinusCoordinates(f.sum, SetSum(f.entries.Keys, GOf) - g, SetSum(f.entries.Keys, HOf) - h, commit.point, GOf(commit), HOf(commit));
      }
    }
  }

  /** After any changes the running sum is the sum of the entries now less the sum of the entries stored. */
  lemma {:induction false} RunningSumIs(stored: Entries, changes: seq<Change>)
    ensures var f := ChangedAll(Loaded(stored), changes);
            HasCoordinates(f.sum, SetSum(f.entries.Keys, GOf) - SetSum(stored.Keys, GOf), SetSum(f.entries.Keys, HOf) - SetSum(stored.Keys, HOf))
    decreases |changes|
  {
    hide HasCoordinates, SetSum, AfterInsert, AfterRemove;
    if changes == [] {
      OwnCoordinates(Identity());
    } else {
      var last := |changes| - 1;
      RunningSumIs(stored, changes[..last]);
      var f := ChangedAll(Loaded(stored), changes[..last]);
      var g, h := SetSum(stored.Keys, GOf), SetSum(stored.Keys, HOf);
      match changes[last]
      case Put(commit, entry) => InsertMoves(f, commit, entry, g, h);
      case Take(commit) => RemoveMoves(f, commit, g, h);
    }
  }

  /** The counts never run ahead of the entries; once they have caught up they stay right. */
  ghost predicate Counted(f: Fields, caughtUp: bool) {
    && f.summed <= |f.entries.Keys| && f.malformed <= SetSum(f.entries.Keys, BadCount)
    && (caughtUp <==> f.summed == |f.entries.Keys|)
    && (caughtUp ==> f.malformed == SetSum(f.entries.Keys, BadCount))
  }

  lemma {:induction false} NothingBad(f: Fields)
    requires f.entries == map[]
    ensures |f.entries.Keys| == 0 && SetSum(f.entries.Keys, BadCount) == 0
  {
    assert f.entries.Keys == {};
  }

  lemma {:induction false} EmptyKeys(f: Fields)
    ensures f.entries == map[] <==> |f.entries.Keys| == 0
  {
    if |f.entries.Keys| == 0 {
      assert f.entries.Keys == {};
      assert f.entries == map[];
    }
  }

  lemma {:induction false} CountedPut(f: Fields, commit: Bytes32, entry: Utxo, caughtUp: bool)
    requires Counted(f, caughtUp)
    ensures Counted(AfterInsert(f, commit, entry), caughtUp) && AfterInsert(f, commit, entry).entries != map[]
  {
    hide SetSum, Plus;
    var keys := f.entries.Keys;
    var a := AfterInsert(f, commit, entry);
    assert a.entries.Keys == keys + {commit};
    if commit in f.entries {
      assert a.entries.Keys == keys;
    } else {
      SetSumAdd(keys, commit, BadCount);
    }
    assert commit in a.entries;
  }

  lemma {:induction false} CountedTake(f: Fields, commit: Bytes32, caughtUp: bool)
    requires Counted(f, caughtUp) && commit in f.entries
    ensures Counted(AfterRemove(f, commit), caughtUp || AfterRemove(f, commit).entries == map[])
  {
    hide SetSum, Minus;
    var keys := f.entries.Keys;
    var a := AfterRemove(f, commit);
    assert a.entries.Keys == keys - {commit};
    SetSumRemove(keys, commit, BadCount);
    WalkCoordinates(keys);
    WalkCoordinates(a.entries.Keys);
    EmptyKeys(a);
    if a.entries == map[] {
      NothingBad(a);
    }
  }

  lemma {:induction false} CountedStep(f: Fields, c: Change, caughtUp: bool)
    requires Counted(f, caughtUp)
    ensures Counted(Changed(f, c), caughtUp || Changed(f, c).entries == map[])
  {
    hide SetSum, AfterInsert;
    match c
    case Put(commit, entry) => CountedPut(f, commit, entry, caughtUp);
    case Take(commit) =>
      if commit in f.entries {
        CountedTake(f, commit, caughtUp);
      } else if f.entries == map[] {
        NothingBad(f);
        WalkCoordinates(f.entries.Keys);
      }
  }

  /** The count of summed entries equals the number of entries exactly when the set has been empty since it was loaded. */
  lemma {:induction false} CaughtUpExactly(stored: Entries, changes: seq<Change>)
    ensures Counted(ChangedAll(Loaded(stored), changes), EmptyOnce(stored, changes))
    decreases |changes|
  {
    hide Changed, SetSum;
    assert changes[..|changes|] == changes;
    if changes == [] {
      WalkCoordinates(stored.Keys);
      EmptyKeys(Loaded(stored));
      assert EmptyOnce(stored, []) <==> stored == map[] by {
        assert forall i :: 0 <= i <= 0 ==> changes[..i] == [];
        if stored == map[] {
          assert ChangedAll(Loaded(stored), changes[..0]).entries == map[];
        }
      }
      if stored == map[] {
        NothingBad(Loaded(stored));
      }
    } else {
      var last := |changes| - 1;
      CaughtUpExactly(stored, changes[..last]);
      EmptyOnceMore(stored, changes);
      CountedStep(ChangedAll(Loaded(stored), changes[..last]), changes[last], EmptyOnce(stored, changes[..last]));
    }
  }

  lemma {:induction false} EmptyOnceMore(stored: Entries, changes: seq<Change>)
    requires changes != []
    ensures EmptyOnce(stored, changes)
            <==> EmptyOnce(stored, changes[..|changes| - 1]) || ChangedAll(Loaded(stored), changes).entries == map[]
  {
    hide ChangedAll;
    var before := changes[..|changes| - 1];
    assert changes[..|changes|] == changes;
    if EmptyOnce(stored, changes) {
      var i :| 0 <= i <= |changes| && ChangedAll(Loaded(stored), changes[..i]).entries == map[];
      if i < |changes| {
        assert before[..i] == changes[..i];
      }
    }
    if EmptyOnce(stored, before) {
      var i :| 0 <= i <= |before| && ChangedAll(Loaded(stored), before[..i]).entries == map[];
      assert before[..i] == changes[..i];
    }
    if ChangedAll(Loaded(stored), changes).entries == map[] {
      assert ChangedAll(Loaded(stored), changes[..|changes|]).entries == map[];
    }
  }

  lemma {:induction false} OffByStored(a: int, b: int)
    ensures Congruent(a - b, a) <==> Congruent(0, b)
  {
    if Congruent(a - b, a) {
      var k :| a - b == a + Multiple(k);
      assert 0 == b + Multiple(k);
    }
    if Congruent(0, b) {
      var k :| 0 == b + Multiple(k);
      assert a - b == a + Multiple(k);
    }
  }

  /**
    When the constant-time answer can be trusted on a set that was deserialised, after any changes: exactly when the set
    has not been empty since it was loaded, or it holds a malformed entry, or what was stored adds up to nothing.
   */
  lemma {:induction false} ReportedExactly(stored: Entries, changes: seq<Change>)
    ensures var f := ChangedAll(Loaded(stored), changes);
            && (EmptyOnce(stored, changes) <==> f.summed == |f.entries.Keys|)
            && (Reported(f) == Walk(f.entries.Keys)
                <==> !EmptyOnce(stored, changes) || Walk(f.entries.Keys).None? || AddsToNothing(stored))
    ensures Walk(stored.Keys).Some? ==> (AddsToNothing(stored) <==> Walk(stored.Keys) == Some(Identity()))
  {
    hide ChangedAll, EmptyOnce, SetSum, Congruent;
    if Walk(stored.Keys).Some? {
      AddsToNothingIsWalk(stored);
    }
    var f := ChangedAll(Loaded(stored), changes);
    CaughtUpExactly(stored, changes);
    RunningSumIs(stored, changes);
    WalkCoordinates(f.entries.Keys);
    if EmptyOnce(stored, changes) && Walk(f.entries.Keys).Some? {
      var g, h := SetSum(f.entries.Keys, GOf), SetSum(f.entries.Keys, HOf);
      var g', h' := SetSum(stored.Keys, GOf), SetSum(stored.Keys, HOf);
      CoordinatesDetermine(f.sum, Walk(f.entries.Keys).value, g - g', h - h', g, h);
      OffByStored(g, g');
      OffByStored(h, h');
    }
  }

  /** When every stored entry decodes, that is when a walk over what was stored gives the identity. */
  lemma {:induction false} AddsToNothingIsWalk(stored: Entries)
    requires Walk(stored.Keys).Some?
    ensures AddsToNothing(stored) <==> Walk(stored.Keys) == Some(Identity())
  {
    hide SetSum, Congruent;
    WalkCoordinates(stored.Keys);
    var g, h := SetSum(stored.Keys, GOf), SetSum(stored.Keys, HOf);
    OwnCoordinates(Identity());
    CoordinatesDetermine(Identity(), Walk(stored.Keys).value, 0, 0, g, h);
  }

  /** One entry stored and removed: the set reports the negated entry, and keeps the error when it fills again. */
  method EmptyingADeserialisedSet(c: Bytes32, entry: Utxo, d: Bytes32, other: Utxo) returns (empty: Option<Point>, refilled: Option<Point>)
    requires c.Encoding? && d.Encoding?
    ensures empty == Some(Minus(Identity(), c.point)) && refilled == Some(Plus(Minus(Identity(), c.point), d.point))
    ensures empty == Walk({}) <==> c.point == Identity()
    ensures refilled == Walk({d}) <==> c.point == Identity()
  {
    hide Walk, Plus, Minus, Covers;
    var s := new UtxoSet.Deserialised(map[c := entry]);
    var _ := s.Remove(c);
    assert s.entries == map[] && s.entries.Keys == {};
    empty := s.CommitmentSum();
    var _ := s.Insert(d, other);
    assert s.entries.Keys == {d};
    refilled := s.CommitmentSum();
    assert |{d}| == 1;
    WalkOne(d);
    MinusIsIdentity(c.point, d.point);
  }

  lemma {:induction false} WalkOne(d: Bytes32)
    requires d.Encoding?
    ensures Walk({d}) == Some(d.point) && Walk({}) == Some(Identity())
  {
    assert Smallest({d}) == d && {d} - {d} == {};
  }

  lemma {:induction false} MinusIsIdentity(p: Point, q: Point)
    ensures Minus(Identity(), p) == Identity() <==> p == Identity()
    ensures Plus(Minus(Identity(), p), q) == q <==> p == Identity()
  {
  }
}
