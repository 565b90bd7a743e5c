/** The median-time-past rule (crates/nightfall-consensus/src/difficulty.rs), for any window size. */
module MedianTime {
  import opened Words
  import opened Curve
  import opened Sorting

  /** MTP_WINDOW in this network's parameters. */
  const MTP_WINDOW: nat := 11

  function NatLe(a: u64, b: u64): bool {
    a <= b
  }

  function LastOf(w: nat, ts: seq<u64>): seq<u64> {
    if |ts| <= w then ts else ts[|ts| - w..]
  }

  /** Median of the last `w` timestamps, 0 for an empty chain. */
  function MedianTimePast(w: nat, ts: seq<u64>): u64
    requires w >= 1
  {
    var window := LastOf(w, ts);
    if window == [] then 0
    else
      SortElements(NatLe, window);
      Sort(NatLe, window)[|window| / 2]
  }

  /** The in-place form: the copied window is sorted by insertion, then indexed. */
  method MedianInPlace(w: nat, ts: seq<u64>) returns (m: u64)
    requires w >= 1
    ensures m == MedianTimePast(w, ts)
  {
    if ts == [] {
      return 0;
    }
    var window := LastOf(w, ts);
    var sorted: seq<u64> := [];
    for i := |window| downto 0
      invariant sorted == Sort(NatLe, window[i..])
    {
      assert window[i..][1..] == window[i + 1..];
      sorted := Insert(NatLe, window[i], sorted);
    }
    assert window[0..] == window;
    SortElements(NatLe, window);
    return sorted[|sorted| / 2];
  }

  // ----------------------------------------------------- order statistics --

  ghost function Below(m: u64): u64 -> int {
    (x: u64) => if x < m then 1 else 0
  }

  ghost function AtMost(m: u64): u64 -> int {
    (x: u64) => if x <= m then 1 else 0
  }

  lemma {:induction false} CountBounds(s: seq<u64>, m: u64)
    ensures 0 <= SumOver(Below(m), s) <= SumOver(AtMost(m), s) <= |s|
  {
    if s != [] {
      CountBounds(s[1..], m);
    }
  }

  lemma {:induction false} CountMonotone(s: seq<u64>, m: u64, n: u64)
    requires m < n
    ensures SumOver(AtMost(m), s) <= SumOver(Below(n), s)
  {
    if s != [] {
      CountMonotone(s[1..], m, n);
    }
  }

  lemma {:induction false} CountAbove(s: seq<u64>, m: u64)
    requires forall x :: x in s ==> x > m
    ensures SumOver(AtMost(m), s) == 0
  {
    if s != [] {
      assert s[0] in s && forall x :: x in s[1..] ==> x in s;
      CountAbove(s[1..], m);
    }
  }

  lemma {:induction false} OrderedPairs(s: seq<u64>, i: nat, j: nat)
    requires Ordered(NatLe, s) && i <= j < |s|
    ensures s[i] <= s[j]
    decreases |s|
  {
    if i > 0 {
      OrderedPairs(s[1..], i - 1, j - 1);
    } else if j > 0 {
      OrderedPairs(s[1..], 0, j - 1);
    }
  }

  lemma {:induction false} CountOrdered(s: seq<u64>, k: nat)
    requires Ordered(NatLe, s) && k < |s|
    ensures SumOver(Below(s[k]), s) <= k < SumOver(AtMost(s[k]), s)
  {
    var m := s[k];
    var lo, hi := s[..k], s[k..];
    assert s == lo + hi;
    TotalAppend(Below(m), lo, hi);
    CountBounds(lo, m);
    forall i | 0 <= i < |hi| ensures hi[i] >= m {
      OrderedPairs(s, k, k + i);
    }
    NoneBelow(hi, m);
    var lo', hi' := s[..k + 1], s[k + 1..];
    assert s == lo' + hi';
    TotalAppend(AtMost(m), lo', hi');
    CountBounds(hi', m);
    forall i | 0 <= i < |lo'| ensures lo'[i] <= m {
      OrderedPairs(s, i, k);
    }
    AllAtMost(lo', m);
  }

  lemma {:induction false} NoneBelow(s: seq<u64>, m: u64)
    requires forall i :: 0 <= i < |s| ==> s[i] >= m
    ensures SumOver(Below(m), s) == 0
  {
    if s != [] {
      NoneBelow(s[1..], m);
    }
  }

  lemma {:induction false} AllAtMost(s: seq<u64>, m: u64)
    requires forall i :: 0 <= i < |s| ==> s[i] <= m
    ensures SumOver(AtMost(m), s) == |s|
  {
    if s != [] {
      AllAtMost(s[1..], m);
    }
  }

  /** The median is the order statistic of rank ⌊n/2⌋: at most that many lie below, more are at most it. */
  lemma {:induction false} MedianRank(w: nat, ts: seq<u64>)
    requires w >= 1 && ts != []
    ensures var s, m := LastOf(w, ts), MedianTimePast(w, ts);
            SumOver(Below(m), s) <= |s| / 2 < SumOver(AtMost(m), s)
  {
    var s := LastOf(w, ts);
    var sorted := Sort(NatLe, s);
    SortElements(NatLe, s);
    SortOrdered(NatLe, s);
    var m := MedianTimePast(w, ts);
    CountOrdered(sorted, |s| / 2);
    SortTotal(NatLe, Below(m), s);
    SortTotal(NatLe, AtMost(m), s);
  }

  // -------------------------------------------------------- along a chain --

  /** Every timestamp after the first is later than the median time of the blocks below it. */
  ghost predicate BeatsMedian(w: nat, ts: seq<u64>)
    requires w >= 1
  {
    forall i {:trigger ts[..i]} :: 0 < i < |ts| ==> ts[i] > MedianTimePast(w, ts[..i])
  }

  /** Appending a timestamp that beats the median never lowers the median. */
  lemma {:induction false} MedianStep(w: nat, ts: seq<u64>, t: u64)
    requires w >= 1 && (ts != [] ==> t > MedianTimePast(w, ts))
    ensures MedianTimePast(w, ts) <= MedianTimePast(w, ts + [t])
  {
    if ts != [] {
      hide MedianTimePast, SumOver;
      var m, n := MedianTimePast(w, ts), MedianTimePast(w, ts + [t]);
      var s, r := LastOf(w, ts), LastOf(w, ts + [t]);
      MedianRank(w, ts);
      MedianRank(w, ts + [t]);
      WindowStep(w, ts, t, m);
      if n < m {
        CountMonotone(r, n, m);
      }
    }
  }

  /** A new timestamp above m never adds to what lies below m in the window. */
  lemma {:induction false} WindowStep(w: nat, ts: seq<u64>, t: u64, m: u64)
    requires w >= 1 && t > m && ts != []
    ensures var s, r := LastOf(w, ts), LastOf(w, ts + [t]);
            SumOver(Below(m), r) <= SumOver(Below(m), s) && |s| <= |r|
  {
    var s, r := LastOf(w, ts), LastOf(w, ts + [t]);
    var kept := if |ts| < w then s else s[1..];
    assert r == kept + [t];
    TotalAppend(Below(m), kept, [t]);
    CountBounds([s[0]], m);
  }

  /** Median-time-past never decreases along a chain, short-chain phase included. */
  lemma {:induction false} MedianMonotone(w: nat, ts: seq<u64>, i: nat, j: nat)
    requires w >= 1 && BeatsMedian(w, ts) && i <= j <= |ts|
    ensures MedianTimePast(w, ts[..i]) <= MedianTimePast(w, ts[..j])
    decreases j - i
  {
    hide MedianTimePast;
    if i < j {
      MedianMonotone(w, ts, i, j - 1);
      assert ts[..j] == ts[..j - 1] + [ts[j - 1]];
      MedianStep(w, ts[..j - 1], ts[j - 1]);
    }
  }

  /** Once the window is full, w − ⌊w/2⌋ further blocks move the median strictly forward. */
  lemma {:induction false} MedianAdvances(w: nat, ts: seq<u64>, i: nat)
    requires w >= 1 && BeatsMedian(w, ts) && w <= i && i + (w - w / 2) <= |ts|
    ensures MedianTimePast(w, ts[..i]) < MedianTimePast(w, ts[..i + (w - w / 2)])
  {
    hide MedianTimePast, SumOver;
    var j := i + (w - w / 2);
    var m, n := MedianTimePast(w, ts[..i]), MedianTimePast(w, ts[..j]);
    var r := LastOf(w, ts[..j]);
    MedianMonotone(w, ts, i, j);
    MedianRank(w, ts[..j]);
    var newer := ts[i..j];
    forall k | 0 <= k < |newer| ensures newer[k] > m {
      MedianMonotone(w, ts, i, i + k);
    }
    var older := r[..w - |newer|];
    assert r == older + newer;
    TotalAppend(AtMost(m), older, newer);
    CountAbove(newer, m);
    CountBounds(older, m);
  }
}
