/** A stable insertion sort by a comparison, and what sorting leaves unchanged. */
module Sorting {

  function Insert<T>(le: (T, T) -> bool, x: T, s: seq<T>): seq<T> {
    if s == [] || le(x, s[0]) then [x] + s else [s[0]] + Insert(le, x, s[1..])
  }

  function Sort<T>(le: (T, T) -> bool, s: seq<T>): seq<T> {
    if s == [] then [] else Insert(le, s[0], Sort(le, s[1..]))
  }

  ghost predicate IsTotal<T(!new)>(le: (T, T) -> bool) {
    forall x, y :: le(x, y) || le(y, x)
  }

  ghost predicate Ordered<T>(le: (T, T) -> bool, s: seq<T>) {
    |s| < 2 || (le(s[0], s[1]) && Ordered(le, s[1..]))
  }

  lemma {:induction false} InsertOrdered<T(!new)>(le: (T, T) -> bool, x: T, s: seq<T>)
    requires IsTotal(le) && Ordered(le, s)
    ensures Ordered(le, Insert(le, x, s))
    ensures |Insert(le, x, s)| == |s| + 1
    ensures Insert(le, x, s)[0] == x || (s != [] && Insert(le, x, s)[0] == s[0])
  {
    if s == [] || le(x, s[0]) {
      assert ([x] + s)[1..] == s;
    } else {
      InsertOrdered(le, x, s[1..]);
      var r := Insert(le, x, s[1..]);
      assert ([s[0]] + r)[1..] == r;
    }
  }

  lemma {:induction false} SortOrdered<T(!new)>(le: (T, T) -> bool, s: seq<T>)
    requires IsTotal(le)
    ensures Ordered(le, Sort(le, s))
  {
    if s != [] {
      SortOrdered(le, s[1..]);
      InsertOrdered(le, s[0], Sort(le, s[1..]));
    }
  }

  lemma {:induction false} SortFixesOrdered<T>(le: (T, T) -> bool, s: seq<T>)
    requires Ordered(le, s)
    ensures Sort(le, s) == s
  {
    if s != [] {
      if |s| > 1 {
        SortFixesOrdered(le, s[1..]);
      }
      assert [s[0]] + s[1..] == s;
    }
  }

  /** Sorting twice is sorting once. */
  lemma {:induction false} SortIdempotent<T(!new)>(le: (T, T) -> bool, s: seq<T>)
    requires IsTotal(le)
    ensures Sort(le, Sort(le, s)) == Sort(le, s)
  {
    SortOrdered(le, s);
    SortFixesOrdered(le, Sort(le, s));
  }

  lemma {:induction false} InsertMultiset<T>(le: (T, T) -> bool, x: T, s: seq<T>)
    ensures multiset(Insert(le, x, s)) == multiset(s) + multiset{x}
  {
    if !(s == [] || le(x, s[0])) {
      InsertMultiset(le, x, s[1..]);
      assert s == [s[0]] + s[1..];
    }
  }

  lemma {:induction false} SortMultiset<T>(le: (T, T) -> bool, s: seq<T>)
    ensures multiset(Sort(le, s)) == multiset(s)
  {
    if s != [] {
      SortMultiset(le, s[1..]);
      InsertMultiset(le, s[0], Sort(le, s[1..]));
      assert s == [s[0]] + s[1..];
    }
  }

  lemma {:induction false} SortElements<T>(le: (T, T) -> bool, s: seq<T>)
    ensures |Sort(le, s)| == |s|
    ensures forall x :: x in Sort(le, s) <==> x in s
  {
    SortMultiset(le, s);
    assert |multiset(Sort(le, s))| == |multiset(s)|;
    forall x ensures x in Sort(le, s) <==> x in s {
      assert x in Sort(le, s) <==> x in multiset(Sort(le, s));
      assert x in s <==> x in multiset(s);
    }
  }

  ghost predicate IsTransitive<T(!new)>(le: (T, T) -> bool) {
    forall x, y, z :: le(x, y) && le(y, z) ==> le(x, z)
  }

  /** No two different elements rank equally. */
  ghost predicate NoTies<T(!new)>(le: (T, T) -> bool, s: seq<T>) {
    forall x, y :: x in s && y in s && le(x, y) && le(y, x) ==> x == y
  }

  lemma {:induction false} OrderedHead<T(!new)>(le: (T, T) -> bool, s: seq<T>, i: nat)
    requires IsTotal(le) && IsTransitive(le) && Ordered(le, s) && i < |s|
    ensures le(s[0], s[i])
    decreases i
  {
    if i > 0 {
      OrderedHead(le, s[1..], i - 1);
    }
  }

  lemma {:induction false} HeadLeads<T(!new)>(le: (T, T) -> bool, s: seq<T>, x: T)
    requires IsTotal(le) && IsTransitive(le) && Ordered(le, s) && x in s
    ensures le(s[0], x)
  {
    hide IsTotal, IsTransitive, Ordered;
    var i :| 0 <= i < |s| && s[i] == x;
    OrderedHead(le, s, i);
  }

  lemma {:induction false} SameHead<T(!new)>(le: (T, T) -> bool, a: seq<T>, b: seq<T>)
    requires IsTotal(le) && IsTransitive(le) && Ordered(le, a) && Ordered(le, b) && NoTies(le, a)
    requires a != [] && b != [] && a[0] in b && b[0] in a
    ensures a[0] == b[0]
  {
    hide IsTotal, IsTransitive, Ordered;
    HeadLeads(le, a, b[0]);
    HeadLeads(le, b, a[0]);
  }

  lemma {:induction false} WithoutHead<T>(a: seq<T>)
    requires a != []
    ensures multiset(a[1..]) == multiset(a) - multiset{a[0]}
    ensures forall x :: x in a[1..] ==> x in a
  {
    assert a == [a[0]] + a[1..];
  }

  /** Without ties an order leaves only one arrangement. */
  lemma {:induction false} OrderedUnique<T(!new)>(le: (T, T) -> bool, a: seq<T>, b: seq<T>)
    requires IsTotal(le) && IsTransitive(le) && Ordered(le, a) && Ordered(le, b)
    requires multiset(a) == multiset(b) && NoTies(le, a)
    ensures a == b
    decreases |a|
  {
    hide IsTotal, IsTransitive;
    assert |multiset(a)| == |a| && |multiset(b)| == |b|;
    if a != [] {
      assert a[0] in multiset(b) && b[0] in multiset(a);
      SameHead(le, a, b);
      WithoutHead(a);
      WithoutHead(b);
      assert NoTies(le, a[1..]);
      OrderedUnique(le, a[1..], b[1..]);
      assert a == [a[0]] + a[1..] && b == [b[0]] + b[1..];
    }
  }

  lemma {:induction false} TiesByElements<T(!new)>(le: (T, T) -> bool, a: seq<T>, b: seq<T>)
    requires NoTies(le, a) && forall x :: x in b <==> x in a
    ensures NoTies(le, b)
  {
  }

  /** Sorting forgets the order it was given. */
  lemma {:induction false} SortForgetsOrder<T(!new)>(le: (T, T) -> bool, a: seq<T>, b: seq<T>)
    requires IsTotal(le) && IsTransitive(le) && multiset(a) == multiset(b) && NoTies(le, a)
    ensures Sort(le, a) == Sort(le, b)
  {
    hide IsTotal, IsTransitive, NoTies, Ordered, Sort;
    SortOrdered(le, a);
    SortOrdered(le, b);
    SortMultiset(le, a);
    SortMultiset(le, b);
    SortElements(le, a);
    TiesByElements(le, a, Sort(le, a));
    OrderedUnique(le, Sort(le, a), Sort(le, b));
  }

  /** Sum of a measure over a sequence. */
  ghost function SumOver<T>(f: T -> int, s: seq<T>): int {
    if s == [] then 0 else f(s[0]) + SumOver(f, s[1..])
  }

  lemma {:induction false} TotalAppend<T>(f: T -> int, a: seq<T>, b: seq<T>)
    ensures SumOver(f, a + b) == SumOver(f, a) + SumOver(f, b)
  {
    if a == [] {
      assert a + b == b;
    } else {
      TotalAppend(f, a[1..], b);
      assert (a + b)[1..] == a[1..] + b;
    }
  }

  lemma {:induction false} InsertTotal<T>(le: (T, T) -> bool, f: T -> int, x: T, s: seq<T>)
    ensures SumOver(f, Insert(le, x, s)) == f(x) + SumOver(f, s)
  {
    if s == [] || le(x, s[0]) {
      assert ([x] + s)[1..] == s;
    } else {
      InsertTotal(le, f, x, s[1..]);
      var r := Insert(le, x, s[1..]);
      assert ([s[0]] + r)[1..] == r;
    }
  }

  function MapSeq<A, B>(g: A -> B, s: seq<A>): (r: seq<B>)
    ensures |r| == |s|
    ensures forall i :: 0 <= i < |s| ==> r[i] == g(s[i])
  {
    if s == [] then [] else [g(s[0])] + MapSeq(g, s[1..])
  }

  lemma {:induction false} MapSum<A, B>(f: B -> int, g: A -> B, h: A -> int, s: seq<A>)
    requires forall x :: x in s ==> h(x) == f(g(x))
    ensures SumOver(f, MapSeq(g, s)) == SumOver(h, s)
  {
    if s != [] {
      MapSum(f, g, h, s[1..]);
      assert MapSeq(g, s)[1..] == MapSeq(g, s[1..]);
    }
  }

  /** A sum does not depend on the order. */
  lemma {:induction false} SortTotal<T>(le: (T, T) -> bool, f: T -> int, s: seq<T>)
    ensures SumOver(f, Sort(le, s)) == SumOver(f, s)
  {
    if s != [] {
      SortTotal(le, f, s[1..]);
      InsertTotal(le, f, s[0], Sort(le, s[1..]));
    }
  }
}
