/**
  The commitment group of crates/nightfall-crypto/src/commit.rs.

  The group has prime order L (ristretto255, section 4.4 of RFC 9496) and two generators G and H
  between which nobody knows a discrete logarithm.  A point is modelled by its pair of coordinates
  on (G, H); a 32-byte string either decodes to exactly one point or is not a point.
 */
module Curve {
  import opened Wrappers
  import opened Words
  import opened Sorting

  const L: int := 7237005577332262213973186563042994240857116359379907606001950938285454250989

  type Scalar = x: int | 0 <= x < L

  datatype Point = Point(g: Scalar, h: Scalar)

  /** A 32-byte encoding, canonical or not. */
  datatype Bytes32 = Encoding(point: Point) | NotAPoint(bytes: nat)

  function Identity(): Point {
    Point(0, 0)
  }

  /** Back into range after one addition or subtraction. */
  function Fold(x: int): Scalar
    requires -L <= x < 2 * L
  {
    if x >= L then x - L else if x < 0 then x + L else x
  }

  function Plus(p: Point, q: Point): Point {
    Point(Fold(p.g + q.g), Fold(p.h + q.h))
  }

  function Minus(p: Point, q: Point): Point {
    Point(Fold(p.g - q.g), Fold(p.h - q.h))
  }

  /** `v·G`: the commitment to a public amount. */
  function PublicValue(v: u64): Point {
    Point(v, 0)
  }

  function Times(k: Scalar, p: Point): Point {
    Point(k * p.g % L, k * p.h % L)
  }

  function TimesH(s: Scalar): Point {
    Point(0, s)
  }

  /** `value·G + blind·H`. */
  function Pedersen(value: u64, blind: Scalar): Bytes32 {
    Encoding(Point(value, blind))
  }

  function Decompress(c: Bytes32): Option<Point> {
    match c
    case Encoding(p) => Some(p)
    case NotAPoint(_) => None
  }

  // -------------------------------------------------------------- sums --

  /** The sum of a commitment list, `None` as soon as one element is malformed. */
  function Sum(list: seq<Bytes32>): Option<Point> {
    if list == [] then Some(Identity())
    else
      var n := |list| - 1;
      match (Sum(list[..n]), Decompress(list[n]))
      case (Some(p), Some(q)) => Some(Plus(p, q))
      case _ => None
  }

  /** `Commitment::sum`: the accumulator loop with early exit. */
  method SumLoop(list: seq<Bytes32>) returns (r: Option<Point>)
    ensures r == Sum(list)
    ensures r.None? <==> exists i :: 0 <= i < |list| && list[i].NotAPoint?
  {
    var acc := Identity();
    for i := 0 to |list|
      invariant Sum(list[..i]) == Some(acc)
      invariant forall j :: 0 <= j < i ==> list[j].Encoding?
    {
      assert list[..i + 1][..i] == list[..i];
      match Decompress(list[i])
      case None =>
        SumMalformed(list, i);
        return None;
      case Some(q) =>
        acc := Plus(acc, q);
    }
    assert list[..|list|] == list;
    return Some(acc);
  }

  lemma {:induction false} SumOfOne(c: Bytes32)
    requires c.Encoding?
    ensures Sum([c]) == Some(c.point) && Sum([]) == Some(Identity())
  {
    assert [c][..0] == [];
  }

  lemma {:induction false} SumOfTwo(a: Bytes32, b: Bytes32)
    requires a.Encoding? && b.Encoding?
    ensures Sum([a, b]) == Some(Plus(a.point, b.point))
  {
    assert [a, b][..1] == [a];
    SumOfOne(a);
  }

  lemma {:induction false} SumMalformed(list: seq<Bytes32>, i: nat)
    requires i < |list| && list[i].NotAPoint?
    ensures Sum(list) == None
  {
    if i < |list| - 1 {
      SumMalformed(list[..|list| - 1], i);
    }
  }

  /** Integer sums of the two coordinates, before any reduction modulo L. */
  ghost function GOf(c: Bytes32): int {
    if c.Encoding? then c.point.g else 0
  }

  ghost function HOf(c: Bytes32): int {
    if c.Encoding? then c.point.h else 0
  }

  // -------------------------------------------------------- congruence --

  ghost function Multiple(k: int): int {
    k * L
  }

  ghost predicate Congruent(a: int, b: int) {
    exists k :: a == b + Multiple(k)
  }

  lemma {:induction false} CongruentRefl(a: int)
    ensures Congruent(a, a)
  {
    assert a == a + Multiple(0);
  }

  lemma {:induction false} CongruentSym(a: int, b: int)
    requires Congruent(a, b)
    ensures Congruent(b, a)
  {
    var k :| a == b + Multiple(k);
    assert b == a + Multiple(-k);
  }

  lemma {:induction false} CongruentPlus(a: int, b: int, c: int, d: int)
    requires Congruent(a, b) && Congruent(c, d)
    ensures Congruent(a + c, b + d)
  {
    var k :| a == b + Multiple(k);
    var m :| c == d + Multiple(m);
    assert a + c == b + d + Multiple(k + m);
  }

  lemma {:induction false} CongruentMinus(a: int, b: int, c: int, d: int)
    requires Congruent(a, b) && Congruent(c, d)
    ensures Congruent(a - c, b - d)
  {
    var k :| a == b + Multiple(k);
    var m :| c == d + Multiple(m);
    assert a - c == b - d + Multiple(k - m);
  }

  lemma {:induction false} CongruentTrans(a: int, b: int, c: int)
    requires Congruent(a, b) && Congruent(b, c)
    ensures Congruent(a, c)
  {
    var k :| a == b + Multiple(k);
    var m :| b == c + Multiple(m);
    assert a == c + Multiple(k + m);
  }

  /** A modular equation between integers less than L apart is an equation between integers. */
  lemma {:induction false} CongruentClose(a: int, b: int)
    requires Congruent(a, b) && -L < a - b < L
    ensures a == b
  {
    var k :| a == b + Multiple(k);
    assert k >= 1 ==> k * L >= L;
    assert k <= -1 ==> k * L <= -L;
  }

  lemma {:induction false} FoldCongruent(x: int)
    requires -L <= x < 2 * L
    ensures Congruent(Fold(x), x)
  {
    assert Fold(x) == x + Multiple(if x >= L then -1 else if x < 0 then 1 else 0);
  }

  /** The point has these integer coordinates modulo L. */
  ghost predicate HasCoordinates(p: Point, g: int, h: int) {
    Congruent(p.g, g) && Congruent(p.h, h)
  }

  lemma {:induction false} PlusCoordinates(p: Point, g: int, h: int, q: Point, g': int, h': int)
    requires HasCoordinates(p, g, h) && HasCoordinates(q, g', h')
    ensures HasCoordinates(Plus(p, q), g + g', h + h')
  {
    FoldCongruent(p.g + q.g);
    FoldCongruent(p.h + q.h);
    CongruentPlus(p.g, g, q.g, g');
    CongruentPlus(p.h, h, q.h, h');
    CongruentTrans(Plus(p, q).g, p.g + q.g, g + g');
    CongruentTrans(Plus(p, q).h, p.h + q.h, h + h');
  }

  lemma {:induction false} MinusCoordinates(p: Point, g: int, h: int, q: Point, g': int, h': int)
    requires HasCoordinates(p, g, h) && HasCoordinates(q, g', h')
    ensures HasCoordinates(Minus(p, q), g - g', h - h')
  {
    FoldCongruent(p.g - q.g);
    FoldCongruent(p.h - q.h);
    CongruentMinus(p.g, g, q.g, g');
    CongruentMinus(p.h, h, q.h, h');
    CongruentTrans(Minus(p, q).g, p.g - q.g, g - g');
    CongruentTrans(Minus(p, q).h, p.h - q.h, h - h');
  }

  lemma {:induction false} OwnCoordinates(p: Point)
    ensures HasCoordinates(p, p.g, p.h)
  {
    CongruentRefl(p.g);
    CongruentRefl(p.h);
  }

  /** Coordinates modulo L determine the point. */
  lemma {:induction false} CoordinatesDetermine(p: Point, q: Point, g: int, h: int, g': int, h': int)
    requires HasCoordinates(p, g, h) && HasCoordinates(q, g', h')
    ensures p == q <==> Congruent(g, g') && Congruent(h, h')
  {
    CongruentSym(p.g, g);
    CongruentSym(p.h, h);
    if p == q {
      CongruentTrans(g, p.g, g');
      CongruentTrans(h, p.h, h');
    }
    if Congruent(g, g') && Congruent(h, h') {
      CongruentSym(q.g, g');
      CongruentSym(q.h, h');
      CongruentTrans(p.g, g, g');
      CongruentTrans(p.g, g', q.g);
      CongruentTrans(p.h, h, h');
      CongruentTrans(p.h, h', q.h);
      CongruentClose(p.g, q.g);
      CongruentClose(p.h, q.h);
    }
  }

  /** A list sums to a point exactly when all its elements decode, and then to the integer sums modulo L. */
  lemma {:induction false} SumCoordinates(list: seq<Bytes32>)
    ensures Sum(list).Some? <==> forall i :: 0 <= i < |list| ==> list[i].Encoding?
    ensures Sum(list).Some? ==> HasCoordinates(Sum(list).value, SumOver(GOf, list), SumOver(HOf, list))
  {
    hide HasCoordinates, Plus;
    if list == [] {
      OwnCoordinates(Identity());
    } else {
      var n := |list| - 1;
      SumCoordinates(list[..n]);
      assert list == list[..n] + [list[n]];
      TotalAppend(GOf, list[..n], [list[n]]);
      TotalAppend(HOf, list[..n], [list[n]]);
      if Sum(list).Some? {
        OwnCoordinates(list[n].point);
        PlusCoordinates(Sum(list[..n]).value, SumOver(GOf, list[..n]), SumOver(HOf, list[..n]), list[n].point, GOf(list[n]), HOf(list[n]));
        assert forall i :: 0 <= i < n ==> list[..n][i] == list[i];
      } else if list[n].Encoding? {
        var i :| 0 <= i < n && !list[..n][i].Encoding?;
        assert !list[i].Encoding?;
      }
    }
  }

  /** The homomorphism: the sum of two commitments commits to the sum of the values. */
  lemma {:induction false} CommitHomomorphic(v: u64, w: u64, r: Scalar, s: Scalar)
    requires v + w < TWO64
    ensures Encoding(Plus(Pedersen(v, r).point, Pedersen(w, s).point)) == Pedersen(v + w, Fold(r + s))
  {
  }
}
