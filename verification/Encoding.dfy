/** The length-prefixed byte string that `hash_multi` feeds to the hasher (crates/nightfall-crypto/src/lib.rs). */
module Encoding {
  import opened Wrappers
  import opened Words

  type Byte = x: int | 0 <= x < 256

  type Bytes = seq<Byte>

  /** The low n bytes of a number, least significant first. */
  function LittleEndian(x: nat, n: nat): (b: Bytes)
    ensures |b| == n
  {
    if n == 0 then [] else [(x % 256) as Byte] + LittleEndian(x / 256, n - 1)
  }

  function FromLittleEndian(b: Bytes): nat {
    if b == [] then 0 else b[0] + 256 * FromLittleEndian(b[1..])
  }

  function Power256(n: nat): nat {
    if n == 0 then 1 else 256 * Power256(n - 1)
  }

  lemma {:induction false} LittleEndianInverts(x: nat, n: nat)
    requires x < Power256(n)
    ensures FromLittleEndian(LittleEndian(x, n)) == x
  {
    if n > 0 {
      LittleEndianInverts(x / 256, n - 1);
      assert LittleEndian(x, n)[1..] == LittleEndian(x / 256, n - 1);
    }
  }

  function Prefixed(b: Bytes): Bytes {
    LittleEndian(|b|, 8) + b
  }

  function EncodeParts(parts: seq<Bytes>): Bytes {
    if parts == [] then [] else EncodeParts(parts[..|parts| - 1]) + Prefixed(parts[|parts| - 1])
  }

  /** Domain, number of parts, parts: each with its length in front, lengths as 64-bit integers. */
  function Encode(domain: Bytes, parts: seq<Bytes>): Bytes {
    Prefixed(domain) + LittleEndian(|parts|, 8) + EncodeParts(parts)
  }

  /** The loop of `hash_multi`, with the bytes fed to the hasher so far. */
  method HashMulti(domain: Bytes, parts: seq<Bytes>) returns (fed: Bytes)
    ensures fed == Encode(domain, parts)
  {
    fed := LittleEndian(|domain|, 8);
    fed := fed + domain;
    fed := fed + LittleEndian(|parts|, 8);
    ghost var head := fed;
    assert parts[..0] == [] && parts[..|parts|] == parts;
    for i := 0 to |parts|
      invariant fed == head + EncodeParts(parts[..i])
    {
      assert parts[..i + 1][..i] == parts[..i];
      fed := fed + LittleEndian(|parts[i]|, 8);
      fed := fed + parts[i];
    }
  }

  // -------------------------------------------------------------- decoding --

  /** One prefixed string off the front. */
  function TakePrefixed(b: Bytes): Option<(Bytes, Bytes)> {
    if |b| < 8 then None
    else
      var n := FromLittleEndian(b[..8]);
      if |b| - 8 < n then None else Some((b[8..8 + n], b[8 + n..]))
  }

  function DecodeParts(n: nat, b: Bytes): Option<(seq<Bytes>, Bytes)> {
    if n == 0 then Some(([], b))
    else
      match TakePrefixed(b)
      case None => None
      case Some((first, rest)) =>
        match DecodeParts(n - 1, rest)
        case None => None
        case Some((more, left)) => Some(([first] + more, left))
  }

  function Decode(b: Bytes): Option<(Bytes, seq<Bytes>)> {
    match TakePrefixed(b)
    case None => None
    case Some((domain, rest)) =>
      if |rest| < 8 then None
      else
        match DecodeParts(FromLittleEndian(rest[..8]), rest[8..])
        case Some((parts, left)) => if left == [] then Some((domain, parts)) else None
        case None => None
  }

  lemma {:induction false} Eight()
    ensures Power256(8) == TWO64
  {
    assert Power256(4) == 0x1_0000_0000;
  }

  lemma {:induction false} TakeInverts(b: Bytes, rest: Bytes)
    requires |b| < TWO64
    ensures TakePrefixed(Prefixed(b) + rest) == Some((b, rest))
  {
    var whole := Prefixed(b) + rest;
    Eight();
    LittleEndianInverts(|b|, 8);
    assert whole[..8] == LittleEndian(|b|, 8);
    assert whole[8..8 + |b|] == b && whole[8 + |b|..] == rest;
  }

  lemma {:induction false} Assoc(a: Bytes, b: Bytes, c: Bytes)
    ensures (a + b) + c == a + (b + c)
  {
  }

  lemma {:induction false} PartsFromFront(parts: seq<Bytes>)
    requires parts != []
    ensures EncodeParts(parts) == Prefixed(parts[0]) + EncodeParts(parts[1..])
    decreases |parts|
  {
    hide Prefixed;
    if |parts| == 1 {
      OnePart(parts);
    } else {
      var n := |parts| - 1;
      var middle, last := parts[1..n], parts[n];
      PartsFromFront(parts[..n]);
      assert parts[..n][1..] == middle && parts[1..][..n - 1] == middle;
      Assoc(Prefixed(parts[0]), EncodeParts(middle), Prefixed(last));
    }
  }

  lemma {:induction false} OnePart(parts: seq<Bytes>)
    requires |parts| == 1
    ensures EncodeParts(parts) == Prefixed(parts[0]) && EncodeParts(parts[1..]) == []
  {
    hide Prefixed;
    assert parts[..0] == [] && parts[1..] == [];
    assert EncodeParts([]) + Prefixed(parts[0]) == Prefixed(parts[0]);
  }

  /** What decoding makes of one part and the rest. */
  function Prepend(first: Bytes, r: Option<(seq<Bytes>, Bytes)>): Option<(seq<Bytes>, Bytes)> {
    match r
    case None => None
    case Some((more, left)) => Some(([first] + more, left))
  }

  lemma {:induction false} DecodeOne(n: nat, first: Bytes, rest: Bytes)
    requires n > 0 && |first| < TWO64
    ensures DecodeParts(n, Prefixed(first) + rest) == Prepend(first, DecodeParts(n - 1, rest))
  {
    hide TakePrefixed, Prefixed;
    TakeInverts(first, rest);
  }

  lemma {:induction false} PartsInvert(parts: seq<Bytes>, rest: Bytes)
    requires forall i :: 0 <= i < |parts| ==> |parts[i]| < TWO64
    ensures DecodeParts(|parts|, EncodeParts(parts) + rest) == Some((parts, rest))
    decreases |parts|
  {
    if parts == [] {
      assert EncodeParts(parts) + rest == rest;
    } else {
      hide Prefixed, EncodeParts, DecodeParts;
      var more := parts[1..];
      PartsFromFront(parts);
      PartsInvert(more, rest);
      Assoc(Prefixed(parts[0]), EncodeParts(more), rest);
      DecodeOne(|parts|, parts[0], EncodeParts(more) + rest);
      assert [parts[0]] + more == parts;
    }
  }

  ghost predicate Lengths64(domain: Bytes, parts: seq<Bytes>) {
    |domain| < TWO64 && |parts| < TWO64 && forall i :: 0 <= i < |parts| ==> |parts[i]| < TWO64
  }

  /** The encoding is uniquely decodable. */
  lemma {:induction false} DecodeInvertsEncode(domain: Bytes, parts: seq<Bytes>)
    requires Lengths64(domain, parts)
    ensures Decode(Encode(domain, parts)) == Some((domain, parts))
  {
    hide TakePrefixed, Prefixed, EncodeParts, DecodeParts;
    var rest := LittleEndian(|parts|, 8) + EncodeParts(parts);
    assert Encode(domain, parts) == Prefixed(domain) + rest;
    TakeInverts(domain, rest);
    Eight();
    LittleEndianInverts(|parts|, 8);
    assert rest[..8] == LittleEndian(|parts|, 8) && rest[8..] == EncodeParts(parts);
    assert EncodeParts(parts) + [] == EncodeParts(parts);
    PartsInvert(parts, []);
  }

  /** Different domains or part lists never feed the hasher the same bytes. */
  lemma {:induction false} EncodeInjective(domain: Bytes, parts: seq<Bytes>, domain': Bytes, parts': seq<Bytes>)
    requires Lengths64(domain, parts) && Lengths64(domain', parts')
    ensures Encode(domain, parts) == Encode(domain', parts') <==> domain == domain' && parts == parts'
  {
    hide Encode, Decode;
    DecodeInvertsEncode(domain, parts);
    DecodeInvertsEncode(domain', parts');
  }

  /** The nine fields of the proof-of-work pre-image, as they are encoded. */
  datatype Preimage = Preimage(version: nat, height: nat, prevHash: Bytes, utxoRoot: Bytes, kernelSum: Bytes, bodyRoot: Bytes,
                               timestamp: nat, difficulty: nat, reward: nat)

  ghost predicate InRange(p: Preimage) {
    && p.version < Power256(4) && p.height < Power256(8) && p.timestamp < Power256(8)
    && p.difficulty < Power256(8) && p.reward < Power256(8)
    && |p.prevHash| == 32 && |p.utxoRoot| == 32 && |p.kernelSum| == 32 && |p.bodyRoot| == 32
  }

  /** `pow_preimage`, before hashing. */
  function PreimageParts(p: Preimage): seq<Bytes> {
    [LittleEndian(p.version, 4), LittleEndian(p.height, 8), p.prevHash, p.utxoRoot, p.kernelSum, p.bodyRoot,
     LittleEndian(p.timestamp, 8), LittleEndian(p.difficulty, 8), LittleEndian(p.reward, 8)]
  }

  lemma {:induction false} SameNumber(x: nat, y: nat, n: nat)
    requires x < Power256(n) && y < Power256(n)
    ensures LittleEndian(x, n) == LittleEndian(y, n) <==> x == y
  {
    LittleEndianInverts(x, n);
    LittleEndianInverts(y, n);
  }

  /** Distinct header fields give distinct proof-of-work pre-images. */
  lemma {:induction false} PreimageInjective(domain: Bytes, p: Preimage, q: Preimage)
    requires |domain| < TWO64 && InRange(p) && InRange(q)
    ensures Encode(domain, PreimageParts(p)) == Encode(domain, PreimageParts(q)) <==> p == q
  {
    hide Encode, LittleEndian, Power256;
    var a, b := PreimageParts(p), PreimageParts(q);
    EncodeInjective(domain, a, domain, b);
    SameNumber(p.version, q.version, 4);
    SameNumber(p.height, q.height, 8);
    SameNumber(p.timestamp, q.timestamp, 8);
    SameNumber(p.difficulty, q.difficulty, 8);
    SameNumber(p.reward, q.reward, 8);
    if a == b {
      assert a[0] == b[0] && a[1] == b[1] && a[2] == b[2] && a[3] == b[3] && a[4] == b[4] && a[5] == b[5] && a[6] == b[6]
             && a[7] == b[7] && a[8] == b[8];
    }
  }
}
