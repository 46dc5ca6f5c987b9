/** UTF-8 as the runtime encodes, steps over and validates it.  A String cell's bytes are well formed when
    they are the encoding of some sequence of Unicode scalar values (section 3 of RFC 3629). */
module Utf8 {
  type Byte = bv8

  predicate IsScalar(c: bv32) {
    c < 0x11_0000 && !(0xD800 <= c < 0xE000)
  }

  type Scalar = c: bv32 | IsScalar(c)

  const REPLACEMENT: Scalar := 0xFFFD

  predicate IsCont(b: Byte) {
    b & 0xC0 == 0x80
  }

  /** The C cast to `char`: the low eight bits. */
  function Cut(c: bv32): Byte {
    (c & 0xFF) as Byte
  }

  function Width(c: Scalar): nat {
    if c < 0x80 then 1 else if c < 0x800 then 2 else if c < 0x1_0000 then 3 else 4
  }

  function Encode(c: Scalar): (e: seq<Byte>)
    ensures |e| == Width(c)
  {
    if c < 0x80 then [Cut(c)]
    else if c < 0x800 then
      [Cut(0xC0 | (c >> 6)), Cut(0x80 | (c & 0x3F))]
    else if c < 0x1_0000 then
      [Cut(0xE0 | (c >> 12)), Cut(0x80 | ((c >> 6) & 0x3F)), Cut(0x80 | (c & 0x3F))]
    else
      [Cut(0xF0 | (c >> 18)), Cut(0x80 | ((c >> 12) & 0x3F)), Cut(0x80 | ((c >> 6) & 0x3F)), Cut(0x80 | (c & 0x3F))]
  }

  function EncodeAll(s: seq<Scalar>): seq<Byte> {
    if s == [] then [] else Encode(s[0]) + EncodeAll(s[1..])
  }

  ghost predicate WellFormed(bs: seq<Byte>) {
    exists s: seq<Scalar> :: EncodeAll(s) == bs
  }

  ghost function Text(bs: seq<Byte>): (s: seq<Scalar>)
    requires WellFormed(bs)
    ensures EncodeAll(s) == bs
  {
    var s: seq<Scalar> :| EncodeAll(s) == bs; s
  }

  /** Bytes that are not continuation bytes, counted from the left. */
  function LeadCount(bs: seq<Byte>): nat {
    if bs == [] then 0
    else LeadCount(bs[..|bs| - 1]) + if IsCont(bs[|bs| - 1]) then 0 else 1
  }

  /** Positive where a scalar's encoding begins, and then its width; otherwise minus the number of bytes to skip. */
  function Step(p: seq<Byte>, i: nat): (st: int)
    requires i < |p|
    ensures 1 <= st <= 4 || -3 <= st <= -1
    ensures i + st <= |p| && i - st <= |p|
  {
    var n := |p|;
    var b0 := p[i];
    if b0 <= 0x7F then 1
    else if 0xC2 <= b0 <= 0xDF then
      if i + 1 < n && IsCont(p[i + 1]) then 2 else -1
    else if 0xE0 <= b0 <= 0xF4 then
      var wide := b0 >= 0xF0;
      var lo: Byte := if b0 == 0xE0 then 0xA0 else if b0 == 0xF0 then 0x90 else 0x80;
      var hi: Byte := if b0 == 0xED then 0x9F else if b0 == 0xF4 then 0x8F else 0xBF;
      if i + 1 >= n || p[i + 1] < lo || p[i + 1] > hi then -1
      else if i + 2 >= n || !IsCont(p[i + 2]) then -2
      else if !wide then 3
      else if i + 3 >= n || !IsCont(p[i + 3]) then -3
      else 4
    else -1
  }

  // ----- One encoding: its shape, its bytes back to its scalar

  lemma EncodeShape(c: Scalar)
    ensures !IsCont(Encode(c)[0])
    ensures forall k :: 1 <= k < |Encode(c)| ==> IsCont(Encode(c)[k])
  {
    assert IsScalar(c);
  }

  function Join2(b0: Byte, b1: Byte): bv32 {
    ((b0 & 0x1F) as bv32 << 6) | (b1 & 0x3F) as bv32
  }

  function Join3(b0: Byte, b1: Byte, b2: Byte): bv32 {
    ((((b0 & 0x0F) as bv32 << 6) | (b1 & 0x3F) as bv32) << 6) | (b2 & 0x3F) as bv32
  }

  function Join4(b0: Byte, b1: Byte, b2: Byte, b3: Byte): bv32 {
    ((((((b0 & 0x07) as bv32 << 6) | (b1 & 0x3F) as bv32) << 6) | (b2 & 0x3F) as bv32) << 6) | (b3 & 0x3F) as bv32
  }

  /** The value the decoder computes from `w` bytes at `p[i]`. */
  function Value(p: seq<Byte>, i: nat, w: nat): bv32
    requires 1 <= w <= 4 && i + w <= |p|
  {
    if w == 1 then p[i] as bv32
    else if w == 2 then Join2(p[i], p[i + 1])
    else if w == 3 then Join3(p[i], p[i + 1], p[i + 2])
    else Join4(p[i], p[i + 1], p[i + 2], p[i + 3])
  }

  lemma EncodeJoin1(b0: Byte)
    requires b0 <= 0x7F
    ensures IsScalar(b0 as bv32) && Encode(b0 as bv32) == [b0]
  {}

  lemma EncodeJoin2(b0: Byte, b1: Byte)
    requires 0xC2 <= b0 <= 0xDF && IsCont(b1)
    ensures IsScalar(Join2(b0, b1)) && Encode(Join2(b0, b1)) == [b0, b1]
  {}

  lemma LeadMask(b: Byte)
    ensures 0xE0 <= b <= 0xEF ==> b & 0xF0 == 0xE0
    ensures 0xF0 <= b <= 0xF4 ==> b & 0xF8 == 0xF0
  {}

  lemma Join3Range(b0: Byte, b1: Byte, b2: Byte)
    requires 0xE0 <= b0 <= 0xEF && IsCont(b1) && IsCont(b2)
    requires b0 == 0xE0 ==> b1 >= 0xA0
    requires b0 == 0xED ==> b1 <= 0x9F
    ensures 0x800 <= Join3(b0, b1, b2) < 0x1_0000 && IsScalar(Join3(b0, b1, b2))
  {}

  lemma Join3Bytes(b0: Byte, b1: Byte, b2: Byte)
    requires b0 & 0xF0 == 0xE0 && IsCont(b1) && IsCont(b2)
    ensures var c := Join3(b0, b1, b2);
            Cut(0xE0 | (c >> 12)) == b0 && Cut(0x80 | ((c >> 6) & 0x3F)) == b1 && Cut(0x80 | (c & 0x3F)) == b2
  {}

  lemma EncodeJoin3(b0: Byte, b1: Byte, b2: Byte)
    requires 0xE0 <= b0 <= 0xEF && IsCont(b1) && IsCont(b2)
    requires b0 == 0xE0 ==> b1 >= 0xA0
    requires b0 == 0xED ==> b1 <= 0x9F
    ensures IsScalar(Join3(b0, b1, b2)) && Encode(Join3(b0, b1, b2)) == [b0, b1, b2]
  {
    LeadMask(b0);
    Join3Range(b0, b1, b2);
    Join3Bytes(b0, b1, b2);
  }

  lemma Join4Range(b0: Byte, b1: Byte, b2: Byte, b3: Byte)
    requires 0xF0 <= b0 <= 0xF4 && IsCont(b1)
    requires b0 == 0xF0 ==> b1 >= 0x90
    requires b0 == 0xF4 ==> b1 <= 0x8F
    ensures 0x1_0000 <= Join4(b0, b1, b2, b3) < 0x11_0000
  {}

  lemma Join4Bytes(b0: Byte, b1: Byte, b2: Byte, b3: Byte)
    requires b0 & 0xF8 == 0xF0 && IsCont(b1) && IsCont(b2) && IsCont(b3)
    ensures var c := Join4(b0, b1, b2, b3);
            Cut(0xF0 | (c >> 18)) == b0 && Cut(0x80 | ((c >> 12) & 0x3F)) == b1
            && Cut(0x80 | ((c >> 6) & 0x3F)) == b2 && Cut(0x80 | (c & 0x3F)) == b3
  {}

  lemma EncodeJoin4(b0: Byte, b1: Byte, b2: Byte, b3: Byte)
    requires 0xF0 <= b0 <= 0xF4 && IsCont(b1) && IsCont(b2) && IsCont(b3)
    requires b0 == 0xF0 ==> b1 >= 0x90
    requires b0 == 0xF4 ==> b1 <= 0x8F
    ensures IsScalar(Join4(b0, b1, b2, b3)) && Encode(Join4(b0, b1, b2, b3)) == [b0, b1, b2, b3]
  {
    LeadMask(b0);
    Join4Range(b0, b1, b2, b3);
    Join4Bytes(b0, b1, b2, b3);
  }

  lemma Bits1(c: bv32)
    requires c < 0x80
    ensures Cut(c) as bv32 == c
  {}

  lemma Bits2(c: bv32)
    requires c < 0x800
    ensures Join2(Cut(0xC0 | (c >> 6)), Cut(0x80 | (c & 0x3F))) == c
  {}

  lemma Bits3(c: bv32)
    requires c < 0x1_0000
    ensures Join3(Cut(0xE0 | (c >> 12)), Cut(0x80 | ((c >> 6) & 0x3F)), Cut(0x80 | (c & 0x3F))) == c
  {}

  lemma Bits4(c: bv32)
    requires c < 0x20_0000
    ensures Join4(Cut(0xF0 | (c >> 18)), Cut(0x80 | ((c >> 12) & 0x3F)), Cut(0x80 | ((c >> 6) & 0x3F)),
                  Cut(0x80 | (c & 0x3F))) == c
  {}

  lemma JoinEncode(c: Scalar)
    ensures Value(Encode(c), 0, Width(c)) == c
  {
    assert IsScalar(c);
    if c < 0x80 { Bits1(c); } else if c < 0x800 { Bits2(c); } else if c < 0x1_0000 { Bits3(c); } else { Bits4(c); }
  }

  /** What the lead bytes and second bytes of each width of encoding can be. */
  lemma EncodeRanges(c: Scalar)
    ensures var e := Encode(c);
            && (|e| == 1 ==> e[0] <= 0x7F)
            && (|e| == 2 ==> 0xC2 <= e[0] <= 0xDF)
            && (|e| == 3 ==> 0xE0 <= e[0] <= 0xEF && (e[0] == 0xE0 ==> e[1] >= 0xA0) && (e[0] == 0xED ==> e[1] <= 0x9F))
            && (|e| == 4 ==> 0xF0 <= e[0] <= 0xF4 && (e[0] == 0xF0 ==> e[1] >= 0x90) && (e[0] == 0xF4 ==> e[1] <= 0x8F))
  {
    assert IsScalar(c);
  }

  ghost predicate StartsWithScalar(p: seq<Byte>, i: nat, c: Scalar) {
    i + Width(c) <= |p| && p[i..i + Width(c)] == Encode(c)
  }

  lemma ContRange(b: Byte)
    ensures IsCont(b) <==> 0x80 <= b <= 0xBF
  {}

  /** The stepping table accepts every encoding, with its own length. */
  lemma StepAcceptsScalar(p: seq<Byte>, i: nat, c: Scalar)
    requires StartsWithScalar(p, i, c)
    ensures Step(p, i) == Width(c) && Value(p, i, Width(c)) == c
  {
    hide Encode, Join2, Join3, Join4;
    var e := Encode(c);
    EncodeShape(c);
    EncodeRanges(c);
    JoinEncode(c);
    forall k | 0 <= k < |e| ensures p[i + k] == e[k] {
      assert p[i + k] == p[i..i + |e|][k];
    }
    forall k | 1 <= k < |e| ensures 0x80 <= e[k] <= 0xBF { ContRange(e[k]); }
  }

  lemma WideStep(p: seq<Byte>, i: nat)
    requires i < |p| && Step(p, i) >= 3
    ensures IsCont(p[i + 1]) && IsCont(p[i + 2])
    ensures Step(p, i) == 3 ==> 0xE0 <= p[i] <= 0xEF
    ensures Step(p, i) == 4 ==> 0xF0 <= p[i] <= 0xF4 && IsCont(p[i + 3])
    ensures p[i] == 0xE0 ==> p[i + 1] >= 0xA0
    ensures p[i] == 0xED ==> p[i + 1] <= 0x9F
    ensures p[i] == 0xF0 ==> p[i + 1] >= 0x90
    ensures p[i] == 0xF4 ==> p[i + 1] <= 0x8F
  {
    ContRange(p[i + 1]);
  }

  /** ...and accepts nothing else. */
  lemma StepFindsScalar(p: seq<Byte>, i: nat)
    requires i < |p| && Step(p, i) > 0
    ensures var st := Step(p, i);
            IsScalar(Value(p, i, st)) && StartsWithScalar(p, i, Value(p, i, st)) && Width(Value(p, i, st)) == st
  {
    hide Encode, Join2, Join3, Join4, IsScalar;
    var st := Step(p, i);
    if st == 1 {
      EncodeJoin1(p[i]);
      assert p[i..i + 1] == [p[i]];
    } else if st == 2 {
      EncodeJoin2(p[i], p[i + 1]);
      assert p[i..i + 2] == [p[i], p[i + 1]];
    } else if st == 3 {
      WideStep(p, i);
      EncodeJoin3(p[i], p[i + 1], p[i + 2]);
      assert p[i..i + 3] == [p[i], p[i + 1], p[i + 2]];
    } else {
      WideStep(p, i);
      EncodeJoin4(p[i], p[i + 1], p[i + 2], p[i + 3]);
      assert p[i..i + 4] == [p[i], p[i + 1], p[i + 2], p[i + 3]];
    }
  }

  /** Encodings are prefix-free: bytes that start with two encodings start with one scalar. */
  lemma EncodePrefixFree(x: Scalar, u: seq<Byte>, y: Scalar, v: seq<Byte>)
    requires Encode(x) + u == Encode(y) + v
    ensures x == y && u == v
  {
    var p := Encode(x) + u;
    assert p[0..0 + Width(x)] == Encode(x);
    assert p[0..0 + Width(y)] == Encode(y);
    StepAcceptsScalar(p, 0, x);
    StepAcceptsScalar(p, 0, y);
    assert u == p[Width(x)..] && v == p[Width(y)..];
  }

  // ----- Sequences of encodings

  lemma {:induction false} EncodeAllAppend(s: seq<Scalar>, t: seq<Scalar>)
    ensures EncodeAll(s + t) == EncodeAll(s) + EncodeAll(t)
  {
    if s == [] {
      assert s + t == t;
    } else {
      assert (s + t)[1..] == s[1..] + t;
      EncodeAllAppend(s[1..], t);
      assert EncodeAll(s + t) == Encode(s[0]) + (EncodeAll(s[1..]) + EncodeAll(t));
    }
  }

  lemma EncodeAllOne(c: Scalar)
    ensures EncodeAll([c]) == Encode(c)
  {
    assert EncodeAll([c]) == Encode(c) + EncodeAll([]);
  }

  lemma EncodeAllSnoc(s: seq<Scalar>, c: Scalar)
    ensures EncodeAll(s + [c]) == EncodeAll(s) + Encode(c)
  {
    EncodeAllAppend(s, [c]);
    EncodeAllOne(c);
  }

  lemma EncodeAllSplit(s: seq<Scalar>, k: nat)
    requires k <= |s|
    ensures EncodeAll(s) == EncodeAll(s[..k]) + EncodeAll(s[k..])
  {
    assert s == s[..k] + s[k..];
    EncodeAllAppend(s[..k], s[k..]);
  }

  /** A text whose bytes are a prefix of another's is a prefix of it. */
  lemma {:induction false} EncodeAllPrefix(a: seq<Scalar>, b: seq<Scalar>)
    requires EncodeAll(a) <= EncodeAll(b)
    ensures a <= b
  {
    if a != [] {
      var ea, eb := EncodeAll(a), EncodeAll(b);
      assert b != [];
      assert eb == Encode(a[0]) + (EncodeAll(a[1..]) + eb[|ea|..]);
      EncodePrefixFree(a[0], EncodeAll(a[1..]) + eb[|ea|..], b[0], EncodeAll(b[1..]));
      EncodeAllPrefix(a[1..], b[1..]);
      assert a == [a[0]] + a[1..] && b == [b[0]] + b[1..];
    }
  }

  lemma EncodeAllInjective(a: seq<Scalar>, b: seq<Scalar>)
    requires EncodeAll(a) == EncodeAll(b)
    ensures a == b
  {
    EncodeAllPrefix(a, b);
    EncodeAllPrefix(b, a);
  }

  lemma TextOfEncodeAll(s: seq<Scalar>)
    ensures WellFormed(EncodeAll(s)) && Text(EncodeAll(s)) == s
  {
    EncodeAllInjective(Text(EncodeAll(s)), s);
  }

  // ----- Counting lead bytes counts scalars

  lemma {:induction false} LeadCountAppend(a: seq<Byte>, b: seq<Byte>)
    ensures LeadCount(a + b) == LeadCount(a) + LeadCount(b)
  {
    if b == [] {
      assert a + b == a;
    } else {
      assert (a + b)[..|a + b| - 1] == a + b[..|b| - 1];
      LeadCountAppend(a, b[..|b| - 1]);
    }
  }

  lemma LeadCountEncode(c: Scalar)
    ensures LeadCount(Encode(c)) == 1
  {
    EncodeShape(c);
    var e := Encode(c);
    assert LeadCount(e[..1]) == 1 by { assert e[..1][..0] == []; }
    if |e| >= 2 { assert e[..2][..1] == e[..1]; assert LeadCount(e[..2]) == 1; }
    if |e| >= 3 { assert e[..3][..2] == e[..2]; assert LeadCount(e[..3]) == 1; }
    if |e| == 4 { assert e[..4][..3] == e[..3]; assert LeadCount(e[..4]) == 1; }
    assert e[..|e|] == e;
  }

  lemma {:induction false} LeadCountIsLength(s: seq<Scalar>)
    ensures LeadCount(EncodeAll(s)) == |s|
  {
    if s != [] {
      LeadCountAppend(Encode(s[0]), EncodeAll(s[1..]));
      LeadCountEncode(s[0]);
      LeadCountIsLength(s[1..]);
    }
  }

  // ----- Boundaries: byte offsets between scalars

  function Offset(s: seq<Scalar>, k: nat): nat
    requires k <= |s|
  {
    |EncodeAll(s[..k])|
  }

  lemma OffsetStep(s: seq<Scalar>, k: nat)
    requires k < |s|
    ensures Offset(s, k + 1) == Offset(s, k) + Width(s[k]) <= |EncodeAll(s)|
    ensures StartsWithScalar(EncodeAll(s), Offset(s, k), s[k])
  {
    assert s[..k + 1] == s[..k] + [s[k]];
    EncodeAllSnoc(s[..k], s[k]);
    EncodeAllSplit(s, k + 1);
    var bs, b := EncodeAll(s), Offset(s, k);
    assert bs[..b + Width(s[k])] == EncodeAll(s[..k]) + Encode(s[k]);
    assert bs[b..b + Width(s[k])] == bs[..b + Width(s[k])][b..];
  }

  lemma OffsetEnds(s: seq<Scalar>)
    ensures Offset(s, 0) == 0 && Offset(s, |s|) == |EncodeAll(s)|
  {
    assert s[..|s|] == s;
  }

  lemma {:induction false} OffsetMonotone(s: seq<Scalar>, j: nat, k: nat)
    requires j <= k <= |s|
    ensures Offset(s, j) + (k - j) <= Offset(s, k) <= |EncodeAll(s)|
    decreases k - j
  {
    if j < k {
      OffsetStep(s, j);
      OffsetMonotone(s, j + 1, k);
    } else {
      EncodeAllSplit(s, k);
    }
  }

  lemma OffsetSlice(s: seq<Scalar>, j: nat, k: nat)
    requires j <= k <= |s|
    ensures Offset(s, j) <= Offset(s, k) <= |EncodeAll(s)|
    ensures EncodeAll(s)[Offset(s, j)..Offset(s, k)] == EncodeAll(s[j..k])
  {
    OffsetMonotone(s, j, k);
    EncodeAllSplit(s, k);
    assert s[..k][..j] == s[..j] && s[..k][j..] == s[j..k];
    EncodeAllSplit(s[..k], j);
    assert EncodeAll(s)[..Offset(s, k)] == EncodeAll(s[..k]);
    assert EncodeAll(s)[Offset(s, j)..Offset(s, k)] == EncodeAll(s)[..Offset(s, k)][Offset(s, j)..];
  }

  /** Inside the bytes of scalar `k` only the first is not a continuation byte. */
  lemma OffsetInterior(s: seq<Scalar>, k: nat, b: nat)
    requires k < |s| && Offset(s, k) <= b < Offset(s, k + 1)
    ensures b < |EncodeAll(s)|
    ensures IsCont(EncodeAll(s)[b]) <==> b != Offset(s, k)
  {
    hide Encode, EncodeAll, IsCont, Width;
    OffsetStep(s, k);
    EncodeShape(s[k]);
    var bs, o := EncodeAll(s), Offset(s, k);
    assert bs[b] == bs[o..o + Width(s[k])][b - o];
  }

  /** A byte offset on a lead byte, or at the end, is the offset of the scalar its lead count names. */
  lemma {:induction false} BoundaryIsOffset(s: seq<Scalar>, b: nat)
    requires b <= |EncodeAll(s)| && (b == |EncodeAll(s)| || !IsCont(EncodeAll(s)[b]))
    ensures var k := LeadCount(EncodeAll(s)[..b]); k <= |s| && Offset(s, k) == b
  {
    OffsetEnds(s);
    var k := 0;
    while k < |s| && Offset(s, k + 1) <= b
      invariant k <= |s| && Offset(s, k) <= b
      decreases |s| - k
    {
      k := k + 1;
    }
    if k < |s| { OffsetInterior(s, k, b); }
    assert Offset(s, k) == b;
    EncodeAllSplit(s, k);
    assert EncodeAll(s)[..b] == EncodeAll(s[..k]);
    LeadCountIsLength(s[..k]);
  }

  lemma OffsetIsBoundary(s: seq<Scalar>, k: nat)
    requires k <= |s|
    ensures Offset(s, k) <= |EncodeAll(s)|
    ensures Offset(s, k) == |EncodeAll(s)| || !IsCont(EncodeAll(s)[Offset(s, k)])
    ensures LeadCount(EncodeAll(s)[..Offset(s, k)]) == k
  {
    OffsetMonotone(s, k, |s|);
    OffsetEnds(s);
    EncodeAllSplit(s, k);
    assert EncodeAll(s)[..Offset(s, k)] == EncodeAll(s[..k]);
    LeadCountIsLength(s[..k]);
    if k < |s| {
      OffsetStep(s, k);
      OffsetInterior(s, k, Offset(s, k));
    }
  }
}
