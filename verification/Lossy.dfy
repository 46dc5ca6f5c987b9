/** Reading bytes of unknown provenance: validation, and lossy decoding, which puts a replacement character where the
    bytes are ill-formed (section 3.9 of the Unicode Standard). */
module Lossy {
  import opened Utf8
  import opened Words
  import Cells

  // ----- Validation

  lemma {:induction false} AsciiScalars(p: seq<Byte>, i: nat, n: nat, t: seq<Scalar>) returns (t': seq<Scalar>)
    requires i + n <= |p| && EncodeAll(t) == p[..i]
    requires forall k :: i <= k < i + n ==> p[k] < 0x80
    ensures EncodeAll(t') == p[..i + n] && |t'| == |t| + n
    decreases n
  {
    if n == 0 {
      t' := t;
    } else {
      assert p[i] < 0x80;
      EncodeJoin1(p[i]);
      EncodeAllSnoc(t, p[i] as bv32);
      assert p[..i + 1] == p[..i] + [p[i]];
      t' := AsciiScalars(p, i + 1, n - 1, t + [p[i] as bv32]);
    }
  }

  lemma StepScalar(p: seq<Byte>, i: nat, t: seq<Scalar>) returns (t': seq<Scalar>)
    requires i < |p| && EncodeAll(t) == p[..i] && Step(p, i) > 0
    ensures EncodeAll(t') == p[..i + Step(p, i)] && |t'| == |t| + 1
  {
    StepFindsScalar(p, i);
    var c: Scalar := Value(p, i, Step(p, i));
    EncodeAllSnoc(t, c);
    assert p[..i + Step(p, i)] == p[..i] + p[i..i + Step(p, i)];
    t' := t + [c];
  }

  lemma StuckIsIllFormed(p: seq<Byte>, i: nat, t: seq<Scalar>)
    requires i < |p| && EncodeAll(t) == p[..i] && Step(p, i) < 0
    ensures !WellFormed(p)
  {
    if WellFormed(p) {
      var s := Text(p);
      assert EncodeAll(t) <= EncodeAll(s);
      EncodeAllPrefix(t, s);
      assert s[..|t|] == t;
      OffsetEnds(s);
      assert |t| < |s|;
      OffsetStep(s, |t|);
      StepAcceptsScalar(p, i, s[|t|]);
    }
  }

  /** The code point count of well-formed bytes, and -1 for anything else. */
  method ValidCount(p: seq<Byte>) returns (c: int)
    ensures WellFormed(p) ==> c == |Text(p)|
    ensures !WellFormed(p) ==> c == -1
  {
    var i := 0;
    c := 0;
    ghost var t: seq<Scalar> := [];
    while i < |p|
      invariant 0 <= i <= |p| && EncodeAll(t) == p[..i] && c == |t|
    {
      if i + 8 <= |p| {
        var w := Load(p, i);
        if w & HIGH == 0 {
          AsciiWord(w, p, i);
          t := AsciiScalars(p, i, 8, t);
          i, c := i + 8, c + 8;
          continue;
        }
      }
      if p[i] < 0x80 {
        t := AsciiScalars(p, i, 1, t);
        i, c := i + 1, c + 1;
        continue;
      }
      var st := Step(p, i);
      if st < 0 {
        StuckIsIllFormed(p, i, t);
        return -1;
      }
      t := StepScalar(p, i, t);
      i, c := i + st, c + 1;
    }
    assert p[..i] == p;
    TextOfEncodeAll(t);
  }

  // ----- Lossy decoding

  /** What lossy decoding denotes from byte `i` on. */
  function Decoded(p: seq<Byte>, i: nat): (t: seq<Scalar>)
    requires i <= |p|
    decreases |p| - i
  {
    if i == |p| then []
    else
      var st := Step(p, i);
      if st > 0 then
        StepFindsScalar(p, i);
        [Value(p, i, st)] + Decoded(p, i + st)
      else [REPLACEMENT] + Decoded(p, i - st)
  }

  /** `p[i..i + k]` starts an encoding it does not finish. */
  ghost predicate Truncates(p: seq<Byte>, i: nat, k: nat)
    requires i + k <= |p|
  {
    exists c: Scalar :: k < Width(c) && p[i..i + k] == Encode(c)[..k]
  }

  /** The Unicode Standard's maximal subpart of an ill-formed sequence: the longest start of some encoding, or one
      byte. */
  ghost predicate MaximalSubpart(p: seq<Byte>, i: nat, k: nat) {
    && 1 <= k && i + k <= |p|
    && (k == 1 || Truncates(p, i, k))
    && forall m :: k < m <= |p| - i ==> !Truncates(p, i, m)
  }

  lemma TruncatedBytes(p: seq<Byte>, i: nat, k: nat, c: Scalar)
    requires i + k <= |p| && k < Width(c) && p[i..i + k] == Encode(c)[..k]
    ensures forall j :: 0 <= j < k ==> p[i + j] == Encode(c)[j]
  {
    forall j | 0 <= j < k ensures p[i + j] == Encode(c)[j] {
      assert p[i + j] == p[i..i + k][j];
    }
  }

  /** A lead and a second byte that start an encoding take the step past both. */
  lemma StepPastSecond(p: seq<Byte>, i: nat, c: Scalar)
    requires i + 2 <= |p| && Width(c) >= 3 && p[i] == Encode(c)[0] && p[i + 1] == Encode(c)[1]
    ensures Step(p, i) != -1
    ensures i + 3 <= |p| && Width(c) == 4 && p[i + 2] == Encode(c)[2] ==> Step(p, i) != -2
  {
    EncodeRanges(c);
    EncodeShape(c);
    ContRange(Encode(c)[1]);
    hide Encode;
  }

  /** Nothing longer than the subpart starts an encoding. */
  lemma SubpartIsLongest(p: seq<Byte>, i: nat, m: nat)
    requires i < |p| && Step(p, i) < 0 && -Step(p, i) < m <= |p| - i
    ensures !Truncates(p, i, m)
  {
    hide Step, Encode;
    if Truncates(p, i, m) {
      var c: Scalar :| m < Width(c) && p[i..i + m] == Encode(c)[..m];
      TruncatedBytes(p, i, m, c);
      StepPastSecond(p, i, c);
    }
  }

  lemma Truncates2(p: seq<Byte>, i: nat)
    requires i < |p| && Step(p, i) == -2
    ensures Truncates(p, i, 2)
  {
    var cont: Byte := 0x80;
    ContRange(p[i + 1]);
    assert p[i..i + 2] == [p[i], p[i + 1]];
    if p[i] < 0xF0 {
      EncodeJoin3(p[i], p[i + 1], cont);
      var c: Scalar := Join3(p[i], p[i + 1], cont);
      assert Encode(c)[..2] == [p[i], p[i + 1]];
    } else {
      EncodeJoin4(p[i], p[i + 1], cont, cont);
      var c: Scalar := Join4(p[i], p[i + 1], cont, cont);
      assert Encode(c)[..2] == [p[i], p[i + 1]];
    }
  }

  lemma Truncates3(p: seq<Byte>, i: nat)
    requires i < |p| && Step(p, i) == -3
    ensures Truncates(p, i, 3)
  {
    var cont: Byte := 0x80;
    ContRange(p[i + 1]);
    assert p[i..i + 3] == [p[i], p[i + 1], p[i + 2]];
    EncodeJoin4(p[i], p[i + 1], p[i + 2], cont);
    var c: Scalar := Join4(p[i], p[i + 1], p[i + 2], cont);
    assert Encode(c)[..3] == [p[i], p[i + 1], p[i + 2]];
  }

  /** The stepping table decides exactly which bytes start a scalar, and otherwise measures the maximal subpart. */
  lemma StepIsMaximalSubpart(p: seq<Byte>, i: nat)
    requires i < |p|
    ensures Step(p, i) > 0 <==> exists c: Scalar :: StartsWithScalar(p, i, c)
    ensures Step(p, i) < 0 ==> MaximalSubpart(p, i, -Step(p, i))
  {
    var st := Step(p, i);
    if st > 0 {
      StepFindsScalar(p, i);
    } else {
      if exists c: Scalar :: StartsWithScalar(p, i, c) {
        var c: Scalar :| StartsWithScalar(p, i, c);
        StepAcceptsScalar(p, i, c);
      }
      forall m | -st < m <= |p| - i ensures !Truncates(p, i, m) { SubpartIsLongest(p, i, m); }
      if st == -2 { Truncates2(p, i); } else if st == -3 { Truncates3(p, i); }
    }
  }

  /** The standard's rule for one step: `k` bytes stand for `c`, a scalar as it is or one U+FFFD for a maximal
      subpart. */
  ghost predicate LossyStep(p: seq<Byte>, i: nat, c: Scalar, k: nat) {
    || (StartsWithScalar(p, i, c) && k == Width(c))
    || ((forall x: Scalar :: !StartsWithScalar(p, i, x)) && c == REPLACEMENT && MaximalSubpart(p, i, k))
  }

  ghost predicate LossyDecoding(p: seq<Byte>, i: nat, t: seq<Scalar>)
    decreases |t|
  {
    if t == [] then i == |p|
    else exists k: nat :: LossyStep(p, i, t[0], k) && LossyDecoding(p, i + k, t[1..])
  }

  lemma MaximalSubpartUnique(p: seq<Byte>, i: nat, j: nat, k: nat)
    requires MaximalSubpart(p, i, j) && MaximalSubpart(p, i, k)
    ensures j == k
  {}

  function Head(p: seq<Byte>, i: nat): Scalar
    requires i < |p|
  {
    var st := Step(p, i);
    if st > 0 then StepFindsScalar(p, i); Value(p, i, st) else REPLACEMENT
  }

  function Advance(p: seq<Byte>, i: nat): nat
    requires i < |p|
  {
    if Step(p, i) > 0 then Step(p, i) else -Step(p, i)
  }

  lemma StepIsLossyStep(p: seq<Byte>, i: nat, c: Scalar, k: nat)
    requires i < |p|
    ensures LossyStep(p, i, c, k) <==> c == Head(p, i) && k == Advance(p, i)
  {
    StepIsMaximalSubpart(p, i);
    if Step(p, i) > 0 {
      StepFindsScalar(p, i);
      if StartsWithScalar(p, i, c) { StepAcceptsScalar(p, i, c); }
    } else if MaximalSubpart(p, i, k) {
      MaximalSubpartUnique(p, i, k, Advance(p, i));
    }
  }

  /** The decoder's result is the one text the standard's rule allows. */
  lemma {:induction false} DecodedIsLossyDecoding(p: seq<Byte>, i: nat, t: seq<Scalar>)
    requires i <= |p|
    ensures LossyDecoding(p, i, t) <==> t == Decoded(p, i)
    decreases |p| - i
  {
    hide Step, Value, LossyStep;
    if i < |p| && t != [] {
      var n := Advance(p, i);
      assert Decoded(p, i) == [Head(p, i)] + Decoded(p, i + n);
      assert t == [t[0]] + t[1..];
      DecodedIsLossyDecoding(p, i + n, t[1..]);
      StepIsLossyStep(p, i, t[0], n);
      if LossyDecoding(p, i, t) {
        var k: nat :| LossyStep(p, i, t[0], k) && LossyDecoding(p, i + k, t[1..]);
        StepIsLossyStep(p, i, t[0], k);
      }
    } else if i == |p| && t != [] {
      if LossyDecoding(p, i, t) {
        var k: nat :| LossyStep(p, i, t[0], k) && LossyDecoding(p, i + k, t[1..]);
        NoStepAtEnd(p, t[0], k);
      }
    }
  }

  lemma NoStepAtEnd(p: seq<Byte>, c: Scalar, k: nat)
    ensures !LossyStep(p, |p|, c, k)
  {}

  lemma {:induction false} DecodedOfEncoded(s: seq<Scalar>, k: nat)
    requires k <= |s|
    ensures Offset(s, k) <= |EncodeAll(s)| && Decoded(EncodeAll(s), Offset(s, k)) == s[k..]
    decreases |s| - k
  {
    hide Step, Value, StartsWithScalar, Width;
    OffsetEnds(s);
    if k < |s| {
      OffsetStep(s, k);
      StepAcceptsScalar(EncodeAll(s), Offset(s, k), s[k]);
      DecodedOfEncoded(s, k + 1);
      assert s[k..] == [s[k]] + s[k + 1..];
    }
  }

  /** Lossy decoding is the identity on well-formed bytes, and so decoding its own output changes nothing. */
  lemma LossyIdempotent(p: seq<Byte>)
    ensures WellFormed(p) ==> EncodeAll(Decoded(p, 0)) == p && Decoded(p, 0) == Utf8.Text(p)
    ensures Decoded(EncodeAll(Decoded(p, 0)), 0) == Decoded(p, 0)
  {
    if WellFormed(p) {
      OffsetEnds(Utf8.Text(p));
      DecodedOfEncoded(Utf8.Text(p), 0);
      assert Utf8.Text(p)[0..] == Utf8.Text(p);
    }
    var d := Decoded(p, 0);
    OffsetEnds(d);
    DecodedOfEncoded(d, 0);
    assert d[0..] == d;
  }

  const REPLACEMENT_BYTES: seq<Byte> := [0xEF, 0xBF, 0xBD]

  /** A step over a scalar: its bytes as they are, then the rest. */
  lemma GoodStep(p: seq<Byte>, i: nat)
    requires i < |p| && Step(p, i) > 0
    ensures |Decoded(p, i)| == 1 + |Decoded(p, i + Step(p, i))|
    ensures EncodeAll(Decoded(p, i)) == p[i..i + Step(p, i)] + EncodeAll(Decoded(p, i + Step(p, i)))
  {
    StepFindsScalar(p, i);
  }

  /** A step over an ill-formed subpart: one U+FFFD, then the rest. */
  lemma BadStep(p: seq<Byte>, i: nat)
    requires i < |p| && Step(p, i) < 0
    ensures |Decoded(p, i)| == 1 + |Decoded(p, i - Step(p, i))|
    ensures EncodeAll(Decoded(p, i)) == REPLACEMENT_BYTES + EncodeAll(Decoded(p, i - Step(p, i)))
  {
    assert Encode(REPLACEMENT) == REPLACEMENT_BYTES;
  }

  /** Pass one: the bytes the result needs. */
  method LossySize(p: seq<Byte>) returns (out: nat)
    ensures out == |EncodeAll(Decoded(p, 0))|
  {
    hide Step, Value;
    var i := 0;
    out := 0;
    while i < |p|
      invariant 0 <= i <= |p|
      invariant out + |EncodeAll(Decoded(p, i))| == |EncodeAll(Decoded(p, 0))|
    {
      var st := Step(p, i);
      if st > 0 {
        GoodStep(p, i);
        out, i := out + st, i + st;
      } else {
        BadStep(p, i);
        out, i := out + 3, i - st;
      }
    }
  }

  lemma NothingLeft(p: seq<Byte>)
    ensures EncodeAll(Decoded(p, |p|)) == [] && Decoded(p, |p|) == []
  {}

  /** Pass two: writes exactly the bytes pass one counted, and counts the code points. */
  method LossyWrite(p: seq<Byte>, dst: array<Byte>) returns (cps: int)
    requires dst.Length == |EncodeAll(Decoded(p, 0))|
    modifies dst
    ensures dst[..] == EncodeAll(Decoded(p, 0)) && cps == |Decoded(p, 0)|
  {
    hide *;
    NothingLeft(p);
    ghost var whole := EncodeAll(Decoded(p, 0));
    var i, j := 0, 0;
    cps := 0;
    while i < |p|
      invariant 0 <= i <= |p| && 0 <= j <= dst.Length
      invariant whole == dst[..j] + EncodeAll(Decoded(p, i))
      invariant cps + |Decoded(p, i)| == |Decoded(p, 0)|
    {
      var st := Step(p, i);
      if st > 0 {
        GoodStep(p, i);
        j := Cells.Emit(dst, j, p[i..i + st], whole, EncodeAll(Decoded(p, i + st)));
        i := i + st;
      } else {
        BadStep(p, i);
        j := Cells.Emit(dst, j, REPLACEMENT_BYTES, whole, EncodeAll(Decoded(p, i - st)));
        i := i - st;
      }
      cps := cps + 1;
    }
    assert whole == dst[..j];
  }

  /** `mdk_str_lossy`: the bytes verbatim when valid, otherwise a sizing pass and a writing pass. */
  method FromForeignBytes(p: seq<Byte>) returns (cell: Cells.StringCell)
    ensures cell.Valid() && LossyDecoding(p, 0, cell.Text())
    ensures WellFormed(p) ==> cell.bytes == p
  {
    LossyIdempotent(p);
    DecodedIsLossyDecoding(p, 0, Decoded(p, 0));
    var valid := ValidCount(p);
    if valid >= 0 {
      cell := new Cells.StringCell(|p|, valid, p);
      cell.DenotesText(Decoded(p, 0));
      return;
    }
    var out := LossySize(p);
    var dst := new Byte[out];
    var cps := LossyWrite(p, dst);
    cell := new Cells.StringCell(out, cps, dst[..]);
    cell.DenotesText(Decoded(p, 0));
  }
}
