/** String comparison: `memcmp`, then length, is the lexicographic order of the scalar sequences. */
module Compare {
  import opened Utf8
  import Cells

  datatype Ordering = Lt | Eq | Gt

  predicate ByteBelow(x: Byte, y: Byte) {
    x < y
  }

  predicate Below(x: bv32, y: bv32) {
    x < y
  }

  function CompareBytes(a: seq<Byte>, b: seq<Byte>): Ordering {
    if a == [] then (if b == [] then Eq else Lt)
    else if b == [] then Gt
    else if a[0] != b[0] then (if ByteBelow(a[0], b[0]) then Lt else Gt)
    else CompareBytes(a[1..], b[1..])
  }

  /** Lexicographic order of code points. */
  function CompareText(s: seq<Scalar>, t: seq<Scalar>): Ordering {
    if s == [] then (if t == [] then Eq else Lt)
    else if t == [] then Gt
    else if s[0] != t[0] then (if Below(s[0], t[0]) then Lt else Gt)
    else CompareText(s[1..], t[1..])
  }

  // ----- The order of words, six bits at a time

  function High(x: bv32): bv32 {
    x >> 6
  }

  function Low(x: bv32): bv32 {
    x & 0x3F
  }

  lemma Asymmetric(x: bv32, y: bv32)
    ensures Below(x, y) ==> !Below(y, x) && x != y
  {}

  lemma HighDecides(x: bv32, y: bv32)
    ensures Below(High(x), High(y)) ==> Below(x, y)
  {}

  lemma LowDecides(x: bv32, y: bv32)
    requires High(x) == High(y)
    ensures Below(Low(x), Low(y)) ==> Below(x, y)
  {}

  lemma LowEqual(x: bv32, y: bv32)
    ensures High(x) == High(y) && Low(x) == Low(y) <==> x == y
  {}

  lemma LowTotal(x: bv32, y: bv32)
    ensures Below(Low(x), Low(y)) || Low(x) == Low(y) || Below(Low(y), Low(x))
  {}

  lemma LowTransitive(x: bv32, y: bv32, z: bv32)
    ensures Below(Low(x), Low(y)) && Below(Low(y), Low(z)) ==> Below(Low(x), Low(z))
  {}

  predicate Fits(x: bv32, n: nat) {
    if n == 0 then x == 0 else Fits(High(x), n - 1)
  }

  lemma ShiftedOut(x: bv32)
    requires x < 0x100_0000
    ensures High(High(High(High(x)))) == 0
  {}

  lemma FitsFour(x: bv32)
    requires x < 0x100_0000
    ensures Fits(x, 4)
  {
    ShiftedOut(x);
    hide High;
    assert Fits(High(High(High(High(x)))), 0);
    assert Fits(High(High(High(x))), 1);
    assert Fits(High(High(x)), 2);
    assert Fits(High(x), 3);
  }

  lemma {:induction false} Total(x: bv32, y: bv32, n: nat)
    requires Fits(x, n) && Fits(y, n)
    ensures Below(x, y) || x == y || Below(y, x)
    decreases n
  {
    hide Below, High, Low;
    if n > 0 {
      Total(High(x), High(y), n - 1);
      HighDecides(x, y); HighDecides(y, x);
      if High(x) == High(y) { LowTotal(x, y); LowDecides(x, y); LowDecides(y, x); LowEqual(x, y); }
    }
  }

  /** The high bits decide first, then the low six. */
  lemma SixBitOrder(x: bv32, y: bv32, n: nat)
    requires Fits(x, n) && Fits(y, n) && n > 0
    ensures Below(x, y) <==> if High(x) == High(y) then Below(Low(x), Low(y)) else Below(High(x), High(y))
    ensures High(x) == High(y) && Low(x) == Low(y) <==> x == y
  {
    hide Below, High, Low;
    Total(High(x), High(y), n - 1);
    HighDecides(x, y); HighDecides(y, x);
    Asymmetric(x, y); Asymmetric(High(x), High(y));
    LowEqual(x, y);
    if High(x) == High(y) { LowTotal(x, y); LowDecides(x, y); LowDecides(y, x); Asymmetric(Low(x), Low(y)); }
  }

  lemma {:induction false} Transitive(x: bv32, y: bv32, z: bv32, n: nat)
    requires Fits(x, n) && Fits(y, n) && Fits(z, n) && Below(x, y) && Below(y, z)
    ensures Below(x, z)
    decreases n
  {
    hide Below, High, Low;
    if n == 0 {
      Asymmetric(x, y);
    } else {
      SixBitOrder(x, y, n); SixBitOrder(y, z, n); SixBitOrder(x, z, n);
      LowTransitive(x, y, z);
      if Below(High(x), High(y)) && Below(High(y), High(z)) {
        Transitive(High(x), High(y), High(z), n - 1);
        Asymmetric(High(x), High(z));
      }
    }
  }

  lemma ScalarFits(x: Scalar)
    ensures Fits(x, 4)
  {
    assert IsScalar(x);
    FitsFour(x);
  }

  lemma ScalarOrder(x: Scalar, y: Scalar, z: Scalar)
    ensures Below(x, y) ==> !Below(y, x) && x != y
    ensures x != y ==> Below(x, y) || Below(y, x)
    ensures Below(x, y) && Below(y, z) ==> Below(x, z)
  {
    hide Below, Fits, IsScalar;
    ScalarFits(x); ScalarFits(y); ScalarFits(z);
    Asymmetric(x, y);
    Total(x, y, 4);
    if Below(x, y) && Below(y, z) { Transitive(x, y, z, 4); }
  }

  // ----- One encoding against another

  function ContByte(x: bv32): Byte {
    Cut(0x80 | Low(x))
  }

  lemma ContByteOrder(x: bv32, y: bv32)
    ensures ContByte(x) == ContByte(y) <==> Low(x) == Low(y)
    ensures ByteBelow(ContByte(x), ContByte(y)) <==> Below(Low(x), Low(y))
  {}

  function LeadByte(w: nat, x: bv32): Byte {
    if w == 2 then Cut(0xC0 | x) else if w == 3 then Cut(0xE0 | x) else Cut(0xF0 | x)
  }

  lemma Lead2Order(x: bv32, y: bv32)
    requires x < 0x20 && y < 0x20
    ensures (LeadByte(2, x) == LeadByte(2, y) <==> x == y)
            && (ByteBelow(LeadByte(2, x), LeadByte(2, y)) <==> Below(x, y))
  {}

  lemma Lead3Order(x: bv32, y: bv32)
    requires x < 0x10 && y < 0x10
    ensures (LeadByte(3, x) == LeadByte(3, y) <==> x == y)
            && (ByteBelow(LeadByte(3, x), LeadByte(3, y)) <==> Below(x, y))
  {}

  lemma Lead4Order(x: bv32, y: bv32)
    requires x < 0x08 && y < 0x08
    ensures (LeadByte(4, x) == LeadByte(4, y) <==> x == y)
            && (ByteBelow(LeadByte(4, x), LeadByte(4, y)) <==> Below(x, y))
  {}

  /** Each width's encoding, its payload taken six bits at a time. */
  lemma Parts2(c: Scalar)
    requires Width(c) == 2
    ensures High(c) < 0x20 && Encode(c)[0] == LeadByte(2, High(c)) && Encode(c)[1] == ContByte(c)
  {}

  lemma Parts3(c: Scalar)
    requires Width(c) == 3
    ensures High(High(c)) < 0x10 && Encode(c)[0] == LeadByte(3, High(High(c)))
    ensures Encode(c)[1] == ContByte(High(c)) && Encode(c)[2] == ContByte(c)
  {}

  lemma Parts4(c: Scalar)
    requires Width(c) == 4
    ensures High(High(High(c))) < 0x08 && Encode(c)[0] == LeadByte(4, High(High(High(c))))
    ensures Encode(c)[1] == ContByte(High(High(c))) && Encode(c)[2] == ContByte(High(c)) && Encode(c)[3] == ContByte(c)
  {
    assert IsScalar(c);
  }

  lemma EncodeParts(c: Scalar)
    ensures var e := Encode(c);
            && (|e| == 2 ==> High(c) < 0x20 && e[0] == LeadByte(2, High(c)) && e[1] == ContByte(c))
            && (|e| == 3 ==>
                  High(High(c)) < 0x10 && e[0] == LeadByte(3, High(High(c))) && e[1] == ContByte(High(c))
                  && e[2] == ContByte(c))
            && (|e| == 4 ==> High(High(High(c))) < 0x08 && e[0] == LeadByte(4, High(High(High(c))))
                             && e[1] == ContByte(High(High(c))) && e[2] == ContByte(High(c)) && e[3] == ContByte(c))
  {
    hide Encode, High, LeadByte, ContByte;
    if Width(c) == 2 { Parts2(c); } else if Width(c) == 3 { Parts3(c); } else if Width(c) == 4 { Parts4(c); }
  }

  /** Where two encodings first differ, their bytes are in the order of their scalars. */
  ghost predicate DifferInOrder(x: Scalar, y: Scalar, j: nat) {
    && j < Width(x) && j < Width(y)
    && (forall i :: 0 <= i < j ==> Encode(x)[i] == Encode(y)[i])
    && Encode(x)[j] != Encode(y)[j]
    && (Below(x, y) <==> ByteBelow(Encode(x)[j], Encode(y)[j]))
  }

  lemma WidthOrder(x: Scalar, y: Scalar)
    requires Width(x) < Width(y)
    ensures Below(x, y) && ByteBelow(Encode(x)[0], Encode(y)[0])
    ensures !Below(y, x) && !ByteBelow(Encode(y)[0], Encode(x)[0])
  {
    EncodeRanges(x);
    EncodeRanges(y);
    hide Encode;
  }

  lemma Differ1(x: Scalar, y: Scalar)
    requires x != y && Width(x) == 1 && Width(y) == 1
    ensures DifferInOrder(x, y, 0)
  {}

  lemma SameWidthOrder(x: Scalar, y: Scalar) returns (j: nat)
    requires x != y && Width(x) == Width(y)
    ensures DifferInOrder(x, y, j)
  {
    hide Encode, LeadByte, ContByte, High, Low, Below, ByteBelow, Fits;
    ScalarFits(x); ScalarFits(y);
    EncodeParts(x); EncodeParts(y);
    if Width(x) == 1 {
      j := 0;
      Differ1(x, y);
      return;
    }
    j := DifferFrom(x, y);
  }

  lemma DifferFrom(x: Scalar, y: Scalar) returns (j: nat)
    requires x != y && Width(x) == Width(y) > 1 && Fits(x, 4) && Fits(y, 4)
    ensures DifferInOrder(x, y, j)
  {
    hide Encode, LeadByte, ContByte, High, Low, Below, ByteBelow;
    EncodeParts(x); EncodeParts(y);
    SixBitOrder(x, y, 4);
    ContByteOrder(x, y);
    var w, hx, hy := Width(x), High(x), High(y);
    if hx == hy {
      var ex, ey := Encode(x), Encode(y);
      assert ex[0] == ey[0] && (w > 2 ==> ex[1] == ey[1]) && (w > 3 ==> ex[2] == ey[2]);
      return w - 1;
    }
    if w == 2 { Lead2Order(hx, hy); return 0; }
    SixBitOrder(hx, hy, 3);
    ContByteOrder(hx, hy);
    var kx, ky := High(hx), High(hy);
    if kx == ky {
      assert Encode(x)[0] == Encode(y)[0] && (w > 3 ==> Encode(x)[1] == Encode(y)[1]);
      return w - 2;
    }
    if w == 3 { Lead3Order(kx, ky); return 0; }
    SixBitOrder(kx, ky, 2);
    ContByteOrder(kx, ky);
    if High(kx) == High(ky) { return 1; }
    Lead4Order(High(kx), High(ky));
    return 0;
  }

  lemma EncodeOrder(x: Scalar, y: Scalar) returns (j: nat)
    requires x != y
    ensures DifferInOrder(x, y, j)
  {
    if Width(x) == Width(y) {
      j := SameWidthOrder(x, y);
    } else {
      j := 0;
      if Width(x) < Width(y) { WidthOrder(x, y); } else { WidthOrder(y, x); }
    }
  }

  // ----- Whole strings

  lemma {:induction false} CompareStrip(p: seq<Byte>, a: seq<Byte>, b: seq<Byte>)
    ensures CompareBytes(p + a, p + b) == CompareBytes(a, b)
  {
    if p == [] {
      assert p + a == a && p + b == b;
    } else {
      assert (p + a)[1..] == p[1..] + a && (p + b)[1..] == p[1..] + b;
      CompareStrip(p[1..], a, b);
    }
  }

  lemma {:induction false} CompareDiffer(a: seq<Byte>, b: seq<Byte>, j: nat)
    requires j < |a| && j < |b| && a[j] != b[j] && forall i :: 0 <= i < j ==> a[i] == b[i]
    ensures CompareBytes(a, b) == if ByteBelow(a[j], b[j]) then Lt else Gt
  {
    if j > 0 { CompareDiffer(a[1..], b[1..], j - 1); }
  }

  /** Byte order is code point order. */
  lemma {:induction false} ByteOrderIsTextOrder(s: seq<Scalar>, t: seq<Scalar>)
    ensures CompareBytes(EncodeAll(s), EncodeAll(t)) == CompareText(s, t)
  {
    if s != [] && t != [] {
      if s[0] == t[0] {
        ByteOrderIsTextOrder(s[1..], t[1..]);
        CompareStrip(Encode(s[0]), EncodeAll(s[1..]), EncodeAll(t[1..]));
      } else {
        hide Encode, ByteBelow, Below;
        var j := EncodeOrder(s[0], t[0]);
        CompareDiffer(EncodeAll(s), EncodeAll(t), j);
      }
    }
  }

  ghost predicate Precedes(s: seq<Scalar>, t: seq<Scalar>, k: nat) {
    k <= |s| && k < |t| && s[..k] == t[..k] && (k == |s| || s[k] < t[k])
  }

  lemma SameFirst(s: seq<Scalar>, t: seq<Scalar>, k: nat)
    requires 0 < k <= |s| && k <= |t| && s[..k] == t[..k]
    ensures s[0] == t[0]
  {
    assert s[..k][0] == t[..k][0];
  }

  /** One text comes before another exactly when it is a proper prefix, or has the smaller code point where they first
      differ. */
  lemma {:induction false} LtIsPrecedes(s: seq<Scalar>, t: seq<Scalar>)
    ensures CompareText(s, t) == Lt <==> exists k: nat :: Precedes(s, t, k)
  {
    if s == [] || t == [] || s[0] != t[0] {
      if CompareText(s, t) == Lt { assert Precedes(s, t, 0); }
      forall k: nat | Precedes(s, t, k) ensures CompareText(s, t) == Lt {
        if k > 0 { SameFirst(s, t, k); }
      }
    } else {
      LtIsPrecedes(s[1..], t[1..]);
      forall k: nat | Precedes(s[1..], t[1..], k) ensures Precedes(s, t, k + 1) {
        assert s[..k + 1] == [s[0]] + s[1..][..k] && t[..k + 1] == [t[0]] + t[1..][..k];
      }
      forall k: nat | Precedes(s, t, k) ensures k > 0 && Precedes(s[1..], t[1..], k - 1) {
        assert k > 0 ==> s[1..][..k - 1] == s[..k][1..] && t[1..][..k - 1] == t[..k][1..];
      }
    }
  }

  /** `Eq` exactly on equal texts; swapping the operands swaps the verdict. */
  lemma {:induction false} CompareTextLaws(s: seq<Scalar>, t: seq<Scalar>)
    ensures CompareText(s, t) == Eq <==> s == t
    ensures CompareText(s, t) == Lt <==> CompareText(t, s) == Gt
  {
    hide Below;
    if s != [] && t != [] {
      ScalarOrder(s[0], t[0], s[0]);
      CompareTextLaws(s[1..], t[1..]);
      assert s == [s[0]] + s[1..] && t == [t[0]] + t[1..];
    }
  }

  lemma {:induction false} CompareTextTransitive(s: seq<Scalar>, t: seq<Scalar>, u: seq<Scalar>)
    requires CompareText(s, t) != Gt && CompareText(t, u) != Gt
    ensures CompareText(s, u) != Gt
  {
    hide Below;
    if s != [] && t != [] && u != [] {
      ScalarOrder(s[0], t[0], u[0]);
      ScalarOrder(s[0], u[0], t[0]);
      ScalarOrder(t[0], u[0], s[0]);
    }
    if s != [] && t != [] && u != [] && s[0] == t[0] && t[0] == u[0] {
      CompareTextTransitive(s[1..], t[1..], u[1..]);
    }
  }

  /** `memcmp` over `m` bytes: the sign of the first difference. */
  method Memcmp(a: seq<Byte>, b: seq<Byte>, m: nat) returns (c: int)
    requires m <= |a| && m <= |b|
    ensures -1 <= c <= 1
    ensures c == 0 <==> a[..m] == b[..m]
    ensures c != 0 ==> CompareBytes(a, b) == if c < 0 then Lt else Gt
  {
    var i := 0;
    while i < m
      invariant 0 <= i <= m && a[..i] == b[..i]
    {
      if a[i] != b[i] {
        assert forall k :: 0 <= k < i ==> a[..i][k] == b[..i][k] && a[k] == b[k];
        CompareDiffer(a, b, i);
        assert a[..m][i] != b[..m][i];
        return if ByteBelow(a[i], b[i]) then -1 else 1;
      }
      i := i + 1;
    }
    c := 0;
  }

  method CompareStrings(a: Cells.StringCell, b: Cells.StringCell) returns (r: Ordering)
    requires a.Valid() && b.Valid()
    ensures r == CompareText(a.Text(), b.Text())
  {
    hide EncodeAll;
    var m := if a.byteLen < b.byteLen then a.byteLen else b.byteLen;
    var c := Memcmp(a.bytes, b.bytes, m);
    ByteOrderIsTextOrder(a.Text(), b.Text());
    if c == 0 {
      assert a.bytes == a.bytes[..m] + a.bytes[m..] && b.bytes == a.bytes[..m] + b.bytes[m..];
      CompareStrip(a.bytes[..m], a.bytes[m..], b.bytes[m..]);
      c := if a.byteLen < b.byteLen then -1 else if a.byteLen > b.byteLen then 1 else 0;
    }
    r := if c < 0 then Lt else if c > 0 then Gt else Eq;
  }

  method EqualStrings(a: Cells.StringCell, b: Cells.StringCell) returns (r: bool)
    requires a.Valid() && b.Valid()
    ensures r <==> a.Text() == b.Text()
  {
    if a.byteLen != b.byteLen { return false; }
    r := a.bytes == b.bytes;
  }
}
