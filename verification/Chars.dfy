/** Strings to and from their characters, and reversal: byte loops that denote sequence operations on scalars. */
module Chars {
  import opened Utf8
  import Boundaries
  import opened Cells

  // ----- Decoding one code point

  function Push(cp: bv32, b: Byte): bv32 {
    (cp << 6) | (b & 0x3F) as bv32
  }

  /** The loop's value after `k` bytes. */
  function Accumulated(lead: bv32, p: seq<Byte>, b: nat, k: nat): bv32
    requires 1 <= k && b + k <= |p|
  {
    if k == 1 then lead else Push(Accumulated(lead, p, b, k - 1), p[b + k - 1])
  }

  function LeadWidth(ch: Byte): nat {
    if ch < 0x80 then 1 else if ch >> 5 == 0x6 then 2 else if ch >> 4 == 0xE then 3 else 4
  }

  function LeadBits(ch: Byte): bv32 {
    if ch < 0x80 then ch as bv32
    else if ch >> 5 == 0x6 then (ch & 0x1F) as bv32
    else if ch >> 4 == 0xE then (ch & 0x0F) as bv32
    else (ch & 0x07) as bv32
  }

  lemma LeadClass(b: Byte)
    ensures b <= 0x7F ==> LeadWidth(b) == 1
    ensures 0xC2 <= b <= 0xDF ==> LeadWidth(b) == 2 && LeadBits(b) == (b & 0x1F) as bv32
    ensures 0xE0 <= b <= 0xEF ==> LeadWidth(b) == 3 && LeadBits(b) == (b & 0x0F) as bv32
    ensures 0xF0 <= b <= 0xF4 ==> LeadWidth(b) == 4 && LeadBits(b) == (b & 0x07) as bv32
  {}

  lemma UnrollAccumulated(lead: bv32, p: seq<Byte>, b: nat, k: nat)
    requires 1 <= k <= 4 && b + k <= |p|
    ensures k == 1 ==> Accumulated(lead, p, b, k) == lead
    ensures k == 2 ==> Accumulated(lead, p, b, k) == Push(lead, p[b + 1])
    ensures k == 3 ==> Accumulated(lead, p, b, k) == Push(Push(lead, p[b + 1]), p[b + 2])
    ensures k == 4 ==> Accumulated(lead, p, b, k) == Push(Push(Push(lead, p[b + 1]), p[b + 2]), p[b + 3])
  {
    hide Push;
    if k > 1 { UnrollAccumulated(lead, p, b, k - 1); }
  }

  lemma PushIsJoin(b0: Byte, b1: Byte, b2: Byte, b3: Byte)
    ensures Join2(b0, b1) == Push((b0 & 0x1F) as bv32, b1)
    ensures Join3(b0, b1, b2) == Push(Push((b0 & 0x0F) as bv32, b1), b2)
    ensures Join4(b0, b1, b2, b3) == Push(Push(Push((b0 & 0x07) as bv32, b1), b2), b3)
  {}

  lemma DecodeNarrow(c: Scalar)
    requires Width(c) <= 2
    ensures var e := Encode(c);
            && LeadWidth(e[0]) == |e|
            && (|e| == 1 ==> LeadBits(e[0]) == c)
            && (|e| == 2 ==> Push(LeadBits(e[0]), e[1]) == c)
  {
    JoinEncode(c);
    EncodeRanges(c);
  }

  lemma DecodeWide(c: Scalar)
    requires Width(c) >= 3
    ensures var e := Encode(c);
            && LeadWidth(e[0]) == |e|
            && (|e| == 3 ==> Push(Push(LeadBits(e[0]), e[1]), e[2]) == c)
            && (|e| == 4 ==> Push(Push(Push(LeadBits(e[0]), e[1]), e[2]), e[3]) == c)
  {
    hide Encode, Push, Join2, Join3, Join4, LeadWidth, LeadBits;
    var e := Encode(c);
    JoinEncode(c);
    EncodeRanges(c);
    LeadClass(e[0]);
    PushIsJoin(e[0], e[1], e[2], e[|e| - 1]);
  }

  lemma AccumulatedIsValue(p: seq<Byte>, b: nat, c: Scalar)
    requires StartsWithScalar(p, b, c)
    ensures LeadWidth(p[b]) == Width(c) && Accumulated(LeadBits(p[b]), p, b, Width(c)) == c
  {
    hide Encode, Push, LeadWidth, LeadBits;
    var e := Encode(c);
    forall k | 0 <= k < |e| ensures p[b + k] == e[k] {
      assert p[b + k] == p[b..b + |e|][k];
    }
    UnrollAccumulated(LeadBits(p[b]), p, b, |e|);
    if |e| <= 2 { DecodeNarrow(c); } else { DecodeWide(c); }
  }

  /** The scalar at `p[b]` and its width; whatever the bytes are, no read goes beyond them. */
  method DecodeAt(p: seq<Byte>, b: nat) returns (cp: bv32, w: nat)
    requires b < |p|
    ensures 1 <= w && b + w <= |p|
    ensures forall c: Scalar :: StartsWithScalar(p, b, c) ==> cp == c && w == Width(c)
  {
    var n := LeadWidth(p[b]);
    cp := LeadBits(p[b]);
    if n > |p| - b { n := |p| - b; }
    var k := 1;
    while k < n
      invariant 1 <= k <= n && cp == Accumulated(LeadBits(p[b]), p, b, k)
    {
      cp := Push(cp, p[b + k]);
      k := k + 1;
    }
    w := n;
    forall c: Scalar | StartsWithScalar(p, b, c) ensures cp == c && w == Width(c) {
      AccumulatedIsValue(p, b, c);
    }
  }

  // ----- toChars, fromChars

  lemma HighOr(hi: Byte, b: Byte)
    ensures hi | b < 0x80 <==> hi < 0x80 && b < 0x80
  {}

  /** Whether every byte is ASCII, by or-ing them all. */
  method AllAscii(p: seq<Byte>) returns (ascii: bool)
    ensures ascii <==> forall k :: 0 <= k < |p| ==> p[k] < 0x80
  {
    var hi: Byte := 0;
    for k := 0 to |p|
      invariant hi < 0x80 <==> forall j :: 0 <= j < k ==> p[j] < 0x80
    {
      HighOr(hi, p[k]);
      hi := hi | p[k];
    }
    ascii := hi < 0x80;
  }

  lemma AsciiNotCont(b: Byte)
    requires b < 0x80
    ensures !IsCont(b)
  {}

  /** All-ASCII bytes are their own scalars. */
  lemma AsciiText(t: seq<Scalar>)
    requires forall k :: 0 <= k < |EncodeAll(t)| ==> EncodeAll(t)[k] < 0x80
    ensures |EncodeAll(t)| == |t|
    ensures forall k :: 0 <= k < |t| ==> t[k] == EncodeAll(t)[k] as bv32
  {
    var p := EncodeAll(t);
    forall k | 0 <= k < |p| ensures !IsCont(p[k]) { AsciiNotCont(p[k]); }
    LeadCountBound(p);
    LeadCountIsLength(t);
    OffsetEnds(t);
    forall k | 0 <= k < |t| ensures t[k] == p[k] as bv32 {
      OffsetMonotone(t, 0, k);
      OffsetMonotone(t, k, |t|);
      assert Offset(t, k) == k;
      OffsetStep(t, k);
      OffsetMonotone(t, k + 1, |t|);
      StepAcceptsScalar(p, k, t[k]);
    }
  }

  /** Copies the bytes as they are; for a valid cell they are its scalars. */
  method ToCharsAscii(s: StringCell, arr: array<bv32>) returns (i: nat)
    requires s.byteLen == |s.bytes| && arr.Length == s.cpCount
    requires forall k :: 0 <= k < |s.bytes| ==> s.bytes[k] < 0x80
    modifies arr
    ensures i <= s.cpCount
    ensures s.Valid() ==> i == s.cpCount && arr[..i] == s.Text()
  {
    if s.Valid() { AsciiText(s.Text()); }
    var n := if s.byteLen < s.cpCount then s.byteLen else s.cpCount;
    i := 0;
    while i < n
      invariant 0 <= i <= n && (s.Valid() ==> arr[..i] == s.Text()[..i])
    {
      arr[i] := s.bytes[i] as bv32;
      i := i + 1;
    }
  }

  method ToCharsDecoding(s: StringCell, arr: array<bv32>) returns (i: nat)
    requires s.byteLen == |s.bytes| && arr.Length == s.cpCount
    modifies arr
    ensures i <= s.cpCount
    ensures s.Valid() ==> i == s.cpCount && arr[..i] == s.Text()
  {
    hide StartsWithScalar, Width;
    var b := 0;
    i := 0;
    if s.Valid() { OffsetEnds(s.Text()); }
    while b < s.byteLen && i < s.cpCount
      invariant 0 <= i <= s.cpCount && 0 <= b <= s.byteLen
      invariant s.Valid() ==> b == Offset(s.Text(), i) && arr[..i] == s.Text()[..i]
    {
      if s.Valid() { OffsetStep(s.Text(), i); }
      var cp, w := DecodeAt(s.bytes, b);
      arr[i] := cp;
      i, b := i + 1, b + w;
    }
    if s.Valid() && i < s.cpCount { OffsetMonotone(s.Text(), i, s.cpCount); }
  }

  /** An array of as many scalars as the cell's count says, with no write outside it even if the bytes disagree; for a
      valid cell, its text. */
  method ToChars(s: StringCell) returns (arr: array<bv32>)
    requires s.byteLen == |s.bytes| && s.cpCount >= 0
    ensures arr.Length == s.cpCount
    ensures s.Valid() ==> arr[..] == s.Text()
  {
    arr := new bv32[s.cpCount];
    var ascii := AllAscii(s.bytes);
    var i;
    if ascii { i := ToCharsAscii(s, arr); } else { i := ToCharsDecoding(s, arr); }
    while i < s.cpCount
      invariant i <= s.cpCount && (s.Valid() ==> i == s.cpCount && arr[..i] == s.Text())
    {
      arr[i] := 0;
      i := i + 1;
    }
  }

  method FromChars(a: seq<Scalar>) returns (cell: StringCell)
    ensures cell.Valid() && cell.Text() == a
  {
    hide Encode;
    var n, total, i := |a|, 0, 0;
    while i < n
      invariant 0 <= i <= n && total == |EncodeAll(a[..i])|
    {
      assert a[..i + 1] == a[..i] + [a[i]];
      EncodeAllSnoc(a[..i], a[i]);
      total := total + Width(a[i]);
      i := i + 1;
    }
    assert a[..n] == a;
    var dst := new Byte[total];
    var o := 0;
    i := 0;
    while i < n
      invariant 0 <= i <= n && 0 <= o <= total && dst[..o] == EncodeAll(a[..i])
    {
      assert a[..i + 1] == a[..i] + [a[i]];
      EncodeAllSnoc(a[..i], a[i]);
      EncodeAllSplit(a, i + 1);
      Blit(dst, o, Encode(a[i]));
      o := o + Width(a[i]);
      i := i + 1;
    }
    assert dst[..o] == dst[..];
    cell := new StringCell(total, n, dst[..]);
    cell.DenotesText(a);
  }

  method CharToString(c: Scalar) returns (cell: StringCell)
    ensures cell.Valid() && cell.Text() == [c]
  {
    EncodeAllOne(c);
    var buf := Encode(c);
    cell := new StringCell(|buf|, 1, buf);
    cell.DenotesText([c]);
  }

  /** A valid cell's whole contents are fixed by its text. */
  lemma CellDeterminedByText(a: StringCell, b: StringCell)
    requires a.Valid() && b.Valid()
    ensures a.Text() == b.Text() <==> a.bytes == b.bytes
    ensures a.bytes == b.bytes ==> a.byteLen == b.byteLen && a.cpCount == b.cpCount
  {}

  /** toChars, then fromChars: the cell itself, but for its identity. */
  method CharsAndBack(s: StringCell) returns (cell: StringCell)
    requires s.Valid()
    ensures cell.Valid() && cell.bytes == s.bytes && cell.byteLen == s.byteLen && cell.cpCount == s.cpCount
  {
    var arr := ToChars(s);
    cell := FromChars(arr[..]);
    CellDeterminedByText(cell, s);
  }

  /** fromChars, then toChars: the scalars themselves. */
  method CellAndBack(a: seq<Scalar>) returns (arr: array<bv32>)
    ensures arr[..] == a
  {
    var cell := FromChars(a);
    arr := ToChars(cell);
  }

  // ----- Reversal

  function Reversed<T>(s: seq<T>): seq<T> {
    if s == [] then [] else Reversed(s[1..]) + [s[0]]
  }

  lemma {:induction false} ReversedSnoc<T>(s: seq<T>, x: T)
    ensures Reversed(s + [x]) == [x] + Reversed(s)
  {
    if s == [] {
      assert Reversed([x]) == Reversed([]) + [x];
    } else {
      assert (s + [x])[1..] == s[1..] + [x];
      ReversedSnoc(s[1..], x);
    }
  }

  lemma {:induction false} ReversedTwice<T>(s: seq<T>)
    ensures |Reversed(s)| == |s| && Reversed(Reversed(s)) == s
  {
    if s != [] {
      ReversedTwice(s[1..]);
      ReversedSnoc(Reversed(s[1..]), s[0]);
    }
  }

  /** The `k`th of the reversed sequence is the `k`th from the end. */
  lemma {:induction false} ReversedAt<T>(s: seq<T>, k: nat)
    requires k < |s|
    ensures |Reversed(s)| == |s| && Reversed(s)[k] == s[|s| - 1 - k]
  {
    if |s| > 1 {
      ReversedTwice(s[1..]);
      if k < |s| - 1 { ReversedAt(s[1..], k); }
    }
  }

  /** The bytes of one scalar, written after the bytes of the reversed rest. */
  lemma ReverseStep(t: seq<Scalar>, k: nat)
    requires k < |t|
    ensures Offset(t, k) < Offset(t, k + 1) <= |EncodeAll(t)|
    ensures EncodeAll(Reversed(t[k..])) ==
              EncodeAll(Reversed(t[k + 1..])) + EncodeAll(t)[Offset(t, k)..Offset(t, k + 1)]
  {
    OffsetMonotone(t, k, k + 1);
    OffsetSlice(t, k, k + 1);
    assert t[k..k + 1] == [t[k]];
    EncodeAllOne(t[k]);
    assert t[k..][1..] == t[k + 1..];
    EncodeAllSnoc(Reversed(t[k + 1..]), t[k]);
  }

  /** Copies each code point's bytes whole, walking back from the end; the count is unchanged. */
  method Reverse(s: StringCell) returns (cell: StringCell)
    requires s.Valid()
    ensures cell.Valid() && cell.Text() == Reversed(s.Text())
  {
    var n := s.byteLen;
    var out := new Byte[n];
    var end, o := n, 0;
    ghost var t := s.Text();
    ghost var k := |t|;
    OffsetEnds(t);
    assert Reversed(t[k..]) == [] && EncodeAll([]) == [];
    hide EncodeAll, Reversed;
    while end > 0
      invariant 0 <= k <= |t| && 0 <= end <= n && end == Offset(t, k)
      invariant o == n - end && out[..o] == EncodeAll(Reversed(t[k..]))
    {
      k := Boundaries.PreviousScalar(t, k);
      ReverseStep(t, k);
      var start := Boundaries.LeadBefore(s.bytes, end, t, k);
      Blit(out, o, s.bytes[start..end]);
      o := o + (end - start);
      end := start;
    }
    OffsetMonotone(t, 0, k);
    assert t[k..] == t;
    assert out[..o] == out[..];
    ReversedTwice(t);
    cell := new StringCell(n, s.cpCount, out[..]);
    cell.DenotesText(Reversed(t));
  }
}
