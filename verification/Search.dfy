/** Searches that look only at bytes, proved against occurrences in sequences of scalars: for well-formed operands the
    two have the same matches. */
module Search {
  import opened Wrappers
  import opened Utf8
  import opened Words
  import opened Cells

  // ----- The byte search

  predicate MatchAt(hay: seq<Byte>, needle: seq<Byte>, k: int) {
    0 <= k && k + |needle| <= |hay| && hay[k..k + |needle|] == needle
  }

  ghost predicate NoMatch(hay: seq<Byte>, needle: seq<Byte>, from: int, to: int) {
    forall k :: from <= k < to ==> !MatchAt(hay, needle, k)
  }

  /** First offset in `[from, to)` holding `c`, or -1. */
  method FindByte(hay: seq<Byte>, c: Byte, from: nat, to: nat) returns (r: int)
    requires from <= to <= |hay|
    ensures r == -1 || from <= r < to
    ensures r == -1 ==> forall k :: from <= k < to ==> hay[k] != c
    ensures r >= 0 ==> hay[r] == c && forall k :: from <= k < r ==> hay[k] != c
  {
    r := from;
    while r < to
      invariant from <= r <= to && forall k :: from <= k < r ==> hay[k] != c
    {
      if hay[r] == c { return; }
      r := r + 1;
    }
    r := -1;
  }

  lemma EndsReject(hay: seq<Byte>, needle: seq<Byte>, k: nat)
    requires 1 <= |needle| && k + |needle| <= |hay|
    requires Rejected(hay[k], hay[k + (|needle| - 1)], needle[0], needle[|needle| - 1])
    ensures !MatchAt(hay, needle, k)
  {
    var window := hay[k..k + |needle|];
    assert window[0] == hay[k] && window[|needle| - 1] == hay[k + (|needle| - 1)];
  }

  /** Whether the two eight-lane masks reject the whole block of starts `b..b + 8`. */
  method BlockRejects(hay: seq<Byte>, needle: seq<Byte>, b: nat) returns (rejected: bool)
    requires 1 <= |needle| && b + 8 + (|needle| - 1) <= |hay|
    ensures rejected ==> NoMatch(hay, needle, b, b + 8)
  {
    var last := needle[|needle| - 1];
    var a := Load(hay, b);
    var z := Load(hay, b + (|needle| - 1));
    rejected := ZeroLanes(a ^ Spread(needle[0])) & ZeroLanes(z ^ Spread(last)) == 0;
    if rejected {
      BlockRejected(a, z, hay, b, b + (|needle| - 1), needle[0], last);
      forall k | b <= k < b + 8 ensures !MatchAt(hay, needle, k) {
        EndsReject(hay, needle, k);
      }
    }
  }

  /** The first match at or after `from`, or -1; every read stays inside the haystack. */
  method FindBytes(hay: seq<Byte>, needle: seq<Byte>, from: nat) returns (r: int)
    requires 1 <= |needle|
    ensures r == -1 ==> forall k :: from <= k ==> !MatchAt(hay, needle, k)
    ensures r != -1 ==> from <= r && MatchAt(hay, needle, r) && NoMatch(hay, needle, from, r)
  {
    var last := |hay| - |needle|;
    var b := from;
    if |needle| == 1 {
      if b > last { return -1; }
      r := FindByte(hay, needle[0], b, last + 1);
      forall k | from <= k < |hay| ensures hay[k..k + 1] == needle <==> hay[k] == needle[0] {
        assert hay[k..k + 1] == [hay[k]];
      }
      return;
    }
    while b + 7 <= last
      invariant from <= b && NoMatch(hay, needle, from, b)
      decreases last - b
    {
      var rejected := BlockRejects(hay, needle, b);
      if !rejected {
        var k := b;
        while k < b + 8
          invariant b <= k <= b + 8 && NoMatch(hay, needle, from, k)
        {
          if hay[k..k + |needle|] == needle { return k; }
          k := k + 1;
        }
      }
      b := b + 8;
    }
    while b <= last
      invariant from <= b && NoMatch(hay, needle, from, b)
      decreases last - b
    {
      if hay[b..b + |needle|] == needle { return b; }
      b := b + 1;
    }
    r := -1;
  }

  // ----- Byte matches are code point matches

  ghost predicate Occurs(hay: seq<Scalar>, needle: seq<Scalar>, k: int) {
    0 <= k && k + |needle| <= |hay| && hay[k..k + |needle|] == needle
  }

  lemma OccurrenceIsMatch(hay: seq<Scalar>, needle: seq<Scalar>, k: nat)
    requires Occurs(hay, needle, k)
    ensures MatchAt(EncodeAll(hay), EncodeAll(needle), Offset(hay, k))
    ensures Offset(hay, k) + |EncodeAll(needle)| == Offset(hay, k + |needle|)
  {
    OffsetSlice(hay, k, k + |needle|);
  }

  /** Every byte match of a non-empty needle starts on a code point boundary and is an occurrence there. */
  lemma MatchIsOccurrence(hay: seq<Scalar>, needle: seq<Scalar>, b: nat)
    requires needle != [] && MatchAt(EncodeAll(hay), EncodeAll(needle), b)
    ensures var k := LeadCount(EncodeAll(hay)[..b]); k <= |hay| && Offset(hay, k) == b && Occurs(hay, needle, k)
  {
    hide EncodeAll, IsCont, LeadCount, Offset, Occurs;
    var hb, nb := EncodeAll(hay), EncodeAll(needle);
    FirstIsLead(needle);
    assert hb[b] == hb[b..b + |nb|][0] == nb[0];
    BoundaryIsOffset(hay, b);
    MatchAtBoundary(hay, needle, LeadCount(hb[..b]));
  }

  lemma MatchAtBoundary(hay: seq<Scalar>, needle: seq<Scalar>, k: nat)
    requires k <= |hay| && MatchAt(EncodeAll(hay), EncodeAll(needle), Offset(hay, k))
    ensures Occurs(hay, needle, k)
  {
    hide EncodeAll, Offset;
    var hb, nb, b := EncodeAll(hay), EncodeAll(needle), Offset(hay, k);
    TailBytes(hay, k);
    assert hb[b..][..|nb|] == hb[b..b + |nb|];
    EncodeAllPrefix(needle, hay[k..]);
    assert hay[k..][..|needle|] == hay[k..k + |needle|];
  }

  lemma TailBytes(s: seq<Scalar>, k: nat)
    requires k <= |s|
    ensures Offset(s, k) <= |EncodeAll(s)| && EncodeAll(s)[Offset(s, k)..] == EncodeAll(s[k..])
  {
    EncodeAllSplit(s, k);
  }

  lemma FirstIsLead(t: seq<Scalar>)
    requires t != []
    ensures EncodeAll(t) != [] && !IsCont(EncodeAll(t)[0])
  {
    EncodeShape(t[0]);
  }

  lemma {:induction false} NonEmptyBytes(t: seq<Scalar>)
    ensures t == [] <==> EncodeAll(t) == []
  {}

  lemma NoMatchNoOccurrence(hay: seq<Scalar>, needle: seq<Scalar>, i: nat, j: nat)
    requires i <= j <= |hay| && NoMatch(EncodeAll(hay), EncodeAll(needle), Offset(hay, i), Offset(hay, j))
    ensures forall k :: i <= k < j ==> !Occurs(hay, needle, k)
  {
    forall k | i <= k < j ensures !Occurs(hay, needle, k) {
      OffsetMonotone(hay, i, k);
      OffsetMonotone(hay, k, j);
      if Occurs(hay, needle, k) { OccurrenceIsMatch(hay, needle, k); }
    }
  }

  lemma NoMatchAtAll(hay: seq<Scalar>, needle: seq<Scalar>, i: nat)
    requires i <= |hay| && forall b :: Offset(hay, i) <= b ==> !MatchAt(EncodeAll(hay), EncodeAll(needle), b)
    ensures forall k :: i <= k ==> !Occurs(hay, needle, k)
  {
    forall k | i <= k ensures !Occurs(hay, needle, k) {
      if Occurs(hay, needle, k) {
        OffsetMonotone(hay, i, k);
        OccurrenceIsMatch(hay, needle, k);
      }
    }
  }

  // ----- The searches

  method IndexOf(needle: StringCell, hay: StringCell) returns (r: Option<int>)
    requires needle.Valid() && hay.Valid()
    ensures r.None? ==> forall k :: !Occurs(hay.Text(), needle.Text(), k)
    ensures r.Some? ==> Occurs(hay.Text(), needle.Text(), r.value)
    ensures r.Some? ==> forall k :: 0 <= k < r.value ==> !Occurs(hay.Text(), needle.Text(), k)
  {
    ghost var h, n := hay.Text(), needle.Text();
    NonEmptyBytes(n);
    OffsetEnds(h);
    if needle.byteLen == 0 { return Some(0); }
    var b := FindBytes(hay.bytes, needle.bytes, 0);
    if b < 0 {
      NoMatchAtAll(h, n, 0);
      return None;
    }
    MatchIsOccurrence(h, n, b);
    var k := CountCodepoints(hay.bytes, b);
    NoMatchNoOccurrence(h, n, 0, k);
    r := Some(k);
  }

  /** The last occurrence, overlapping ones included; for the empty needle, the length. */
  method LastIndexOf(needle: StringCell, hay: StringCell) returns (r: Option<int>)
    requires needle.Valid() && hay.Valid()
    ensures r.None? ==> forall k :: !Occurs(hay.Text(), needle.Text(), k)
    ensures r.Some? ==> Occurs(hay.Text(), needle.Text(), r.value)
    ensures r.Some? ==> forall k :: r.value < k ==> !Occurs(hay.Text(), needle.Text(), k)
  {
    hide EncodeAll, Offset, IsCont, LeadCount;
    ghost var h, n := hay.Text(), needle.Text();
    NonEmptyBytes(n);
    OffsetEnds(h);
    if needle.byteLen == 0 { return Some(hay.cpCount); }
    var last, from := -1, 0;
    while true
      invariant -1 <= last < from <= hay.byteLen
      invariant last == -1 ==> from == 0
      invariant last >= 0 ==> MatchAt(hay.bytes, needle.bytes, last)
      invariant NoMatch(hay.bytes, needle.bytes, last + 1, from)
      decreases hay.byteLen - from
    {
      var b := FindBytes(hay.bytes, needle.bytes, from);
      if b < 0 { break; }
      last, from := b, b + 1;
    }
    if last < 0 {
      NoMatchAtAll(h, n, 0);
      return None;
    }
    MatchIsOccurrence(h, n, last);
    var k := CountCodepoints(hay.bytes, last);
    OffsetStep(h, k);
    NoMatchAtAll(h, n, k + 1);
    r := Some(k);
  }

  /** Non-overlapping occurrences from code point `k` on, leftmost first. */
  ghost function CountFrom(hay: seq<Scalar>, needle: seq<Scalar>, k: nat): nat
    requires needle != []
    decreases |hay| - k
  {
    if k + |needle| > |hay| then 0
    else if Occurs(hay, needle, k) then 1 + CountFrom(hay, needle, k + |needle|)
    else CountFrom(hay, needle, k + 1)
  }

  lemma {:induction false} CountSkip(hay: seq<Scalar>, needle: seq<Scalar>, i: nat, j: nat)
    requires needle != [] && i <= j && forall k :: i <= k < j ==> !Occurs(hay, needle, k)
    ensures CountFrom(hay, needle, i) == CountFrom(hay, needle, j)
    decreases j - i
  {
    if i < j { CountSkip(hay, needle, i + 1, j); }
  }

  lemma CountStep(hay: seq<Scalar>, needle: seq<Scalar>, k: nat)
    requires needle != []
    ensures k + |needle| > |hay| ==> CountFrom(hay, needle, k) == 0
    ensures k + |needle| <= |hay| && Occurs(hay, needle, k) ==>
              CountFrom(hay, needle, k) == 1 + CountFrom(hay, needle, k + |needle|)
  {}

  method CountOccurrences(needle: StringCell, hay: StringCell) returns (count: int)
    requires needle.Valid() && hay.Valid()
    ensures needle.Text() == [] ==> count == 0
    ensures needle.Text() != [] ==> count == CountFrom(hay.Text(), needle.Text(), 0)
  {
    hide EncodeAll, Offset, CountFrom;
    ghost var h, n := hay.Text(), needle.Text();
    NonEmptyBytes(n);
    OffsetEnds(h);
    if needle.byteLen == 0 { return 0; }
    count := 0;
    var from := 0;
    ghost var k := 0;
    while true
      invariant 0 <= k <= |h| && from == Offset(h, k) <= hay.byteLen
      invariant count + CountFrom(h, n, k) == CountFrom(h, n, 0)
      decreases hay.byteLen - from
    {
      var b := FindBytes(hay.bytes, needle.bytes, from);
      if b < 0 {
        NoMatchAtAll(h, n, k);
        CountSkip(h, n, k, |h| + 1);
        CountStep(h, n, |h| + 1);
        break;
      }
      ghost var at := FoundAfter(h, n, k, b);
      CountSkip(h, n, k, at);
      CountStep(h, n, at);
      OccurrenceIsMatch(h, n, at);
      OffsetMonotone(h, at + |n|, |h|);
      count := count + 1;
      from := b + needle.byteLen;
      k := at + |n|;
    }
  }

  lemma FoundAfter(h: seq<Scalar>, n: seq<Scalar>, k: nat, b: nat) returns (at: nat)
    requires k <= |h| && n != [] && Offset(h, k) <= b
    requires MatchAt(EncodeAll(h), EncodeAll(n), b) && NoMatch(EncodeAll(h), EncodeAll(n), Offset(h, k), b)
    ensures k <= at && at + |n| <= |h| && Occurs(h, n, at) && b == Offset(h, at)
    ensures forall j :: k <= j < at ==> !Occurs(h, n, j)
  {
    MatchIsOccurrence(h, n, b);
    at := LeadCount(EncodeAll(h)[..b]);
    if at < k { OffsetMonotone(h, at, k); }
    NoMatchNoOccurrence(h, n, k, at);
  }

  method StartsWith(prefix: StringCell, s: StringCell) returns (r: bool)
    requires prefix.Valid() && s.Valid()
    ensures r <==> prefix.Text() <= s.Text()
  {
    if prefix.byteLen > s.byteLen {
      if prefix.Text() <= s.Text() { PrefixBytes(prefix.Text(), s.Text()); }
      return false;
    }
    r := s.bytes[..prefix.byteLen] == prefix.bytes;
    if r { EncodeAllPrefix(prefix.Text(), s.Text()); }
    if prefix.Text() <= s.Text() { PrefixBytes(prefix.Text(), s.Text()); }
  }

  lemma PrefixBytes(a: seq<Scalar>, b: seq<Scalar>)
    requires a <= b
    ensures EncodeAll(a) <= EncodeAll(b)
  {
    EncodeAllSplit(b, |a|);
  }

  method EndsWith(suffix: StringCell, s: StringCell) returns (r: bool)
    requires suffix.Valid() && s.Valid()
    ensures r <==> Occurs(s.Text(), suffix.Text(), |s.Text()| - |suffix.Text()|)
  {
    hide EncodeAll, Offset, LeadCount;
    ghost var x, t := suffix.Text(), s.Text();
    OffsetEnds(t);
    if Occurs(t, x, |t| - |x|) { OccurrenceIsMatch(t, x, |t| - |x|); }
    if suffix.byteLen > s.byteLen { return false; }
    r := s.bytes[s.byteLen - suffix.byteLen..] == suffix.bytes;
    if r && x != [] {
      MatchIsOccurrence(t, x, s.byteLen - suffix.byteLen);
      ghost var k := LeadCount(s.bytes[..s.byteLen - suffix.byteLen]);
      OccurrenceIsMatch(t, x, k);
      if k + |x| < |t| { OffsetMonotone(t, k + |x|, |t|); }
    }
  }
}
