/** Slicing by scalars.  One remembered position, in one cell, speeds up the walk to the next; it never changes an
    answer. */
module Cursor {
  import opened Wrappers
  import opened Utf8
  import opened Cells
  import Boundaries

  /** When a text has as many scalars as bytes, every offset is its index. */
  lemma AsciiOffset(t: seq<Scalar>, k: nat)
    requires |EncodeAll(t)| == |t| && k <= |t|
    ensures Offset(t, k) == k
  {
    OffsetEnds(t);
    OffsetMonotone(t, 0, k);
    OffsetMonotone(t, k, |t|);
  }

  class SliceCursor {
    var cell: StringCell?
    var cpi: int
    var b: int

    /** The cached triple, when there is one, is a true code point boundary of its cell. */
    ghost predicate Valid()
      reads this
    {
      cell != null ==> cell.Valid() && 0 <= cpi <= cell.cpCount && b == Offset(cell.Text(), cpi)
    }

    constructor ()
      ensures Valid()
    {
      cell, cpi, b := null, 0, 0;
    }

    /** The byte offset of code point `k`, resumed from the cache forwards, backwards, or walked from the start. */
    method Locate(s: StringCell, k: nat) returns (off: nat)
      requires Valid() && s.Valid() && k <= s.cpCount
      modifies this
      ensures Valid() && cell == s && cpi == k && b == off
      ensures off == Offset(s.Text(), k)
    {
      hide Offset, IsCont, EncodeAll;
      ghost var t := s.Text();
      OffsetEnds(t);
      var at, c := 0, 0;
      if cell == s {
        if cpi <= k {
          at, c := b, cpi;
        } else if cpi - k < k {
          at, c := b, cpi;
          while c > k
            invariant k <= c <= |t| && at == Offset(t, c)
          {
            at := Boundaries.LeadBefore(s.bytes, at, t, c - 1);
            c := c - 1;
          }
        }
      }
      while at < s.byteLen && c < k
        invariant 0 <= c <= k && at == Offset(t, c)
        decreases k - c
      {
        at := Boundaries.LeadAfter(s.bytes, at, t, c);
        c := c + 1;
      }
      if c < k { OffsetMonotone(t, c, |t|); }
      cell, cpi, b := s, c, at;
      off := at;
    }

    /** Whatever is cached, a slice is the subsequence of the cell's scalars between its bounds; a bound before the
        start or past the end counts as that end, and bounds in the wrong order give the empty text. */
    method Slice(loArg: int, hiArg: int, s: StringCell) returns (r: StringCell)
      requires Valid() && s.Valid()
      modifies this
      ensures Valid() && r.Valid()
      ensures 0 <= loArg <= hiArg <= s.cpCount ==> r.Text() == s.Text()[loArg..hiArg]
      ensures loArg < 0 <= hiArg <= s.cpCount ==> r.Text() == s.Text()[..hiArg]
      ensures 0 <= loArg <= s.cpCount < hiArg ==> r.Text() == s.Text()[loArg..]
      ensures loArg < 0 && s.cpCount < hiArg ==> r.Text() == s.Text()
      ensures hiArg < loArg || hiArg < 0 || s.cpCount < loArg ==> r.Text() == []
    {
      hide Offset, EncodeAll;
      var lo, hi := loArg, hiArg;
      if lo < 0 { lo := 0; } else if lo > s.cpCount { lo := s.cpCount; }
      if hi < lo { hi := lo; } else if hi > s.cpCount { hi := s.cpCount; }
      ghost var t := s.Text();
      OffsetEnds(t);
      var blo, bhi;
      if s.cpCount == s.byteLen {
        AsciiOffset(t, lo);
        AsciiOffset(t, hi);
        blo, bhi := lo, hi;
      } else {
        if lo == 0 { blo := 0; } else { blo := Locate(s, lo); }
        if hi == s.cpCount { bhi := s.byteLen; } else { bhi := Locate(s, hi); }
      }
      OffsetSlice(t, lo, hi);
      r := new StringCell(bhi - blo, hi - lo, s.bytes[blo..bhi]);
      r.DenotesText(t[lo..hi]);
    }
  }

  /** The code points between two byte cursors; `None` where the runtime panics, which is exactly when the cursors
      are out of range, reversed, or not both on code point boundaries. */
  method SliceBytes(lo: int, hi: int, s: StringCell) returns (r: Option<StringCell>)
    requires s.Valid()
    ensures r.Some? ==> r.value.Valid()
    ensures r.Some? <==> exists i, j ::
              0 <= i <= j <= s.cpCount && lo == Offset(s.Text(), i) && hi == Offset(s.Text(), j)
    ensures forall i, j :: r.Some? && 0 <= i <= j <= s.cpCount && lo == Offset(s.Text(), i) && hi == Offset(s.Text(), j)
              ==> r.value.Text() == s.Text()[i..j]
  {
    hide Offset, EncodeAll, IsCont;
    ghost var t := s.Text();
    forall i, j | 0 <= i <= j <= |t|
      ensures 0 <= Offset(t, i) <= Offset(t, j) <= s.byteLen
      ensures Offset(t, i) < s.byteLen ==> !IsCont(s.bytes[Offset(t, i)])
      ensures Offset(t, j) < s.byteLen ==> !IsCont(s.bytes[Offset(t, j)])
      ensures s.bytes[Offset(t, i)..Offset(t, j)] == EncodeAll(t[i..j])
    {
      OffsetIsBoundary(t, i);
      OffsetIsBoundary(t, j);
      OffsetSlice(t, i, j);
    }
    if lo < 0 || hi > s.byteLen || lo > hi || (lo < s.byteLen && IsCont(s.bytes[lo]))
       || (hi < s.byteLen && IsCont(s.bytes[hi])) {
      return None;
    }
    BoundaryIsOffset(t, lo);
    BoundaryIsOffset(t, hi);
    ghost var i, j := LeadCount(s.bytes[..lo]), LeadCount(s.bytes[..hi]);
    LeadCountMonotone(s.bytes, lo, hi);
    var cell := FromOwnBytes(s.bytes[lo..hi]);
    forall i, j | 0 <= i <= j <= |t| && lo == Offset(t, i) && hi == Offset(t, j) ensures cell.Text() == t[i..j] {
      TextOfEncodeAll(t[i..j]);
    }
    r := Some(cell);
  }

  lemma LeadCountMonotone(p: seq<Byte>, i: nat, j: nat)
    requires i <= j <= |p|
    ensures LeadCount(p[..i]) <= LeadCount(p[..j])
  {
    assert p[..j] == p[..i] + p[i..j];
    LeadCountAppend(p[..i], p[i..j]);
  }
}
