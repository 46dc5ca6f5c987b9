/** The String cell, its bytes with their number and the number of scalars in them, and the producers that build one
    cell from others without rescanning: each keeps the bytes well formed and the cached count right. */
module Cells {
  import opened Utf8
  import Words

  datatype List<+T> = Nil | Cons(head: T, tail: List<T>)

  class StringCell {
    const byteLen: int
    const cpCount: int
    const bytes: seq<Byte>

    constructor (byteLen: int, cpCount: int, bytes: seq<Byte>)
      ensures this.byteLen == byteLen && this.cpCount == cpCount && this.bytes == bytes
    {
      this.byteLen, this.cpCount, this.bytes := byteLen, cpCount, bytes;
    }

    ghost predicate Denotes(t: seq<Scalar>) {
      byteLen == |bytes| && bytes == EncodeAll(t) && cpCount == |t|
    }

    ghost predicate Valid() {
      WellFormed(bytes) && Denotes(Utf8.Text(bytes))
    }

    ghost function Text(): (t: seq<Scalar>)
      requires Valid()
      ensures Denotes(t)
    {
      Utf8.Text(bytes)
    }

    lemma DenotesText(t: seq<Scalar>)
      requires Denotes(t)
      ensures Valid() && Text() == t
    {
      TextOfEncodeAll(t);
    }
  }

  /** `memcpy(dst + off, src, |src|)`. */
  method Blit(dst: array<Byte>, off: nat, src: seq<Byte>)
    requires off + |src| <= dst.Length
    modifies dst
    ensures dst[..off] == old(dst[..off]) && dst[off + |src|..] == old(dst[off + |src|..])
    ensures dst[..off + |src|] == old(dst[..off]) + src
  {
    forall k | 0 <= k < |src| { dst[off + k] := src[k]; }
  }

  /** A literal or other bytes the program itself made: the count is taken by the word-at-a-time counter. */
  method FromOwnBytes(p: seq<Byte>) returns (cell: StringCell)
    requires WellFormed(p)
    ensures cell.Valid() && cell.Text() == Utf8.Text(p) && cell.bytes == p
  {
    var cps := Words.CountCodepoints(p, |p|);
    LeadCountIsLength(Utf8.Text(p));
    assert p[..|p|] == p;
    cell := new StringCell(|p|, cps, p);
    cell.DenotesText(Utf8.Text(p));
  }

  /** The cached count is what the counter would return for any valid cell. */
  lemma CachedCountIsLeadCount(cell: StringCell)
    requires cell.Valid()
    ensures cell.cpCount == LeadCount(cell.bytes) && cell.cpCount <= cell.byteLen
    ensures cell.cpCount == cell.byteLen <==> forall k :: 0 <= k < |cell.bytes| ==> !IsCont(cell.bytes[k])
  {
    LeadCountIsLength(cell.Text());
    LeadCountBound(cell.bytes);
  }

  lemma {:induction false} LeadCountBound(bs: seq<Byte>)
    ensures LeadCount(bs) <= |bs|
    ensures LeadCount(bs) == |bs| <==> forall k :: 0 <= k < |bs| ==> !IsCont(bs[k])
  {
    if bs != [] {
      LeadCountBound(bs[..|bs| - 1]);
      assert forall k :: 0 <= k < |bs| - 1 ==> bs[..|bs| - 1][k] == bs[k];
    }
  }

  // ----- Append, append_n, concat, join

  method Append(a: StringCell, b: StringCell) returns (cell: StringCell)
    requires a.Valid() && b.Valid()
    ensures cell.Valid() && cell.Text() == a.Text() + b.Text()
  {
    hide EncodeAll;
    var total := a.byteLen + b.byteLen;
    var buf := new Byte[total];
    Blit(buf, 0, a.bytes);
    Blit(buf, a.byteLen, b.bytes);
    assert buf[..] == buf[..total] == a.bytes + b.bytes;
    EncodeAllAppend(a.Text(), b.Text());
    cell := new StringCell(total, a.cpCount + b.cpCount, buf[..]);
    cell.DenotesText(a.Text() + b.Text());
  }

  ghost function Concatenation(texts: seq<seq<Scalar>>): seq<Scalar> {
    if texts == [] then [] else texts[0] + Concatenation(texts[1..])
  }

  /** Nothing, one text, and two lists of texts one after the other. */
  lemma {:induction false} ConcatenationLaws(xs: seq<seq<Scalar>>, ys: seq<seq<Scalar>>, t: seq<Scalar>)
    ensures Concatenation([]) == [] && Concatenation([t]) == t
    ensures Concatenation(xs + ys) == Concatenation(xs) + Concatenation(ys)
  {
    if xs == [] {
      assert xs + ys == ys;
    } else {
      assert (xs + ys)[1..] == xs[1..] + ys;
      ConcatenationLaws(xs[1..], ys, t);
    }
  }

  ghost predicate AllValid(cells: seq<StringCell>) {
    forall c :: c in cells ==> c.Valid()
  }

  ghost function Texts(cells: seq<StringCell>): (t: seq<seq<Scalar>>)
    requires AllValid(cells)
    ensures |t| == |cells| && forall i :: 0 <= i < |cells| ==> t[i] == cells[i].Text()
  {
    if cells == [] then [] else [cells[0].Text()] + Texts(cells[1..])
  }

  ghost function PieceText(cells: seq<StringCell>): seq<Scalar>
    requires AllValid(cells)
  {
    Concatenation(Texts(cells))
  }

  ghost function Bytes(cells: seq<StringCell>): seq<Byte> {
    if cells == [] then [] else cells[0].bytes + Bytes(cells[1..])
  }

  ghost function SumBytes(cells: seq<StringCell>): int {
    if cells == [] then 0 else cells[0].byteLen + SumBytes(cells[1..])
  }

  ghost function SumCounts(cells: seq<StringCell>): int {
    if cells == [] then 0 else cells[0].cpCount + SumCounts(cells[1..])
  }

  /** Counts and bytes are additive over valid pieces. */
  lemma {:induction false} PieceSums(cells: seq<StringCell>)
    requires AllValid(cells)
    ensures EncodeAll(PieceText(cells)) == Bytes(cells)
    ensures |Bytes(cells)| == SumBytes(cells) && |PieceText(cells)| == SumCounts(cells)
  {
    if cells != [] {
      PieceSums(cells[1..]);
      assert Texts(cells)[1..] == Texts(cells[1..]);
      EncodeAllAppend(cells[0].Text(), PieceText(cells[1..]));
    }
  }

  /** Copies the next piece of `whole` into place, after the part already written. */
  method Emit(dst: array<Byte>, off: nat, piece: seq<Byte>, ghost whole: seq<Byte>, ghost rest: seq<Byte>)
    returns (next: nat)
    requires |whole| == dst.Length && off <= dst.Length && whole == dst[..off] + (piece + rest)
    modifies dst
    ensures next == off + |piece| <= dst.Length && whole == dst[..next] + rest
  {
    ghost var done := dst[..off];
    assert whole == (done + piece) + rest;
    Blit(dst, off, piece);
    next := off + |piece|;
  }

  method CopyArray(argv: seq<StringCell>, buf: array<Byte>)
    requires buf.Length == |Bytes(argv)|
    modifies buf
    ensures buf[..] == Bytes(argv)
  {
    ghost var whole := Bytes(argv);
    var dst, i := 0, 0;
    while i < |argv|
      invariant 0 <= i <= |argv| && 0 <= dst <= buf.Length
      invariant whole == buf[..dst] + Bytes(argv[i..])
    {
      assert argv[i..][1..] == argv[i + 1..];
      dst := Emit(buf, dst, argv[i].bytes, whole, Bytes(argv[i + 1..]));
      i := i + 1;
    }
    assert argv[i..] == [];
    assert whole == buf[..dst] == buf[..];
  }

  method AppendN(argv: seq<StringCell>) returns (cell: StringCell)
    requires AllValid(argv)
    ensures cell.Valid() && cell.Text() == PieceText(argv)
  {
    var total, cps, i := 0, 0, 0;
    while i < |argv|
      invariant 0 <= i <= |argv|
      invariant total + SumBytes(argv[i..]) == SumBytes(argv)
      invariant cps + SumCounts(argv[i..]) == SumCounts(argv)
    {
      assert argv[i..][1..] == argv[i + 1..];
      total, cps, i := total + argv[i].byteLen, cps + argv[i].cpCount, i + 1;
    }
    PieceSums(argv);
    var buf := new Byte[total];
    CopyArray(argv, buf);
    cell := new StringCell(total, cps, buf[..]);
    cell.DenotesText(PieceText(argv));
  }

  function Elements<T>(list: List<T>): seq<T> {
    match list case Nil => [] case Cons(x, rest) => [x] + Elements(rest)
  }

  method CopyList(list: List<StringCell>, buf: array<Byte>)
    requires buf.Length == |Bytes(Elements(list))|
    modifies buf
    ensures buf[..] == Bytes(Elements(list))
  {
    ghost var whole := Bytes(Elements(list));
    var off := 0;
    var w := list;
    while w.Cons?
      invariant 0 <= off <= buf.Length
      invariant whole == buf[..off] + Bytes(Elements(w))
      decreases w
    {
      off := Emit(buf, off, w.head.bytes, whole, Bytes(Elements(w.tail)));
      w := w.tail;
    }
    assert whole == buf[..off] == buf[..];
  }

  /** The same two passes over a cons list. */
  method Concat(list: List<StringCell>) returns (cell: StringCell)
    requires AllValid(Elements(list))
    ensures cell.Valid() && cell.Text() == PieceText(Elements(list))
  {
    var total, cps := 0, 0;
    var w := list;
    while w.Cons?
      invariant total + SumBytes(Elements(w)) == SumBytes(Elements(list))
      invariant cps + SumCounts(Elements(w)) == SumCounts(Elements(list))
      decreases w
    {
      total, cps := total + w.head.byteLen, cps + w.head.cpCount;
      w := w.tail;
    }
    PieceSums(Elements(list));
    var buf := new Byte[total];
    CopyList(list, buf);
    cell := new StringCell(total, cps, buf[..]);
    cell.DenotesText(PieceText(Elements(list)));
  }

  // ----- Join

  ghost function Intersperse<T>(sep: T, xs: seq<T>): seq<T> {
    if |xs| <= 1 then xs else [xs[0], sep] + Intersperse(sep, xs[1..])
  }

  /** A separator stands between two lists, and nowhere else. */
  lemma {:induction false} IntersperseLaws<T>(sep: T, xs: seq<T>, ys: seq<T>)
    requires xs != [] && ys != []
    ensures |xs| == 1 ==> Intersperse(sep, xs) == xs
    ensures Intersperse(sep, xs + ys) == Intersperse(sep, xs) + [sep] + Intersperse(sep, ys)
  {
    assert (xs + ys)[1..] == xs[1..] + ys;
    if |xs| > 1 {
      IntersperseLaws(sep, xs[1..], ys);
    } else {
      assert xs[1..] + ys == ys;
    }
  }

  /** The bytes of a join from some piece on: a separator before every piece but the very first. */
  ghost function JoinBytes(first: bool, sep: StringCell, cells: seq<StringCell>): seq<Byte> {
    if cells == [] then []
    else if first then cells[0].bytes + JoinBytes(false, sep, cells[1..])
    else sep.bytes + (cells[0].bytes + JoinBytes(false, sep, cells[1..]))
  }

  lemma TwoPieces(c: StringCell, sep: StringCell, rest: seq<StringCell>)
    ensures Bytes([c, sep] + rest) == c.bytes + (sep.bytes + Bytes(rest))
    ensures SumBytes([c, sep] + rest) == c.byteLen + sep.byteLen + SumBytes(rest)
    ensures SumCounts([c, sep] + rest) == c.cpCount + sep.cpCount + SumCounts(rest)
  {
    var all := [c, sep] + rest;
    assert all[1..] == [sep] + rest && all[1..][1..] == rest;
  }

  /** A join is the concatenation of its pieces interspersed with the separator, in bytes, sizes and counts... */
  lemma {:induction false} JoinIsIntersperse(sep: StringCell, cells: seq<StringCell>)
    ensures Bytes(Intersperse(sep, cells)) == JoinBytes(true, sep, cells)
    ensures cells != [] ==> JoinBytes(false, sep, cells) == sep.bytes + JoinBytes(true, sep, cells)
    ensures cells != [] ==> SumBytes(Intersperse(sep, cells)) == SumBytes(cells) + (|cells| - 1) * sep.byteLen
    ensures cells != [] ==> SumCounts(Intersperse(sep, cells)) == SumCounts(cells) + (|cells| - 1) * sep.cpCount
  {
    if |cells| == 1 {
      assert cells[1..] == [];
    } else if |cells| > 1 {
      JoinIsIntersperse(sep, cells[1..]);
      TwoPieces(cells[0], sep, Intersperse(sep, cells[1..]));
    }
  }

  /** ...and in text. */
  lemma {:induction false} JoinTexts(sep: StringCell, cells: seq<StringCell>)
    requires sep.Valid() && AllValid(cells)
    ensures AllValid(Intersperse(sep, cells))
    ensures Texts(Intersperse(sep, cells)) == Intersperse(sep.Text(), Texts(cells))
  {
    if |cells| > 1 {
      JoinTexts(sep, cells[1..]);
      var rest := Intersperse(sep, cells[1..]);
      var all := Intersperse(sep, cells);
      assert all[1..] == [sep] + rest && all[1..][1..] == rest;
      assert Texts(all[1..]) == [sep.Text()] + Texts(rest);
      assert Texts(cells)[1..] == Texts(cells[1..]);
    }
  }

  method CopyJoined(sep: StringCell, list: List<StringCell>, out: array<Byte>)
    requires out.Length == |JoinBytes(true, sep, Elements(list))|
    modifies out
    ensures out[..] == JoinBytes(true, sep, Elements(list))
  {
    ghost var whole := JoinBytes(true, sep, Elements(list));
    var o, first := 0, true;
    var w := list;
    while w.Cons?
      invariant 0 <= o <= out.Length
      invariant whole == out[..o] + JoinBytes(first, sep, Elements(w))
      decreases w
    {
      ghost var rest := JoinBytes(false, sep, Elements(w.tail));
      if !first { o := Emit(out, o, sep.bytes, whole, w.head.bytes + rest); }
      first := false;
      o := Emit(out, o, w.head.bytes, whole, rest);
      w := w.tail;
    }
    assert whole == out[..o] == out[..];
  }

  method Join(sep: StringCell, list: List<StringCell>) returns (cell: StringCell)
    requires sep.Valid() && AllValid(Elements(list))
    ensures cell.Valid() && cell.Text() == Concatenation(Intersperse(sep.Text(), Texts(Elements(list))))
  {
    ghost var all := Elements(list);
    var total, cp, parts := 0, 0, 0;
    var w := list;
    while w.Cons?
      invariant total + SumBytes(Elements(w)) == SumBytes(all)
      invariant cp + SumCounts(Elements(w)) == SumCounts(all)
      invariant parts + |Elements(w)| == |all|
      decreases w
    {
      total, cp, parts := total + w.head.byteLen, cp + w.head.cpCount, parts + 1;
      w := w.tail;
    }
    if parts > 1 { total, cp := total + (parts - 1) * sep.byteLen, cp + (parts - 1) * sep.cpCount; }
    JoinIsIntersperse(sep, all);
    JoinTexts(sep, all);
    PieceSums(Intersperse(sep, all));
    var out := new Byte[total];
    CopyJoined(sep, list, out);
    cell := new StringCell(total, cp, out[..]);
    cell.DenotesText(PieceText(Intersperse(sep, all)));
  }
}
