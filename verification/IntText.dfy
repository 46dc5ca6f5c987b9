/** Printing and parsing Int in decimal, in 64-bit machine arithmetic: the newtypes make the verifier show that no
    intermediate leaves 64 bits. */
module IntText {
  import opened Wrappers
  import opened Utf8
  import Cells

  newtype Int64 = x: int | -0x8000_0000_0000_0000 <= x <= 0x7FFF_FFFF_FFFF_FFFF
  newtype UInt64 = x: int | 0 <= x <= 0xFFFF_FFFF_FFFF_FFFF

  const MIN_INT: int := -0x4000_0000_0000_0000
  const MAX_INT: int := 0x3FFF_FFFF_FFFF_FFFF

  const MINUS: Byte := 0x2D
  const PLUS: Byte := 0x2B

  // ----- Meaning

  const DIGITS: seq<Byte> := [0x30, 0x31, 0x32, 0x33, 0x34, 0x35, 0x36, 0x37, 0x38, 0x39]

  function DigitByte(d: int): Byte
    requires 0 <= d < 10
  {
    DIGITS[d]
  }

  predicate IsDigit(b: Byte) {
    0x30 <= b <= 0x39
  }

  function DigitValue(b: Byte): (d: int)
    ensures 0 <= d < 10
  {
    if b == 0x30 then 0 else if b == 0x31 then 1 else if b == 0x32 then 2 else if b == 0x33 then 3
    else if b == 0x34 then 4
    else if b == 0x35 then 5 else if b == 0x36 then 6 else if b == 0x37 then 7 else if b == 0x38 then 8 else 9
  }

  predicate AllDigits(ds: seq<Byte>) {
    forall i :: 0 <= i < |ds| ==> IsDigit(ds[i])
  }

  function Decimal(ds: seq<Byte>): (v: int)
    ensures v >= 0
  {
    if ds == [] then 0 else Decimal(ds[..|ds| - 1]) * 10 + DigitValue(ds[|ds| - 1])
  }

  function Signed(bs: seq<Byte>): bool {
    |bs| > 0 && (bs[0] == MINUS || bs[0] == PLUS)
  }

  /** What a string says: an optional sign, then one or more digits, in range. */
  function Meaning(bs: seq<Byte>): Option<int> {
    var ds := if Signed(bs) then bs[1..] else bs;
    if ds == [] || !AllDigits(ds) then None
    else
      var v := if bs[0] == MINUS then -Decimal(ds) else Decimal(ds);
      if MIN_INT <= v <= MAX_INT then Some(v) else None
  }

  function Magnitude(m: nat): seq<Byte> {
    if m < 10 then [DigitByte(m)] else Magnitude(m / 10) + [DigitByte(m % 10)]
  }

  function Render(n: int): seq<Byte> {
    if n < 0 then [MINUS] + Magnitude(-n) else Magnitude(n)
  }

  /** The forms a number may have, and nothing else. */
  lemma MeaningIs(bs: seq<Byte>, v: int)
    ensures Meaning(bs) == Some(v) <==>
              && -0x4000_0000_0000_0000 <= v <= 0x3FFF_FFFF_FFFF_FFFF
              && (|| (|bs| > 0 && AllDigits(bs) && v == Decimal(bs))
                  || (|bs| > 1 && bs[0] == 0x2B && AllDigits(bs[1..]) && v == Decimal(bs[1..]))
                  || (|bs| > 1 && bs[0] == 0x2D && AllDigits(bs[1..]) && v == -Decimal(bs[1..])))
  {
    hide Decimal;
    if |bs| > 0 && (bs[0] == 0x2B || bs[0] == 0x2D) { assert !IsDigit(bs[0]); }
  }

  /** A decimal is read digit by digit. */
  lemma DecimalIs(ds: seq<Byte>, b: Byte)
    requires IsDigit(b)
    ensures Decimal([]) == 0 && Decimal(ds + [b]) == 10 * Decimal(ds) + (b as int - 0x30)
  {
    assert (ds + [b])[..|ds|] == ds;
    hide Decimal;
  }

  // ----- Parsing undoes printing

  lemma DigitOfByte(d: int)
    requires 0 <= d < 10
    ensures IsDigit(DigitByte(d)) && DigitValue(DigitByte(d)) == d && DigitByte(d) != MINUS && DigitByte(d) != PLUS
            && DigitByte(d) < 0x80
  {}

  lemma {:induction false} MagnitudeIsDecimal(m: nat)
    ensures var ds := Magnitude(m); |ds| > 0 && AllDigits(ds) && Decimal(ds) == m
  {
    var ds := Magnitude(m);
    if m < 10 {
      DigitOfByte(m);
      assert Decimal(ds[..0]) == 0;
    } else {
      MagnitudeIsDecimal(m / 10);
      DigitOfByte(m % 10);
      assert ds[..|ds| - 1] == Magnitude(m / 10);
    }
  }

  lemma DigitIsNoSign(b: Byte)
    requires IsDigit(b)
    ensures b != MINUS && b != PLUS
  {}

  /** Parsing the printed form of any Int gives it back. */
  lemma ParsePrinted(n: int)
    requires MIN_INT <= n <= MAX_INT
    ensures Meaning(Render(n)) == Some(n)
  {
    hide Magnitude, Decimal, DigitByte, DigitValue;
    var ds := Magnitude(if n < 0 then -n else n);
    MagnitudeIsDecimal(if n < 0 then -n else n);
    if n < 0 {
      assert Render(n)[1..] == ds;
    } else {
      DigitIsNoSign(ds[0]);
    }
  }

  /** Digits for `m`, of which the first is 0 only if it is the only one. */
  ghost predicate PlainDigits(ds: seq<Byte>, m: int) {
    |ds| > 0 && AllDigits(ds) && (ds[0] == 0x30 ==> |ds| == 1) && Decimal(ds) == m
  }

  /** A minus exactly for a negative Int, then plain digits. */
  ghost predicate Canonical(bs: seq<Byte>, n: int) {
    if n < 0 then |bs| > 0 && bs[0] == 0x2D && PlainDigits(bs[1..], -n) else PlainDigits(bs, n)
  }

  lemma {:induction false} MagnitudeCanonical(ds: seq<Byte>)
    requires PlainDigits(ds, Decimal(ds))
    ensures Magnitude(Decimal(ds)) == ds && (Decimal(ds) == 0 <==> ds == [0x30])
  {
    var n := |ds| - 1;
    var front, d := ds[..n], DigitValue(ds[n]);
    ByteOfDigit(ds[n]);
    assert ds == front + [ds[n]];
    assert Decimal(ds) == Decimal(front) * 10 + d;
    if n == 0 {
      assert Decimal(front) == 0;
    } else {
      MagnitudeCanonical(front);
      assert front != [0x30] by { assert front[0] == ds[0]; }
      LastDigit(Decimal(front), d);
      hide Magnitude, Decimal, DigitByte, DigitValue;
    }
  }

  lemma LastDigit(q: nat, d: nat)
    requires q > 0 && d < 10
    ensures Magnitude(q * 10 + d) == Magnitude(q) + [DigitByte(d)]
  {
    hide DigitByte;
  }

  lemma ByteOfDigit(b: Byte)
    requires IsDigit(b)
    ensures DigitByte(DigitValue(b)) == b && (DigitValue(b) == 0 <==> b == 0x30)
  {}

  lemma {:induction false} MagnitudeFirst(m: nat)
    ensures Magnitude(m)[0] == 0x30 <==> m == 0
    ensures Magnitude(m)[0] == 0x30 ==> |Magnitude(m)| == 1
  {
    if m < 10 { DigitOfByte(m); DigitZero(m); } else { MagnitudeFirst(m / 10); }
  }

  lemma DigitZero(d: int)
    requires 0 <= d < 10
    ensures DigitByte(d) == 0x30 <==> d == 0
  {}

  /** Of all the strings that mean an Int, exactly one is its printed form. */
  lemma RenderIsCanonical(bs: seq<Byte>, n: int)
    ensures bs == Render(n) <==> Canonical(bs, n)
  {
    hide Magnitude, Decimal;
    var m := if n < 0 then -n else n;
    MagnitudeIsDecimal(m);
    MagnitudeFirst(m);
    if n < 0 { assert Render(n)[1..] == Magnitude(m); }
    if Canonical(bs, n) {
      var ds := if n < 0 then bs[1..] else bs;
      MagnitudeCanonical(ds);
      if n < 0 { assert bs == [bs[0]] + bs[1..]; }
    }
  }

  /** Different Ints print differently. */
  lemma PrintInjective(a: int, b: int)
    requires MIN_INT <= a <= MAX_INT && MIN_INT <= b <= MAX_INT && Render(a) == Render(b)
    ensures a == b
  {
    ParsePrinted(a);
    ParsePrinted(b);
  }

  // ----- Parsing

  /** C's division by ten, which rounds toward zero. */
  function TenthTowardZero(a: Int64): (q: Int64)
    ensures var x, t := a as int, 10 * (q as int); if x >= 0 then t <= x < t + 10 else t - 10 < x <= t
  {
    if a < 0 then -(-(a as int) / 10) as Int64 else a / 10
  }

  lemma {:induction false} DecimalPrefix(ds: seq<Byte>, k: nat)
    requires k <= |ds|
    ensures Decimal(ds[..k]) <= Decimal(ds)
  {
    if k < |ds| {
      DecimalPrefix(ds[..|ds| - 1], k);
      assert ds[..|ds| - 1][..k] == ds[..k];
    } else {
      assert ds[..k] == ds;
    }
  }

  lemma DecimalStep(ds: seq<Byte>, k: nat)
    requires k < |ds|
    ensures Decimal(ds[..k + 1]) == Decimal(ds[..k]) * 10 + DigitValue(ds[k]) <= Decimal(ds)
  {
    assert ds[..k + 1][..k] == ds[..k];
    DecimalPrefix(ds, k + 1);
  }

  lemma ByteDigit(b: Byte)
    requires IsDigit(b)
    ensures b - 0x30 <= 9 && (b - 0x30) as int == DigitValue(b)
  {}

  /** `mdk_string_to_int` answers what the string means, tagged; the two checks before each step reject exactly when the
      value has left the range, and no step leaves 64 bits. */
  method StringToInt(s: Cells.StringCell) returns (r: Option<Int64>)
    requires s.byteLen == |s.bytes| < 0x8000_0000_0000_0000
    ensures var m := Meaning(s.bytes);
            if m.None? then r == None else r.Some? && r.value as int == 2 * m.value + 1
  {
    hide Meaning, Decimal, DigitValue;
    var b, n := s.bytes, s.byteLen;
    if n == 0 { Nothing(b); return None; }
    var negative, i := false, 0;
    if b[0] == MINUS { negative, i := true, 1; } else if b[0] == PLUS { i := 1; }
    ghost var start, ds := i, b[i..];
    var acc: Int64, seen := 0, false;
    NoDigits();
    while i < n
      invariant start <= i <= n && AllDigits(ds[..i - start]) && (seen <==> i > start)
      invariant acc as int == -Decimal(ds[..i - start]) && (if negative then MIN_INT else -MAX_INT) <= acc as int
    {
      ghost var k := i - start;
      if b[i] < 0x30 || b[i] > 0x39 { NotADigit(b, ds, k, start); return None; }
      ByteDigit(b[i]);
      DecimalStep(ds, k);
      var d := (b[i] - 0x30) as Int64;
      var limit: Int64 := if negative then -0x4000_0000_0000_0000 else 0 - 0x3FFF_FFFF_FFFF_FFFF;
      if acc < TenthTowardZero(limit) { TooLarge(b, ds, start); return None; }
      var acc2 := acc * 10;
      if acc2 < limit + d { TooLarge(b, ds, start); return None; }
      acc := acc2 - d;
      seen := true;
      assert ds[..k + 1] == ds[..k] + [b[i]];
      i := i + 1;
    }
    assert ds[..n - start] == ds;
    Answer(b, ds, start);
    if !seen { return None; }
    var v := if negative then acc else 0 - acc;
    return Some(v * 2 + 1);
  }

  lemma NoDigits()
    ensures Decimal([]) == 0
  {}

  lemma Nothing(b: seq<Byte>)
    requires b == []
    ensures Meaning(b) == None
  {}

  ghost predicate Split(b: seq<Byte>, ds: seq<Byte>, start: nat) {
    start <= 1 && start <= |b| && (start == 1 <==> Signed(b)) && ds == b[start..]
  }

  lemma NotADigit(b: seq<Byte>, ds: seq<Byte>, k: nat, start: nat)
    requires Split(b, ds, start) && k < |ds| && !IsDigit(ds[k])
    ensures Meaning(b) == None
  {}

  lemma TooLarge(b: seq<Byte>, ds: seq<Byte>, start: nat)
    requires Split(b, ds, start) && |b| > 0 && (if b[0] == MINUS then -Decimal(ds) < MIN_INT else Decimal(ds) > MAX_INT)
    ensures Meaning(b) == None
  {}

  lemma Answer(b: seq<Byte>, ds: seq<Byte>, start: nat)
    requires Split(b, ds, start) && |b| > 0 && AllDigits(ds)
             && (if b[0] == MINUS then -Decimal(ds) >= MIN_INT else Decimal(ds) <= MAX_INT)
    ensures Meaning(b) == if ds == [] then None else Some(if b[0] == MINUS then -Decimal(ds) else Decimal(ds))
  {}

  // ----- Printing

  function Pow10(k: nat): nat {
    if k == 0 then 1 else 10 * Pow10(k - 1)
  }

  lemma Pow10Table()
    ensures Pow10(18) == 1_000_000_000_000_000_000 && Pow10(19) == 10_000_000_000_000_000_000
  {
    assert Pow10(6) == 1_000_000;
    assert Pow10(12) == 1_000_000_000_000;
    assert Pow10(18) == 1_000_000_000_000_000_000;
  }

  lemma {:induction false} Pow10Monotone(j: nat, k: nat)
    requires j <= k
    ensures Pow10(j) <= Pow10(k)
    decreases k - j
  {
    if j < k { Pow10Monotone(j, k - 1); }
  }

  /** The number of digits is where the powers of ten overtake the value. */
  lemma {:induction false} MagnitudeLength(m: nat, k: nat)
    requires k >= 1 && m < Pow10(k) && (k == 1 || Pow10(k - 1) <= m)
    ensures |Magnitude(m)| == k
  {
    if m < 10 {
      if k > 1 { Pow10Monotone(1, k - 1); }
    } else {
      assert k > 1;
      if k == 2 { assert Pow10(1) == 10; }
      MagnitudeLength(m / 10, k - 1);
    }
  }

  lemma AsciiAlone(b: Byte) returns (c: Scalar)
    requires b < 0x80
    ensures EncodeAll([c]) == [b]
  {
    hide EncodeAll;
    EncodeJoin1(b);
    c := b as bv32;
    EncodeAllOne(c);
  }

  lemma {:induction false} AsciiWidens(bs: seq<Byte>) returns (t: seq<Scalar>)
    requires forall i :: 0 <= i < |bs| ==> bs[i] < 0x80
    ensures |t| == |bs| && EncodeAll(t) == bs
  {
    if bs == [] {
      t := [];
    } else {
      hide Encode, IsScalar, EncodeAll;
      var u := AsciiWidens(bs[1..]);
      var c := AsciiAlone(bs[0]);
      EncodeAllAppend([c], u);
      t := [c] + u;
    }
  }

  lemma {:induction false} MagnitudeAscii(m: nat)
    ensures forall i :: 0 <= i < |Magnitude(m)| ==> Magnitude(m)[i] < 0x80
  {
    if m < 10 { DigitOfByte(m); } else { MagnitudeAscii(m / 10); DigitOfByte(m % 10); }
  }

  /** `mdk_int_to_string`: the word `2 * n + 1` is the Int `n`. */
  method IntToString(tagged: Int64) returns (cell: Cells.StringCell)
    ensures cell.Valid() && cell.cpCount == cell.byteLen
    ensures forall n: int :: tagged as int == 2 * n + 1 ==> cell.bytes == Render(n)
  {
    hide Decimal, DigitValue, EncodeAll, Magnitude;
    var n: int := ShiftRight(tagged);
    var u: UInt64 := (if n < 0 then -n else n) as UInt64;
    var digits := CountDigits(u);
    var len := digits + if n < 0 then 1 else 0;
    var buf := new Byte[len];
    var p := FillDigits(buf, u, digits);
    if n < 0 {
      p := p - 1;
      buf[p] := MINUS;
      assert buf[..] == [MINUS] + buf[1..];
    }
    assert buf[..] == Render(n);
    RenderAscii(n);
    ghost var t := AsciiWidens(buf[..]);
    cell := new Cells.StringCell(len, len, buf[..]);
    cell.DenotesText(t);
  }

  /** The arithmetic shift that drops the tag rounds down. */
  function ShiftRight(x: Int64): (n: int)
    ensures 2 * n <= x as int <= 2 * n + 1
  {
    x as int / 2
  }

  method CountDigits(u: UInt64) returns (digits: nat)
    requires u <= 0x8000_0000_0000_0000
    ensures digits == |Magnitude(u as int)|
  {
    hide Magnitude;
    Pow10Table();
    digits := 1;
    var p: UInt64 := 10;
    assert Pow10(1) == 10;
    while u >= p
      invariant 1 <= digits <= 19 && p as int == Pow10(digits) && (digits == 1 || Pow10(digits - 1) <= u as int)
      decreases 20 - digits
    {
      assert digits <= 18;
      Pow10Monotone(digits, 18);
      p := p * 10;
      digits := digits + 1;
    }
    MagnitudeLength(u as int, digits);
  }

  /** The do-while loop: the digits of `u` fill the buffer from its last byte backwards. */
  method FillDigits(buf: array<Byte>, u0: UInt64, digits: nat) returns (p: nat)
    requires digits == |Magnitude(u0 as int)| <= buf.Length
    modifies buf
    ensures p == buf.Length - digits && buf[p..] == Magnitude(u0 as int)
  {
    hide Magnitude, DigitByte;
    var u, first := u0, true;
    p := buf.Length;
    ghost var tail: seq<Byte> := [];
    while first || u != 0
      invariant 0 <= p <= buf.Length && buf[p..] == tail && (first ==> u == u0)
      invariant Magnitude(u0 as int) == (if first || u != 0 then Magnitude(u as int) else []) + tail
      decreases first, u
    {
      MagnitudeSplits(u as int, tail);
      p := p - 1;
      buf[p] := DigitByte((u % 10) as int);
      tail := [DigitByte((u % 10) as int)] + tail;
      assert buf[p..] == [buf[p]] + buf[p + 1..];
      u := u / 10;
      first := false;
    }
  }

  lemma MagnitudeSplits(m: nat, tail: seq<Byte>)
    ensures |Magnitude(m)| > 0
    ensures Magnitude(m) + tail == (if m < 10 then [] else Magnitude(m / 10)) + ([DigitByte(m % 10)] + tail)
  {
    hide DigitByte;
  }

  lemma RenderAscii(n: int)
    ensures forall i :: 0 <= i < |Render(n)| ==> Render(n)[i] < 0x80
  {
    MagnitudeAscii(if n < 0 then -n else n);
  }
}
