/** The strict DER parser for ECDSA signatures (sections 8.3 and 10.1 of ITU-T X.690, section 2.2.3 of RFC 3279), on
    bytes. */
module DerSignature {
  import opened Wrappers
  import opened Positional

  const ORDER: nat := 0xFFFF_FFFF_FFFF_FFFF_FFFF_FFFF_FFFF_FFFE_BAAE_DCE6_AF48_A03B_BFD2_5E8C_D036_4141

  // ----- The parser

  /** `_der_read_int`: the contents of one INTEGER at `idx` and where it ends. */
  function ReadInt(body: seq<Octet>, idx: nat): (r: Option<(seq<Octet>, nat)>)
    ensures r.Some? ==> idx + 2 <= r.value.1 <= |body| && r.value.0 == body[idx + 2..r.value.1]
  {
    if idx + 1 >= |body| || body[idx] != 0x02 then None
    else
      var length := body[idx + 1];
      if length >= 0x80 then None
      else
        var start := idx + 2;
        var end := start + length;
        if end > |body| then None
        else
          var value := body[start..end];
          if |value| == 0 then None
          else if |value| > 1 && value[0] == 0 && value[1] < 0x80 then None
          else if value[0] >= 0x80 then None
          else Some((value, end))
  }

  /** `der_to_rs` after the hex is decoded: r and s, 32 bytes each. */
  function DerToRs(body: seq<Octet>): Option<(seq<Octet>, seq<Octet>)> {
    if |body| < 8 || body[0] != 0x30 then None
    else if body[1] >= 0x80 || |body| != 2 + body[1] then None
    else
      var first := ReadInt(body, 2);
      if first.None? then None
      else
        var second := ReadInt(body, first.value.1);
        if second.None? then None
        else if second.value.1 != |body| then None
        else
          var r, s := Value(first.value.0), Value(second.value.0);
          if !(0 < r < ORDER && 0 < s < ORDER) then None else Some((ToBytes(r, 32), ToBytes(s, 32)))
  }

  // ----- The encoding

  /** A positive integer's contents: its bytes, with a zero in front when the first bit is set. */
  function Contents(v: nat): (c: seq<Octet>)
    requires v > 0
    ensures |c| > 0
  {
    ToDigitsIs(256, v);
    var digits := Octets(ToDigits(256, v));
    if digits[0] >= 0x80 then [0] + digits else digits
  }

  lemma PowersOf256()
    ensures Power(32) == 0x1_0000_0000_0000_0000_0000_0000_0000_0000_0000_0000_0000_0000_0000_0000_0000_0000
  {
    assert Power(8) == 0x1_0000_0000_0000_0000;
    assert Power(16) == 0x1_0000_0000_0000_0000_0000_0000_0000_0000;
    assert Power(24) == 0x1_0000_0000_0000_0000_0000_0000_0000_0000_0000_0000_0000_0000;
  }

  function Power(n: nat): nat {
    if n == 0 then 1 else 256 * Power(n - 1)
  }

  lemma {:induction false} DigitsBound(v: nat, n: nat)
    requires v < Power(n)
    ensures |ToDigits(256, v)| <= n
  {
    if v > 0 {
      assert n > 0;
      DigitsBound(v / 256, n - 1);
    }
  }

  /** Components of a signature take at most 33 bytes, so every length fits its one byte. */
  lemma ContentsShort(v: nat)
    requires 0 < v < ORDER
    ensures |Contents(v)| <= 33
  {
    PowersOf256();
    DigitsBound(v, 32);
    ToDigitsIs(256, v);
  }

  function EncodeInt(v: nat): (e: seq<Octet>)
    requires 0 < v < ORDER
    ensures 3 <= |e| <= 35
  {
    ContentsShort(v);
    [0x02, |Contents(v)|] + Contents(v)
  }

  /** The one minimal encoding of a pair. */
  function EncodeSignature(r: nat, s: nat): (e: seq<Octet>)
    requires 0 < r < ORDER && 0 < s < ORDER
    ensures 8 <= |e| <= 72
  {
    var c := EncodeInt(r) + EncodeInt(s);
    [0x30, |c|] + c
  }

  // ----- Accepting exactly that

  /** Minimal contents: not empty, first bit clear, no zero in front of a byte whose first bit is clear. */
  predicate Minimal(c: seq<Octet>) {
    |c| > 0 && c[0] < 0x80 && !(|c| > 1 && c[0] == 0 && c[1] < 0x80)
  }

  lemma ContentsMinimal(v: nat)
    requires v > 0
    ensures Minimal(Contents(v)) && Value(Contents(v)) == v
  {
    ToDigitsIs(256, v);
    var ds := ToDigits(256, v);
    assert Octets(ds) == ds;
    if ds[0] >= 0x80 {
      ZeroOctets(1, Octets(ds));
      assert [0] + Octets(ds) == Repeat<Octet>(0, 1) + Octets(ds);
    }
  }

  /** Bytes without a leading zero are the digits of their value, with a zero in front when the first bit is set. */
  lemma ContentsOfValue(ds: seq<Octet>)
    requires |ds| > 0 && ds[0] > 0
    ensures Value(ds) > 0 && Contents(Value(ds)) == if ds[0] >= 0x80 then [0] + ds else ds
  {
    hide FromDigits, ToDigits;
    FromDigitsPositive(256, ds);
    ToDigitsOfValue(256, ds);
    assert Octets(ds) == ds;
  }

  lemma LeadingZero(ds: seq<Octet>)
    ensures Value([0] + ds) == Value(ds)
  {
    hide FromDigits;
    ZeroOctets(1, ds);
    assert Repeat<Octet>(0, 1) == [0];
  }

  /** Minimal contents are those of their value. */
  lemma MinimalIsContents(c: seq<Octet>)
    requires Minimal(c) && Value(c) > 0
    ensures Contents(Value(c)) == c
  {
    if c[0] != 0 {
      ContentsOfValue(c);
    } else {
      assert c == [0] + c[1..];
      LeadingZero(c[1..]);
      ContentsOfValue(c[1..]);
    }
  }

  /** Reading at `idx` succeeds exactly on a tag, a length and that many minimal contents. */
  lemma ReadIntIs(body: seq<Octet>, idx: nat, c: seq<Octet>, end: nat)
    ensures ReadInt(body, idx) == Some((c, end)) <==>
              idx <= end <= |body| && |c| < 0x80 && Minimal(c) && body[idx..end] == [0x02, |c|] + c
  {
    if idx <= end <= |body| && |c| < 0x80 && Minimal(c) && body[idx..end] == [0x02, |c|] + c {
      var e := body[idx..end];
      assert e[0] == body[idx] && e[1] == body[idx + 1];
      assert body[idx + 2..end] == e[2..] == c;
    }
    if ReadInt(body, idx) == Some((c, end)) {
      assert body[idx..end] == [body[idx], body[idx + 1]] + body[idx + 2..end];
    }
  }

  lemma {:induction false} FixedWidth(v: nat, n: nat)
    requires v < Power(n)
    ensures |ToBytes(v, n)| == n && Value(ToBytes(v, n)) == v
  {
    if n > 0 {
      FixedWidth(v / 256, n - 1);
      var bs := ToBytes(v, n);
      assert bs[..n - 1] == ToBytes(v / 256, n - 1);
    }
  }

  /** A pair is returned for a byte string exactly when that is its one encoding. */
  lemma AcceptsExactly(body: seq<Octet>, r: nat, s: nat)
    requires 0 < r < ORDER && 0 < s < ORDER
    ensures DerToRs(body) == Some((ToBytes(r, 32), ToBytes(s, 32))) <==> body == EncodeSignature(r, s)
  {
    if body == EncodeSignature(r, s) { Completeness(r, s); }
    if DerToRs(body) == Some((ToBytes(r, 32), ToBytes(s, 32))) {
      var u, v := Soundness(body);
      PowersOf256();
      FixedWidth(r, 32); FixedWidth(s, 32); FixedWidth(u, 32); FixedWidth(v, 32);
    }
  }

  lemma TwoParts(h: seq<Octet>, a: seq<Octet>, b: seq<Octet>)
    ensures var t := h + a + b; t[|h|..|h| + |a|] == a && t[|h| + |a|..|t|] == b
  {}

  /** A signature written out: a sequence of two INTEGERs with short lengths, each the least contents of its value. */
  ghost predicate LaidOut(body: seq<Octet>, c: seq<Octet>, d: seq<Octet>) {
    && 0 < |c| < 0x80 && c[0] < 0x80 && (|c| > 1 && c[0] == 0 ==> c[1] >= 0x80)
    && 0 < |d| < 0x80 && d[0] < 0x80 && (|d| > 1 && d[0] == 0 ==> d[1] >= 0x80)
    && |c| + |d| + 4 < 0x80
    && body == [0x30, |c| + |d| + 4] + ([0x02, |c|] + c) + ([0x02, |d|] + d)
  }

  /** What is accepted, and as which pair, byte for byte. */
  lemma AcceptsLayout(body: seq<Octet>, c: seq<Octet>, d: seq<Octet>)
    requires LaidOut(body, c, d)
    ensures DerToRs(body) ==
              if 0 < Value(c) < ORDER && 0 < Value(d) < ORDER then Some((ToBytes(Value(c), 32), ToBytes(Value(d), 32)))
              else None
  {
    var a, b := [0x02, |c|] + c, [0x02, |d|] + d;
    TwoParts([0x30, |c| + |d| + 4], a, b);
    ReadIntIs(body, 2, c, 2 + |a|);
    ReadIntIs(body, 2 + |a|, d, |body|);
    hide ReadInt, Value, ToBytes;
  }

  lemma PartsLaidOut(body: seq<Octet>, c: seq<Octet>, d: seq<Octet>)
    requires Minimal(c) && Minimal(d) && |c| <= 33 && |d| <= 33
    requires body == [0x30, |c| + |d| + 4] + (([0x02, |c|] + c) + ([0x02, |d|] + d))
    ensures LaidOut(body, c, d)
  {}

  lemma EncodingLaidOut(r: nat, s: nat)
    requires 0 < r < ORDER && 0 < s < ORDER
    ensures LaidOut(EncodeSignature(r, s), Contents(r), Contents(s))
  {
    hide Contents, Value, Minimal, LaidOut;
    ContentsMinimal(r);
    ContentsMinimal(s);
    ContentsShort(r);
    ContentsShort(s);
    PartsLaidOut(EncodeSignature(r, s), Contents(r), Contents(s));
  }

  lemma Completeness(r: nat, s: nat)
    requires 0 < r < ORDER && 0 < s < ORDER
    ensures DerToRs(EncodeSignature(r, s)) == Some((ToBytes(r, 32), ToBytes(s, 32)))
  {
    hide DerToRs, EncodeSignature, Contents, Value, ToBytes, LaidOut, Minimal;
    EncodingLaidOut(r, s);
    ContentsMinimal(r);
    ContentsMinimal(s);
    AcceptsLayout(EncodeSignature(r, s), Contents(r), Contents(s));
  }

  /** The two INTEGERs an accepted string is read as. */
  lemma DerParts(body: seq<Octet>) returns (c: seq<Octet>, d: seq<Octet>, mid: nat)
    requires DerToRs(body).Some?
    ensures |body| >= 8 && body[0] == 0x30 && body[1] < 0x80 && |body| == 2 + body[1]
    ensures ReadInt(body, 2) == Some((c, mid)) && ReadInt(body, mid) == Some((d, |body|))
  {
    hide ReadInt, Value, ToBytes;
    c, mid := ReadInt(body, 2).value.0, ReadInt(body, 2).value.1;
    d := ReadInt(body, mid).value.0;
  }

  lemma PartsJoined(body: seq<Octet>, c: seq<Octet>, d: seq<Octet>, mid: nat)
    requires 2 <= mid <= |body| && body[0] == 0x30 && body[1] < 0x80 && |body| == 2 + body[1]
    requires Minimal(c) && Minimal(d) && |c| < 0x80 && |d| < 0x80
    requires body[2..mid] == [0x02, |c|] + c && body[mid..|body|] == [0x02, |d|] + d
    ensures LaidOut(body, c, d)
  {
    assert body == [body[0], body[1]] + body[2..mid] + body[mid..|body|];
    assert |body| == 2 + |[0x02, |c|] + c| + |[0x02, |d|] + d|;
  }

  /** Nothing else is accepted. */
  lemma AcceptsOnlyLayout(body: seq<Octet>) returns (c: seq<Octet>, d: seq<Octet>)
    requires DerToRs(body).Some?
    ensures LaidOut(body, c, d)
  {
    hide DerToRs, ReadInt, LaidOut, Minimal;
    var mid;
    c, d, mid := DerParts(body);
    ReadIntIs(body, 2, c, mid);
    ReadIntIs(body, mid, d, |body|);
    PartsJoined(body, c, d, mid);
  }

  lemma LaidOutJoined(body: seq<Octet>, c: seq<Octet>, d: seq<Octet>)
    requires LaidOut(body, c, d)
    ensures Minimal(c) && Minimal(d)
    ensures var parts := ([0x02, |c|] + c) + ([0x02, |d|] + d); |parts| < 0x80 && body == [0x30, |parts|] + parts
  {}

  lemma LaidOutIsEncoding(body: seq<Octet>, c: seq<Octet>, d: seq<Octet>)
    requires LaidOut(body, c, d) && 0 < Value(c) < ORDER && 0 < Value(d) < ORDER
    ensures body == EncodeSignature(Value(c), Value(d))
  {
    hide Contents, Value, Minimal, LaidOut;
    LaidOutJoined(body, c, d);
    MinimalIsContents(c);
    MinimalIsContents(d);
  }

  /** Whatever is accepted is the encoding of the pair returned, and that pair is in range. */
  lemma Soundness(body: seq<Octet>) returns (r: nat, s: nat)
    requires DerToRs(body).Some?
    ensures 0 < r < ORDER && 0 < s < ORDER && body == EncodeSignature(r, s)
    ensures DerToRs(body) == Some((ToBytes(r, 32), ToBytes(s, 32)))
  {
    hide DerToRs, LaidOut, EncodeSignature, Value, ToBytes;
    var c, d := AcceptsOnlyLayout(body);
    AcceptsLayout(body, c, d);
    r, s := Value(c), Value(d);
    LaidOutIsEncoding(body, c, d);
  }

  ghost predicate IsEncoding(body: seq<Octet>, r: nat, s: nat) {
    0 < r < ORDER && 0 < s < ORDER && body == EncodeSignature(r, s)
  }

  /** A byte string is accepted exactly when it is the encoding of some pair in range. */
  lemma AcceptsEncodings(body: seq<Octet>)
    ensures DerToRs(body).Some? <==> exists r: nat, s: nat :: IsEncoding(body, r, s)
  {
    if DerToRs(body).Some? {
      var r, s := Soundness(body);
      assert IsEncoding(body, r, s);
    }
    forall r: nat, s: nat | IsEncoding(body, r, s) ensures DerToRs(body).Some? { Completeness(r, s); }
  }

  /** No pair has two encodings and no encoding two pairs. */
  lemma EncodingUnique(r: nat, s: nat, u: nat, v: nat)
    requires 0 < r < ORDER && 0 < s < ORDER && 0 < u < ORDER && 0 < v < ORDER
    ensures EncodeSignature(r, s) == EncodeSignature(u, v) <==> r == u && s == v
  {
    if EncodeSignature(r, s) == EncodeSignature(u, v) {
      Completeness(r, s);
      Completeness(u, v);
      PowersOf256();
      FixedWidth(r, 32); FixedWidth(s, 32); FixedWidth(u, 32); FixedWidth(v, 32);
    }
  }
}
