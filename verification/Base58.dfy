/** base58btc, both directions, with the loops and the leading-zero rule of the corpus checker (sections 3 and 4 of
    draft-msporny-base58-02). */
module Base58 {
  import opened Wrappers
  import opened Positional

  /** The digits, and letters without I, O and l. */
  const ALPHABET: string := "123456789" + "ABCDEFGH" + "JKLMN" + "PQRSTUVWXYZ" + "abcdefghijk" + "mnopqrstuvwxyz"

  // ----- The alphabet

  /** `ALPHABET` is six runs of consecutive characters. */
  function Letter(d: int): int
    requires 0 <= d < 58
  {
    if d < 9 then 49 + d else if d < 17 then 65 + d - 9 else if d < 22 then 74 + d - 17
    else if d < 33 then 80 + d - 22 else if d < 44 then 97 + d - 33 else 109 + d - 44
  }

  lemma AlphabetIs(d: int)
    requires 0 <= d < 58
    ensures |ALPHABET| == 58 && ALPHABET[d] as int == Letter(d)
  {
    if d < 9 { Figures(d); }
    else if d < 17 { AToH(d - 9); }
    else if d < 22 { JToN(d - 17); }
    else if d < 33 { PToZ(d - 22); }
    else if d < 44 { LowerAToK(d - 33); }
    else { LowerMToZ(d - 44); }
  }

  lemma Figures(d: int) requires 0 <= d < 9 ensures "123456789"[d] as int == 49 + d {}
  lemma AToH(d: int) requires 0 <= d < 8 ensures "ABCDEFGH"[d] as int == 65 + d {}
  lemma JToN(d: int) requires 0 <= d < 5 ensures "JKLMN"[d] as int == 74 + d {}
  lemma PToZ(d: int) requires 0 <= d < 11 ensures "PQRSTUVWXYZ"[d] as int == 80 + d {}
  lemma LowerAToK(d: int) requires 0 <= d < 11 ensures "abcdefghijk"[d] as int == 97 + d {}
  lemma LowerMToZ(d: int) requires 0 <= d < 14 ensures "mnopqrstuvwxyz"[d] as int == 109 + d {}

  function LetterAt(d: int): (c: char)
    requires 0 <= d < 58
    ensures c as int == Letter(d)
  {
    AlphabetIs(d);
    ALPHABET[d]
  }

  predicate InAlphabet(c: char) {
    var x := c as int;
    (49 <= x < 58) || (65 <= x < 73) || (74 <= x < 79) || (80 <= x < 91) || (97 <= x < 108) || (109 <= x < 123)
  }

  /** `ALPHABET.index`. */
  function Index(c: char): (d: int)
    requires InAlphabet(c)
    ensures 0 <= d < 58 && Letter(d) == c as int
  {
    var x := c as int;
    if x < 58 then x - 49 else if x < 73 then x - 56 else if x < 79 then x - 57 else if x < 91 then x - 58
    else if x < 108 then x - 64 else x - 65
  }

  /** Index and alphabet undo each other. */
  lemma IndexOfLetter(d: int)
    requires 0 <= d < 58
    ensures InAlphabet(LetterAt(d)) && Index(LetterAt(d)) == d
  {
    hide LetterAt;
  }

  lemma LetterOfIndex(c: char)
    requires InAlphabet(c)
    ensures LetterAt(Index(c)) == c
  {
    hide LetterAt;
  }

  predicate OverAlphabet(text: string) {
    forall i :: 0 <= i < |text| ==> InAlphabet(text[i])
  }

  function Indices(text: string): (ds: seq<int>)
    requires OverAlphabet(text)
    ensures |ds| == |text| && Digits(58, ds) && forall i :: 0 <= i < |ds| ==> ds[i] == Index(text[i])
  {
    if text == "" then [] else Indices(text[..|text| - 1]) + [Index(text[|text| - 1])]
  }

  function Letters(ds: seq<int>): (text: string)
    requires Digits(58, ds)
    ensures |text| == |ds| && OverAlphabet(text)
    ensures forall i :: 0 <= i < |ds| ==> text[i] == LetterAt(ds[i])
  {
    if ds == [] then ""
    else
      Letters(ds[..|ds| - 1]) + [LetterAt(ds[|ds| - 1])]
  }

  lemma LettersOfIndices(text: string)
    requires OverAlphabet(text)
    ensures Letters(Indices(text)) == text
  {
    var t := Letters(Indices(text));
    forall i | 0 <= i < |text| ensures t[i] == text[i] { LetterOfIndex(text[i]); }
  }

  lemma IndicesOfLetters(ds: seq<int>)
    requires Digits(58, ds)
    ensures Indices(Letters(ds)) == ds
  {
    var u := Indices(Letters(ds));
    forall i | 0 <= i < |ds| ensures u[i] == ds[i] { IndexOfLetter(ds[i]); }
  }

  // ----- Meaning of the two directions

  function TextValue(text: string): nat
    requires OverAlphabet(text)
  {
    FromDigitsPositive(58, Indices(text));
    FromDigits(58, Indices(text))
  }

  ghost function Encoded(data: seq<Octet>): string {
    ToDigitsIs(58, Value(data));
    Repeat('1', Leading(0, data)) + Letters(ToDigits(58, Value(data)))
  }

  ghost function Decoded(text: string): seq<Octet>
    requires OverAlphabet(text)
  {
    ToDigitsIs(256, TextValue(text));
    Repeat(0, Leading('1', text)) + Octets(ToDigits(256, TextValue(text)))
  }

  lemma TextParts(text: string)
    requires OverAlphabet(text)
    ensures var k := Leading('1', text);
            && OverAlphabet(text[k..]) && text == Repeat('1', k) + text[k..]
            && ToDigits(58, TextValue(text)) == Indices(text[k..])
  {
    hide ToDigits, FromDigits, Index;
    var k := Leading('1', text);
    var rest := text[k..];
    var ds := Indices(rest);
    assert text == Repeat('1', k) + rest;
    OnesAreZeros(text, k);
    LeadingZerosWorthless(58, k, ds);
    if |rest| > 0 { NotOne(rest[0]); }
    ToDigitsOfValue(58, ds);
  }

  lemma OnesAreZeros(text: string, k: nat)
    requires OverAlphabet(text) && k <= |text| && text[..k] == Repeat('1', k)
    ensures OverAlphabet(text[k..]) && Indices(text) == Repeat(0, k) + Indices(text[k..])
  {
    OneInAlphabet();
    hide Index, Indices;
    var rest, w := text[k..], Indices(text);
    var u := Repeat(0, k) + Indices(rest);
    forall i | 0 <= i < |text| ensures w[i] == u[i] {
      if i < k {
        assert text[i] == text[..k][i];
      } else {
        assert u[i] == Indices(rest)[i - k] && rest[i - k] == text[i];
      }
    }
  }

  lemma NotOne(c: char)
    requires InAlphabet(c) && c != '1'
    ensures Index(c) > 0
  {}

  lemma DataParts(data: seq<Octet>)
    ensures var k := Leading(0, data);
            data == Repeat(0, k) + data[k..] && ToDigits(256, Value(data)) == data[k..]
  {
    hide ToDigits, FromDigits, Leading, Repeat;
    var k := Leading(0, data);
    assert data == Repeat(0, k) + data[k..];
    ZeroOctets(k, data[k..]);
    ToDigitsOfValue(256, data[k..]);
    FromDigitsPositive(256, data);
  }

  /** Leading zeros before the digits of a value do not change it. */
  lemma PaddedValue(k: nat, v: nat)
    ensures Digits(256, ToDigits(256, v))
    ensures var data := Repeat(0, k) + Octets(ToDigits(256, v)); Leading(0, data) == k && Value(data) == v
  {
    hide ToDigits, FromDigits, Leading;
    ToDigitsIs(256, v);
    ToDigitsNone(256);
    var body := ToDigits(256, v);
    assert Octets(body) == body;
    LeadingOf(0, k, Octets(body));
    ZeroOctets(k, Octets(body));
    FromDigitsPositive(256, Repeat(0, k) + Octets(body));
  }

  lemma PaddedText(k: nat, v: nat)
    ensures Digits(58, ToDigits(58, v))
    ensures var text := Repeat('1', k) + Letters(ToDigits(58, v));
            OverAlphabet(text) && Leading('1', text) == k && TextValue(text) == v
  {
    ToDigitsIs(58, v);
    ToDigitsNone(58);
    hide ToDigits, FromDigits, Leading, Letters, Indices, InAlphabet, Index;
    var body := ToDigits(58, v);
    var t := Letters(body);
    var text := Repeat('1', k) + t;
    assert OverAlphabet(text) by { OneInAlphabet(); }
    if |body| > 0 { assert t[0] as int == Letter(body[0]); NotTheOne(t[0], body[0]); }
    LeadingOf('1', k, t);
    assert text[..k] == Repeat('1', k) && text[k..] == t;
    OnesAreZeros(text, k);
    IndicesOfLetters(body);
    LeadingZerosWorthless(58, k, body);
  }

  lemma OneInAlphabet()
    ensures InAlphabet('1') && Index('1') == 0
  {}

  lemma NotTheOne(c: char, d: int)
    requires 0 < d < 58 && c as int == Letter(d)
    ensures c != '1'
  {}

  /** A non-empty text over the alphabet decodes to bytes that encode to it. */
  lemma EncodeOfDecode(text: string)
    requires text != "" && OverAlphabet(text)
    ensures Decoded(text) != [] && Encoded(Decoded(text)) == text
  {
    hide ToDigits, FromDigits, Leading, Letters, Indices, InAlphabet, Value, TextValue;
    var k, v := Leading('1', text), TextValue(text);
    TextParts(text);
    PaddedValue(k, v);
    LettersOfIndices(text[k..]);
    ToDigitsNone(58);
    ToDigitsIs(256, v);
  }

  /** Non-empty bytes encode to a text over the alphabet that decodes to them. */
  lemma DecodeOfEncode(data: seq<Octet>)
    requires data != []
    ensures Encoded(data) != "" && OverAlphabet(Encoded(data)) && Decoded(Encoded(data)) == data
  {
    hide ToDigits, FromDigits, Leading, Letters, Indices, InAlphabet, Value, TextValue;
    var k, v := Leading(0, data), Value(data);
    DataParts(data);
    PaddedText(k, v);
    ToDigitsNone(256);
    ToDigitsIs(58, v);
    assert Octets(data[k..]) == data[k..];
  }

  /** What decoding means: the bytes have the value of the text, in base 58, and as many leading zeros as it has
      ones. */
  lemma DecodedIs(text: string)
    requires OverAlphabet(text)
    ensures Value(Decoded(text)) == TextValue(text) && Leading(0, Decoded(text)) == Leading('1', text)
  {
    hide ToDigits, FromDigits, Leading, Value, TextValue;
    PaddedValue(Leading('1', text), TextValue(text));
  }

  /** And encoding. */
  lemma EncodedIs(data: seq<Octet>)
    ensures OverAlphabet(Encoded(data))
    ensures TextValue(Encoded(data)) == Value(data) && Leading('1', Encoded(data)) == Leading(0, data)
  {
    hide ToDigits, FromDigits, Leading, Value, TextValue, InAlphabet;
    PaddedText(Leading(0, data), Value(data));
  }

  /** The value of a text, a letter at a time: a letter counts for its place in the alphabet. */
  lemma TextValueIs(text: string, d: int)
    requires OverAlphabet(text) && 0 <= d < |ALPHABET|
    ensures TextValue("") == 0
    ensures OverAlphabet(text + [ALPHABET[d]]) && TextValue(text + [ALPHABET[d]]) == 58 * TextValue(text) + d
  {
    AlphabetIs(0);
    assert LetterAt(d) == ALPHABET[d];
    IndexOfLetter(d);
    NoText();
    hide Index, InAlphabet, LetterAt, TextValue;
    var t := text + [ALPHABET[d]];
    assert t[..|text|] == text && t[..|text| + 1] == t;
    TextValueStep(t, |text|);
  }

  /** The value of bytes, a byte at a time, the first the most significant. */
  lemma ValueIs(data: seq<Octet>, b: Octet)
    ensures Value([]) == 0 && Value(data + [b]) == 256 * Value(data) + b
  {
    assert (data + [b])[..|data|] == data;
  }

  // ----- The loops

  lemma Body(v: nat)
    ensures Digits(256, ToDigits(256, v))
    ensures Octets(ToDigits(256, v)) == if v == 0 then [] else ToBytes(v, (BitLength(v) + 7) / 8)
  {
    ToDigitsIs(256, v);
    BytesNeeded(v);
    ToBytesIs(v);
    assert Octets(ToDigits(256, v)) == ToDigits(256, v);
  }

  lemma TextValueStep(text: string, i: nat)
    requires i < |text| && OverAlphabet(text)
    ensures TextValue(text[..i + 1]) == TextValue(text[..i]) * 58 + Index(text[i])
  {
    assert text[..i + 1][..i] == text[..i];
  }

  lemma NoText()
    ensures TextValue("") == 0
  {}

  /** `base58_decode`; None is the failed check. */
  method Decode(text: string) returns (r: Option<seq<Octet>>)
    ensures r == if text != "" && OverAlphabet(text) then Some(Decoded(text)) else None
  {
    hide Index, InAlphabet, TextValue, ToDigits, Octets, BitLength, ToBytes, Leading;
    if text == "" { return None; }
    for i := 0 to |text|
      invariant OverAlphabet(text[..i])
    {
      if !InAlphabet(text[i]) { return None; }
    }
    assert text[..|text|] == text;
    var value: nat := 0;
    NoText();
    for i := 0 to |text|
      invariant value == TextValue(text[..i])
    {
      TextValueStep(text, i);
      value := value * 58 + Index(text[i]);
    }
    assert text[..|text|] == text;
    var body := if value == 0 then [] else ToBytes(value, (BitLength(value) + 7) / 8);
    Body(value);
    return Some(Repeat(0, Leading('1', text)) + body);
  }

  /** `base58_encode`. */
  method Encode(data: seq<Octet>) returns (text: string)
    ensures text == Encoded(data)
  {
    hide ToDigits, Letters, LetterAt, Value, Leading;
    var value := Value(data);
    var encoded := "";
    ToDigitsNone(58);
    ToDigitsIs(58, value);
    NoLetters();
    while value > 0
      invariant Digits(58, ToDigits(58, value))
      invariant Letters(ToDigits(58, value)) + encoded == Letters(ToDigits(58, Value(data)))
    {
      var digit := value % 58;
      ToDigitsStep(value);
      ToDigitsIs(58, value / 58);
      LettersPrepend(ToDigits(58, value / 58), digit, encoded);
      value := value / 58;
      encoded := [LetterAt(digit)] + encoded;
    }
    return Repeat('1', Leading(0, data)) + encoded;
  }

  lemma NoLetters()
    ensures Letters([]) == ""
  {}

  lemma LettersSnoc(ds: seq<int>, d: int)
    requires Digits(58, ds) && 0 <= d < 58
    ensures Letters(ds + [d]) == Letters(ds) + [LetterAt(d)]
  {
    assert (ds + [d])[..|ds|] == ds;
  }

  lemma ToDigitsStep(v: nat)
    requires v > 0
    ensures ToDigits(58, v) == ToDigits(58, v / 58) + [v % 58]
  {}

  lemma LettersPrepend(ds: seq<int>, d: int, encoded: string)
    requires Digits(58, ds) && 0 <= d < 58
    ensures Digits(58, ds + [d]) && Letters(ds + [d]) + encoded == Letters(ds) + ([LetterAt(d)] + encoded)
  {
    hide Letters, LetterAt;
    LettersSnoc(ds, d);
  }
}
