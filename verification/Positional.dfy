/** Big-endian positional numbers, leading zeros, and Python's byte conversions of integers. */
module Positional {
  type Octet = x: int | 0 <= x < 256

  predicate Base(base: nat) {
    base == 58 || base == 256
  }

  predicate Digits(base: int, ds: seq<int>) {
    forall i :: 0 <= i < |ds| ==> 0 <= ds[i] < base
  }

  /** The value of big-endian digits. */
  function FromDigits(base: nat, ds: seq<int>): int {
    if ds == [] then 0 else FromDigits(base, ds[..|ds| - 1]) * base + ds[|ds| - 1]
  }

  /** The digits of a value, none for 0. */
  function ToDigits(base: nat, v: nat): (ds: seq<int>)
    requires Base(base)
  {
    if v == 0 then [] else ToDigits(base, v / base) + [v % base]
  }

  lemma {:induction false} ToDigitsIs(base: nat, v: nat)
    requires Base(base)
    ensures var ds := ToDigits(base, v);
            Digits(base, ds) && FromDigits(base, ds) == v && (v > 0 ==> |ds| > 0 && ds[0] > 0)
  {
    if v > 0 {
      hide ToDigits, FromDigits;
      var q, d := LastDigit(base, v);
      ToDigitsIs(base, q);
      DigitsSnoc(base, ToDigits(base, q), d);
      if q == 0 { ToDigitsNone(base); }
    }
  }

  /** The last digit and what is left of the value without it. */
  lemma LastDigit(base: nat, v: nat) returns (q: nat, d: nat)
    requires Base(base) && v > 0
    ensures ToDigits(base, v) == ToDigits(base, q) + [d]
    ensures q < v && d < base && v == q * base + d && (q == 0 ==> d > 0)
  {
    if base == 58 { q, d := v / 58, v % 58; } else { q, d := v / 256, v % 256; }
  }

  lemma DigitsSnoc(base: nat, ds: seq<int>, d: int)
    requires Digits(base, ds) && 0 <= d < base
    ensures Digits(base, ds + [d]) && FromDigits(base, ds + [d]) == FromDigits(base, ds) * base + d
  {
    assert (ds + [d])[..|ds|] == ds;
  }

  lemma {:induction false} FromDigitsPositive(base: nat, ds: seq<int>)
    requires Base(base) && Digits(base, ds)
    ensures FromDigits(base, ds) >= 0
    ensures |ds| > 0 && ds[0] > 0 ==> FromDigits(base, ds) > 0
  {
    if |ds| > 0 {
      FromDigitsPositive(base, ds[..|ds| - 1]);
      assert FromDigits(base, ds[..|ds| - 1]) * base >= 0;
    }
  }

  /** Digits without leading zeros are the digits of their value. */
  lemma {:induction false} ToDigitsOfValue(base: nat, ds: seq<int>)
    requires Base(base) && Digits(base, ds) && (|ds| > 0 ==> ds[0] > 0)
    ensures FromDigits(base, ds) >= 0 && ToDigits(base, FromDigits(base, ds)) == ds
  {
    FromDigitsPositive(base, ds);
    if |ds| > 0 {
      var init, last := ds[..|ds| - 1], ds[|ds| - 1];
      ToDigitsOfValue(base, init);
      var v := FromDigits(base, init);
      DivModOf(v, base, last);
      assert ds == init + [last];
    }
  }

  lemma DivModOf(v: nat, base: nat, d: int)
    requires Base(base) && 0 <= d < base
    ensures (v * base + d) / base == v && (v * base + d) % base == d
  {
    if base == 58 { assert (v * 58 + d) / 58 == v; } else { assert (v * 256 + d) / 256 == v; }
  }

  function Repeat<T>(x: T, n: nat): (s: seq<T>)
    ensures |s| == n && forall i :: 0 <= i < n ==> s[i] == x
  {
    seq(n, _ => x)
  }

  /** `len(s) - len(s.lstrip(x))`. */
  function Leading<T(==)>(x: T, s: seq<T>): (k: nat)
    ensures k <= |s| && s[..k] == Repeat(x, k) && (k < |s| ==> s[k] != x)
  {
    if s == [] || s[0] != x then 0 else 1 + Leading(x, s[1..])
  }

  lemma {:induction false} LeadingOf<T>(x: T, k: nat, rest: seq<T>)
    requires |rest| > 0 ==> rest[0] != x
    ensures Leading(x, Repeat(x, k) + rest) == k
  {
    var s := Repeat(x, k) + rest;
    if k == 0 {
      assert s == rest;
    } else {
      assert s[1..] == Repeat(x, k - 1) + rest;
      LeadingOf(x, k - 1, rest);
    }
  }

  lemma {:induction false} LeadingZerosWorthless(base: nat, k: nat, ds: seq<int>)
    ensures FromDigits(base, Repeat(0, k) + ds) == FromDigits(base, ds)
  {
    if ds == [] {
      if k > 0 {
        LeadingZerosWorthless(base, k - 1, []);
        var z := Repeat(0, k) + [];
        assert z[..|z| - 1] == Repeat(0, k - 1) + [];
      }
    } else {
      var s := Repeat(0, k) + ds;
      LeadingZerosWorthless(base, k, ds[..|ds| - 1]);
      assert s[..|s| - 1] == Repeat(0, k) + ds[..|ds| - 1];
    }
  }

  function Octets(ds: seq<int>): (bs: seq<Octet>)
    requires Digits(256, ds)
    ensures |bs| == |ds| && forall i :: 0 <= i < |ds| ==> bs[i] == ds[i]
  {
    seq(|ds|, i requires 0 <= i < |ds| => ds[i])
  }

  /** `int.from_bytes(bs, "big")`. */
  function Value(bs: seq<Octet>): nat {
    FromDigitsPositive(256, bs);
    FromDigits(256, bs)
  }

  lemma ZeroOctets(k: nat, bs: seq<Octet>)
    ensures FromDigits(256, Repeat<Octet>(0, k) + bs) == FromDigits(256, bs)
  {
    LeadingZerosWorthless(256, k, bs);
    assert Repeat<Octet>(0, k) + bs == Repeat<int>(0, k) + bs;
  }

  lemma ToDigitsNone(base: nat)
    requires Base(base)
    ensures ToDigits(base, 0) == []
  {}

  // ----- Python's integers and bytes

  function BitLength(v: nat): nat {
    if v == 0 then 0 else 1 + BitLength(v / 2)
  }

  lemma BitLengthByte(v: nat)
    ensures v >= 256 ==> BitLength(v) == 8 + BitLength(v / 256) && v / 256 > 0
    ensures 0 < v < 256 ==> 1 <= BitLength(v) <= 8
  {
    var a := v / 2; var b := a / 2; var c := b / 2; var d := c / 2; var e := d / 2; var f := e / 2; var g := f / 2;
    assert g / 2 == v / 256;
    assert BitLength(v) == if v == 0 then 0 else 1 + BitLength(a);
    assert BitLength(a) == if a == 0 then 0 else 1 + BitLength(b);
    assert BitLength(b) == if b == 0 then 0 else 1 + BitLength(c);
    assert BitLength(c) == if c == 0 then 0 else 1 + BitLength(d);
    assert BitLength(d) == if d == 0 then 0 else 1 + BitLength(e);
    assert BitLength(e) == if e == 0 then 0 else 1 + BitLength(f);
    assert BitLength(f) == if f == 0 then 0 else 1 + BitLength(g);
    assert BitLength(g) == if g == 0 then 0 else 1 + BitLength(g / 2);
  }

  /** `(bit_length + 7) // 8` bytes are exactly enough. */
  lemma {:induction false} BytesNeeded(v: nat)
    ensures |ToDigits(256, v)| == (BitLength(v) + 7) / 8
  {
    BitLengthByte(v);
    if v > 0 {
      BytesNeeded(v / 256);
      if v < 256 { assert v / 256 == 0; }
    }
  }

  /** `value.to_bytes(n, "big")`. */
  function ToBytes(v: nat, n: nat): seq<Octet> {
    if n == 0 then [] else ToBytes(v / 256, n - 1) + [v % 256]
  }

  lemma {:induction false} ToBytesIs(v: nat)
    ensures ToBytes(v, |ToDigits(256, v)|) == ToDigits(256, v)
  {
    if v > 0 { ToBytesIs(v / 256); }
  }
}
