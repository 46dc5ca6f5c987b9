/** The runtime's word-at-a-time steps: eight bytes loaded as one 64-bit word and tested by operations whose
    carries never cross a byte lane. */
module Words {
  import opened Utf8

  const ONES: bv64 := 0x0101010101010101
  const LOW7: bv64 := 0x7F7F7F7F7F7F7F7F
  const HIGH: bv64 := 0x8080808080808080

  /** The little-endian word `w` holds the bytes `p[i..i + 8]`. */
  predicate Holds(w: bv64, p: seq<Byte>, i: nat)
    requires i + 8 <= |p|
  {
    && ((w >> 0) & 0xFF) as Byte == p[i] && ((w >> 8) & 0xFF) as Byte == p[i + 1]
    && ((w >> 16) & 0xFF) as Byte == p[i + 2] && ((w >> 24) & 0xFF) as Byte == p[i + 3]
    && ((w >> 32) & 0xFF) as Byte == p[i + 4] && ((w >> 40) & 0xFF) as Byte == p[i + 5]
    && ((w >> 48) & 0xFF) as Byte == p[i + 6] && ((w >> 56) & 0xFF) as Byte == p[i + 7]
  }

  /** `memcpy(&w, p + i, 8)`. */
  method Load(p: seq<Byte>, i: nat) returns (w: bv64)
    requires i + 8 <= |p|
    ensures Holds(w, p, i)
  {
    w := (p[i] as bv64) | (p[i + 1] as bv64 << 8) | (p[i + 2] as bv64 << 16) | (p[i + 3] as bv64 << 24)
         | (p[i + 4] as bv64 << 32) | (p[i + 5] as bv64 << 40) | (p[i + 6] as bv64 << 48) | (p[i + 7] as bv64 << 56);
  }

  // ----- Counting continuation bytes

  /** Bit 7 of exactly the lanes that hold a continuation byte. */
  function ContinuationFlags(w: bv64): bv64 {
    (w & !(w << 1)) & HIGH
  }

  /** How many of the eight flags are set, the total gathered in bits 56 to 63. */
  function SumFlags(flags: bv64): Byte {
    (((flags >> 7) * ONES) >> 56) as Byte
  }

  function Bit(c: bool): Byte {
    if c then 1 else 0
  }

  function Count(c: bool): nat {
    if c then 1 else 0
  }

  /** One flag bit at the foot of each lane, and nothing else. */
  lemma FlagsOf(w: bv64)
    ensures var f := ContinuationFlags(w) >> 7;
            && f & 0xFEFEFEFEFEFEFEFE == 0
            && ((f >> 0) & 0xFF) as Byte == Bit(IsCont(((w >> 0) & 0xFF) as Byte))
            && ((f >> 8) & 0xFF) as Byte == Bit(IsCont(((w >> 8) & 0xFF) as Byte))
            && ((f >> 16) & 0xFF) as Byte == Bit(IsCont(((w >> 16) & 0xFF) as Byte))
            && ((f >> 24) & 0xFF) as Byte == Bit(IsCont(((w >> 24) & 0xFF) as Byte))
            && ((f >> 32) & 0xFF) as Byte == Bit(IsCont(((w >> 32) & 0xFF) as Byte))
            && ((f >> 40) & 0xFF) as Byte == Bit(IsCont(((w >> 40) & 0xFF) as Byte))
            && ((f >> 48) & 0xFF) as Byte == Bit(IsCont(((w >> 48) & 0xFF) as Byte))
            && ((f >> 56) & 0xFF) as Byte == Bit(IsCont(((w >> 56) & 0xFF) as Byte))
  {}

  lemma FlagsSum(f: bv64)
    requires f & 0xFEFEFEFEFEFEFEFE == 0
    ensures ((f * ONES) >> 56) as Byte
         == ((f >> 0) & 0xFF) as Byte + ((f >> 8) & 0xFF) as Byte
          + ((f >> 16) & 0xFF) as Byte + ((f >> 24) & 0xFF) as Byte
          + ((f >> 32) & 0xFF) as Byte + ((f >> 40) & 0xFF) as Byte
          + ((f >> 48) & 0xFF) as Byte + ((f >> 56) & 0xFF) as Byte
  {}

  function BitSum(c0: bool, c1: bool, c2: bool, c3: bool, c4: bool, c5: bool, c6: bool, c7: bool): Byte {
    Bit(c0) + Bit(c1) + Bit(c2) + Bit(c3) + Bit(c4) + Bit(c5) + Bit(c6) + Bit(c7)
  }

  /** `x` is the byte for the small number `n`. */
  predicate Represents(x: Byte, n: nat) {
    || (n == 0 && x == 0) || (n == 1 && x == 1) || (n == 2 && x == 2) || (n == 3 && x == 3) || (n == 4 && x == 4)
    || (n == 5 && x == 5) || (n == 6 && x == 6) || (n == 7 && x == 7) || (n == 8 && x == 8)
  }

  lemma RepresentedValue(x: Byte, n: nat)
    requires Represents(x, n)
    ensures x as int == n
  {}

  lemma BitSumRepresents(c0: bool, c1: bool, c2: bool, c3: bool, c4: bool, c5: bool, c6: bool, c7: bool)
    ensures Represents(BitSum(c0, c1, c2, c3, c4, c5, c6, c7),
                       Count(c0) + Count(c1) + Count(c2) + Count(c3) + Count(c4) + Count(c5) + Count(c6) + Count(c7))
  {}

  function ContCount(p: seq<Byte>, i: nat): nat
    requires i + 8 <= |p|
  {
    Count(IsCont(p[i])) + Count(IsCont(p[i + 1])) + Count(IsCont(p[i + 2])) + Count(IsCont(p[i + 3]))
    + Count(IsCont(p[i + 4])) + Count(IsCont(p[i + 5])) + Count(IsCont(p[i + 6])) + Count(IsCont(p[i + 7]))
  }

  /** The sum of the flags of one word: how many of its bytes are continuation bytes. */
  method ContinuationSum(p: seq<Byte>, i: nat) returns (sum: Byte)
    requires i + 8 <= |p|
    ensures sum == BitSum(IsCont(p[i]), IsCont(p[i + 1]), IsCont(p[i + 2]), IsCont(p[i + 3]),
                          IsCont(p[i + 4]), IsCont(p[i + 5]), IsCont(p[i + 6]), IsCont(p[i + 7]))
  {
    var w := Load(p, i);
    var cont := ContinuationFlags(w);
    FlagsOf(w);
    FlagsSum(cont >> 7);
    sum := SumFlags(cont);
  }

  lemma BitSumIsContCount(sum: Byte, p: seq<Byte>, i: nat,
                          c0: bool, c1: bool, c2: bool, c3: bool, c4: bool, c5: bool, c6: bool, c7: bool)
    requires i + 8 <= |p| && sum == BitSum(c0, c1, c2, c3, c4, c5, c6, c7)
    requires c0 == IsCont(p[i]) && c1 == IsCont(p[i + 1]) && c2 == IsCont(p[i + 2]) && c3 == IsCont(p[i + 3])
    requires c4 == IsCont(p[i + 4]) && c5 == IsCont(p[i + 5]) && c6 == IsCont(p[i + 6]) && c7 == IsCont(p[i + 7])
    ensures Represents(sum, ContCount(p, i))
  {
    BitSumRepresents(c0, c1, c2, c3, c4, c5, c6, c7);
  }

  lemma SumIsContCount(sum: Byte, p: seq<Byte>, i: nat)
    requires i + 8 <= |p|
    requires sum == BitSum(IsCont(p[i]), IsCont(p[i + 1]), IsCont(p[i + 2]), IsCont(p[i + 3]),
                           IsCont(p[i + 4]), IsCont(p[i + 5]), IsCont(p[i + 6]), IsCont(p[i + 7]))
    ensures Represents(sum, ContCount(p, i))
  {
    BitSumIsContCount(sum, p, i, IsCont(p[i]), IsCont(p[i + 1]), IsCont(p[i + 2]), IsCont(p[i + 3]),
                      IsCont(p[i + 4]), IsCont(p[i + 5]), IsCont(p[i + 6]), IsCont(p[i + 7]));
  }

  lemma LeadCountStep(p: seq<Byte>, i: nat)
    requires i < |p|
    ensures LeadCount(p[..i + 1]) == LeadCount(p[..i]) + Count(!IsCont(p[i]))
  {
    assert p[..i + 1][..i] == p[..i];
  }

  lemma LeadCountEight(p: seq<Byte>, i: nat)
    requires i + 8 <= |p|
    ensures LeadCount(p[..i + 8]) == LeadCount(p[..i]) + 8 - ContCount(p, i)
  {
    LeadCountStep(p, i); LeadCountStep(p, i + 1); LeadCountStep(p, i + 2); LeadCountStep(p, i + 3);
    LeadCountStep(p, i + 4); LeadCountStep(p, i + 5); LeadCountStep(p, i + 6); LeadCountStep(p, i + 7);
  }

  method CountCodepoints(p: seq<Byte>, n: nat) returns (c: int)
    requires n <= |p|
    ensures c == LeadCount(p[..n])
  {
    var i := 0;
    c := 0;
    while i + 8 <= n
      invariant 0 <= i <= n && c == LeadCount(p[..i])
    {
      var conts := ContinuationSum(p, i);
      SumIsContCount(conts, p, i);
      RepresentedValue(conts, ContCount(p, i));
      LeadCountEight(p, i);
      c := c + 8 - conts as int;
      i := i + 8;
    }
    while i < n
      invariant 0 <= i <= n && c == LeadCount(p[..i])
    {
      LeadCountStep(p, i);
      if !IsCont(p[i]) { c := c + 1; }
      i := i + 1;
    }
  }

  // ----- An all-ASCII word

  lemma AsciiWord(w: bv64, p: seq<Byte>, i: nat)
    requires i + 8 <= |p| && Holds(w, p, i) && w & HIGH == 0
    ensures forall k :: i <= k < i + 8 ==> p[k] < 0x80
  {
    AsciiLanes(w);
  }

  lemma AsciiLanes(w: bv64)
    requires w & HIGH == 0
    ensures ((w >> 0) & 0xFF) as Byte < 0x80 && ((w >> 8) & 0xFF) as Byte < 0x80
    ensures ((w >> 16) & 0xFF) as Byte < 0x80 && ((w >> 24) & 0xFF) as Byte < 0x80
    ensures ((w >> 32) & 0xFF) as Byte < 0x80 && ((w >> 40) & 0xFF) as Byte < 0x80
    ensures ((w >> 48) & 0xFF) as Byte < 0x80 && ((w >> 56) & 0xFF) as Byte < 0x80
  {}

  // ----- Rejecting eight candidate starts at once

  /** Bit 7 of exactly the lanes that are zero. */
  function ZeroLanes(x: bv64): bv64 {
    !(((x & LOW7) + LOW7) | x | LOW7)
  }

  function Spread(b: Byte): bv64 {
    b as bv64 * ONES
  }

  lemma LowLanes(w: bv64, u: bv64, f: Byte, l: Byte)
    requires ZeroLanes(w ^ Spread(f)) & ZeroLanes(u ^ Spread(l)) == 0
    ensures ((w >> 0) & 0xFF) as Byte == f ==> ((u >> 0) & 0xFF) as Byte != l
    ensures ((w >> 8) & 0xFF) as Byte == f ==> ((u >> 8) & 0xFF) as Byte != l
    ensures ((w >> 16) & 0xFF) as Byte == f ==> ((u >> 16) & 0xFF) as Byte != l
    ensures ((w >> 24) & 0xFF) as Byte == f ==> ((u >> 24) & 0xFF) as Byte != l
  {}

  lemma HighLanes(w: bv64, u: bv64, f: Byte, l: Byte)
    requires ZeroLanes(w ^ Spread(f)) & ZeroLanes(u ^ Spread(l)) == 0
    ensures ((w >> 32) & 0xFF) as Byte == f ==> ((u >> 32) & 0xFF) as Byte != l
    ensures ((w >> 40) & 0xFF) as Byte == f ==> ((u >> 40) & 0xFF) as Byte != l
    ensures ((w >> 48) & 0xFF) as Byte == f ==> ((u >> 48) & 0xFF) as Byte != l
    ensures ((w >> 56) & 0xFF) as Byte == f ==> ((u >> 56) & 0xFF) as Byte != l
  {}

  predicate Rejected(a: Byte, z: Byte, f: Byte, l: Byte) {
    a != f || z != l
  }

  /** When the two lane masks share no flag, no start in the block has both its first and its last byte right. */
  lemma BlockRejected(w: bv64, u: bv64, p: seq<Byte>, b: nat, z: nat, first: Byte, last: Byte)
    requires b <= z && z + 8 <= |p| && Holds(w, p, b) && Holds(u, p, z)
    requires ZeroLanes(w ^ Spread(first)) & ZeroLanes(u ^ Spread(last)) == 0
    ensures forall k :: b <= k < b + 8 ==> Rejected(p[k], p[k + (z - b)], first, last)
  {
    LowLanes(w, u, first, last);
    HighLanes(w, u, first, last);
    forall k | b <= k < b + 8 ensures Rejected(p[k], p[k + (z - b)], first, last) {
      assert k == b || k == b + 1 || k == b + 2 || k == b + 3 || k == b + 4 || k == b + 5 || k == b + 6 || k == b + 7;
    }
  }
}
