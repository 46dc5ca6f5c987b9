/** Walking a well-formed byte string one code point at a time, by skipping continuation bytes. */
module Boundaries {
  import opened Utf8

  lemma PreviousScalar(t: seq<Scalar>, k: nat) returns (j: nat)
    requires k <= |t| && Offset(t, k) > 0
    ensures k > 0 && j == k - 1 && Offset(t, j) < Offset(t, k)
  {
    OffsetEnds(t);
    j := k - 1;
    OffsetMonotone(t, j, k);
  }

  /** Back from the end of scalar `k` to its start. */
  method LeadBefore(p: seq<Byte>, end: nat, ghost t: seq<Scalar>, ghost k: nat) returns (start: nat)
    requires p == EncodeAll(t) && k < |t| && end == Offset(t, k + 1)
    ensures start == Offset(t, k) < end <= |p|
  {
    OffsetMonotone(t, k, k + 1);
    hide IsCont, Offset;
    start := end - 1;
    while start > 0 && IsCont(p[start])
      invariant Offset(t, k) <= start < end
    {
      OffsetInterior(t, k, start);
      start := start - 1;
    }
    OffsetInterior(t, k, start);
  }

  /** Forward from the start of scalar `k` to its end. */
  method LeadAfter(p: seq<Byte>, start: nat, ghost t: seq<Scalar>, ghost k: nat) returns (end: nat)
    requires p == EncodeAll(t) && k < |t| && start == Offset(t, k)
    ensures start < end == Offset(t, k + 1) <= |p|
  {
    OffsetMonotone(t, k, k + 1);
    OffsetIsBoundary(t, k + 1);
    hide IsCont, Offset;
    end := start + 1;
    while end < |p| && IsCont(p[end])
      invariant start < end <= Offset(t, k + 1)
    {
      if end == Offset(t, k + 1) { assert false; }
      end := end + 1;
    }
    if end < Offset(t, k + 1) { OffsetInterior(t, k, end); }
  }
}
