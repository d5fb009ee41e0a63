/** Results that may be absent, and results that may be an error. */
module Options {
  datatype Option<+T> = None | Some(value: T)

  datatype Result<+T, +E> = Success(value: T) | Failure(error: E)
}

/**
 * Subcarrier allocation of an OFDM symbol: an array of M byte codes, one per
 * subcarrier, each saying whether the subcarrier is unused (null), carries a
 * known pilot value, or carries data.
 */
module SubcarrierAllocation {
  import opened Options

  /** An `unsigned char`. */
  newtype byte = x: int | 0 <= x < 256

  /** The width of `unsigned int`: counts are returned through `unsigned int *`. */
  const U32: nat := 0x1_0000_0000

  /** The three kinds of subcarrier (printed as '.', 'P' and '+'). */
  datatype Tag = Null | Pilot | Data

  /** The byte code stored in the allocation array for each kind. */
  function Code(t: Tag): (b: byte)
    ensures Decode(b) == Some(t)
  {
    match t
    case Null => 0
    case Pilot => 1
    case Data => 2
  }

  /** The kind a stored byte denotes, if it denotes one. */
  function Decode(b: byte): Option<Tag>
  {
    if b == 0 then Some(Null)
    else if b == 1 then Some(Pilot)
    else if b == 2 then Some(Data)
    else None
  }

  predicate IsTagCode(b: byte)
  {
    Decode(b).Some?
  }

  lemma DecodeInjective(b: byte, t: Tag)
    requires Decode(b) == Some(t)
    ensures Code(t) == b
  {
  }

  /** The byte array written for a sequence of kinds. */
  function Encoded(ts: seq<Tag>): (s: seq<byte>)
    ensures |s| == |ts|
    ensures forall i :: 0 <= i < |s| ==> Decode(s[i]) == Some(ts[i])
  {
    seq(|ts|, i requires 0 <= i < |ts| => Code(ts[i]))
  }

  /** The three tallies of an allocation (`M_null`, `M_pilot`, `M_data`). */
  datatype Counts = Counts(mNull: nat, mPilot: nat, mData: nat)

  /** Reference definition of the tallies: the multiplicity of each code. */
  function Census(s: seq<byte>): Counts
  {
    Counts(multiset(s)[Code(Null)], multiset(s)[Code(Pilot)], multiset(s)[Code(Data)])
  }

  /**
   * What validation of an allocation yields: the three tallies when every
   * entry is a subcarrier code, nothing otherwise.
   */
  function Validate(s: seq<byte>): (r: Option<Counts>)
    ensures r.Some? <==> forall i :: 0 <= i < |s| ==> IsTagCode(s[i])
    ensures r.Some? ==> r.value.mNull + r.value.mPilot + r.value.mData == |s|
    ensures r.Some? ==> r.value.mNull <= |s| && r.value.mPilot <= |s| && r.value.mData <= |s|
  {
    if forall i :: 0 <= i < |s| ==> IsTagCode(s[i]) then
      CensusSum(s);
      Some(Census(s))
    else
      None
  }

  /** When every entry is a subcarrier code, the three tallies reconcile to the length. */
  lemma {:induction false} CensusSum(s: seq<byte>)
    requires forall i :: 0 <= i < |s| ==> IsTagCode(s[i])
    ensures Census(s).mNull + Census(s).mPilot + Census(s).mData == |s|
  {
    if s != [] {
      var init, last := s[..|s| - 1], s[|s| - 1];
      assert s == init + [last];
      assert multiset(s) == multiset(init) + multiset{last};
      CensusSum(init);
    }
  }

  /** Tallies fit the `unsigned int` outputs whenever the subcarrier count does. */
  lemma CountsFitUnsigned(s: seq<byte>)
    requires |s| < U32
    requires Validate(s).Some?
    ensures Validate(s).value.mNull < U32
    ensures Validate(s).value.mPilot < U32
    ensures Validate(s).value.mData < U32
  {
  }

  /**
   * Tallies the first M entries of `p` (which it only reads); an entry that is
   * not a subcarrier code makes the allocation invalid.
   */
  method ValidateSctype(p: array<byte>, M: nat) returns (r: Option<Counts>)
    requires M <= p.Length
    ensures r == Validate(p[..M])
  {
    var mNull, mPilot, mData := 0, 0, 0;
    var i := 0;
    while i < M
      invariant 0 <= i <= M
      invariant forall k :: 0 <= k < i ==> IsTagCode(p[k])
      invariant Census(p[..i]) == Counts(mNull, mPilot, mData)
    {
      assert p[..i + 1] == p[..i] + [p[i]];
      if p[i] == Code(Null) {
        mNull := mNull + 1;
      } else if p[i] == Code(Pilot) {
        mPilot := mPilot + 1;
      } else if p[i] == Code(Data) {
        mData := mData + 1;
      } else {
        assert !IsTagCode(p[..M][i]);
        return None;
      }
      i := i + 1;
    }
    assert p[..i] == p[..M];
    r := Some(Counts(mNull, mPilot, mData));
  }

  // ---------------------------------------------------------------------------
  // Default allocation

  /** Guard band: a tenth of the subcarriers, at least two. */
  function GuardWidth(M: nat): nat
  {
    if M / 10 < 2 then 2 else M / 10
  }

  /** Pilot spacing: every eighth active subcarrier above 34 subcarriers, else every fourth. */
  function PilotSpacing(M: nat): (P: nat)
    ensures P == 4 || P == 8
  {
    if M > 34 then 8 else 4
  }

  /**
   * One past the last active offset on each side of DC: offsets 1 .. BandEnd - 1
   * above DC (and the same offsets below it, at M - offset) are active.
   */
  function BandEnd(M: nat): (hi: nat)
    ensures 2 * hi <= M
  {
    if M / 2 > GuardWidth(M) then M / 2 - GuardWidth(M) else 0
  }

  /** Kind of the active subcarrier at offset `i` from DC. */
  function BandTag(M: nat, i: nat): Tag
  {
    if (i + PilotSpacing(M) / 2) % PilotSpacing(M) == 0 then Pilot else Data
  }

  /**
   * Kind of subcarrier `k` once offsets 1 .. upper - 1 above DC and offsets
   * 1 .. lower - 1 below DC have been filled in, all else null.
   */
  function Filled(M: nat, upper: nat, lower: nat, k: nat): Tag
  {
    if 1 <= k < upper then BandTag(M, k)
    else if 0 < k < M && M - k < lower then BandTag(M, M - k)
    else Null
  }

  /** Kind of subcarrier `k` in the default allocation of M subcarriers. */
  function DefaultTag(M: nat, k: nat): Tag
  {
    Filled(M, BandEnd(M), BandEnd(M), k)
  }

  /**
   * The default allocation: DC null, a data band with interleaved pilots on
   * each side of DC, and a run of nulls (the guard band) in the middle.
   */
  function DefaultSctype(M: nat): (ts: seq<Tag>)
    ensures |ts| == M
    ensures M > 0 ==> ts[0] == Null
    ensures forall k :: BandEnd(M) <= k <= M - BandEnd(M) && k < M ==> ts[k] == Null
    ensures forall k :: 1 <= k < M ==> ts[k] == ts[M - k]
    ensures forall k :: 1 <= k < BandEnd(M) ==> ts[k] != Null
  {
    seq(M, k requires 0 <= k < M => DefaultTag(M, k))
  }

  /** The default allocation always validates, with tallies that reconcile to M. */
  lemma DefaultValidates(M: nat)
    ensures Validate(Encoded(DefaultSctype(M))).Some?
    ensures var c := Validate(Encoded(DefaultSctype(M))).value;
      c.mNull + c.mPilot + c.mData == M
  {
  }

  /** The pilot test on an offset is a test of its phase within the spacing. */
  lemma PilotPhase(x: nat, P: nat)
    requires P == 4 || P == 8
    ensures (x + P / 2) % P == 0 <==> x % P == P / 2
    ensures (x + P) % P == x % P
  {
  }

  /** Offsets strictly between two pilot phases are not pilot phases. */
  lemma PhaseGap(x: nat, d: nat, P: nat)
    requires P == 4 || P == 8
    requires x % P == P / 2 && 0 < d < P
    ensures (x + d) % P != P / 2
  {
  }

  /**
   * Pilots sit every PilotSpacing(M) subcarriers, starting half a spacing from
   * DC, on both sides; the subcarriers between two pilots carry data.
   */
  lemma DefaultPilotsInterleaved(M: nat, k: nat)
    requires 1 <= k < BandEnd(M)
    ensures DefaultSctype(M)[k] == Pilot <==> k % PilotSpacing(M) == PilotSpacing(M) / 2
    ensures DefaultSctype(M)[M - k] == DefaultSctype(M)[k]
    ensures DefaultSctype(M)[k] == Pilot && k + PilotSpacing(M) < BandEnd(M) ==>
      DefaultSctype(M)[k + PilotSpacing(M)] == Pilot &&
      forall j :: k < j < k + PilotSpacing(M) ==> DefaultSctype(M)[j] == Data
  {
    var P, ts := PilotSpacing(M), DefaultSctype(M);
    assert ts[k] == BandTag(M, k);
    PilotPhase(k, P);
    if ts[k] == Pilot && k + P < BandEnd(M) {
      assert ts[k + P] == BandTag(M, k + P);
      PilotPhase(k + P, P);
      forall j | k < j < k + P
        ensures ts[j] == Data
      {
        assert ts[j] == BandTag(M, j);
        PilotPhase(j, P);
        PhaseGap(k, j - k, P);
      }
    }
  }

  /** When the band reaches half a spacing from DC, there is a pilot on each side. */
  lemma DefaultHasPilotsBothSides(M: nat)
    requires PilotSpacing(M) / 2 < BandEnd(M)
    ensures DefaultSctype(M)[PilotSpacing(M) / 2] == Pilot
    ensures DefaultSctype(M)[M - PilotSpacing(M) / 2] == Pilot
  {
    DefaultPilotsInterleaved(M, PilotSpacing(M) / 2);
  }

  /**
   * Fills the first M entries of `p` with the default allocation, leaving the
   * rest of the array alone.
   */
  method InitDefaultSctype(p: array<byte>, M: nat)
    requires M <= p.Length
    modifies p
    ensures p[..M] == Encoded(DefaultSctype(M))
    ensures p[M..] == old(p[M..])
  {
    var hi := BandEnd(M);
    // every subcarrier null
    for i := 0 to M
      invariant forall k :: 0 <= k < i ==> p[k] == Code(Null)
      invariant forall k :: M <= k < p.Length ==> p[k] == old(p[k])
    {
      p[i] := Code(Null);
    }
    // band above DC
    var i := 1;
    while i < hi
      invariant i == 1 || 1 <= i <= hi
      invariant forall k :: 0 <= k < M ==> p[k] == Code(Filled(M, i, 1, k))
      invariant forall k :: M <= k < p.Length ==> p[k] == old(p[k])
    {
      p[i] := Code(BandTag(M, i));
      i := i + 1;
    }
    var upper := i;
    assert forall k :: 0 <= k < M ==> Filled(M, upper, 1, k) == Filled(M, hi, 1, k);
    // band below DC, mirrored
    i := 1;
    while i < hi
      invariant i == 1 || 1 <= i <= hi
      invariant forall k :: 0 <= k < M ==> p[k] == Code(Filled(M, hi, i, k))
      invariant forall k :: M <= k < p.Length ==> p[k] == old(p[k])
    {
      p[M - i] := Code(BandTag(M, i));
      i := i + 1;
    }
    assert forall k :: 0 <= k < M ==> Filled(M, hi, i, k) == DefaultTag(M, k);
    var ts := DefaultSctype(M);
    forall k | 0 <= k < M
      ensures p[..M][k] == Encoded(ts)[k]
    {
      assert ts[k] == DefaultTag(M, k);
    }
    assert |Encoded(ts)| == M;
    assert p[..M] == Encoded(ts);
    assert p[M..] == old(p[M..]);
  }
}
