/**
 * The receive-side frame synchronizer: its four-state detection cycle, the
 * bookkeeping scalars that cycle maintains, and the static configuration fixed
 * at construction. The signal processing that decides each transition (plateau
 * metric, access-code capture, MIMO decode) is abstracted to one reported
 * outcome per input sample.
 */
module Synchronizer {
  import opened Options
  import opened SubcarrierAllocation

  /** The width of `unsigned long` and `unsigned long long` (LP64). */
  const U64: nat := 0x1_0000_0000_0000_0000

  /** The receiver states, in declaration order. */
  datatype SyncState = SeekPlateau | SaveAccessCodes | Wait | Mimo

  /** The enumerator's integer value. */
  function Ordinal(s: SyncState): (n: nat)
    ensures n < 4
    ensures n == 0 <==> s == SeekPlateau
  {
    match s
    case SeekPlateau => 0
    case SaveAccessCodes => 1
    case Wait => 2
    case Mimo => 3
  }

  /** The state an integer value denotes, if any. */
  function FromOrdinal(n: nat): Option<SyncState>
  {
    if n == 0 then Some(SeekPlateau)
    else if n == 1 then Some(SaveAccessCodes)
    else if n == 2 then Some(Wait)
    else if n == 3 then Some(Mimo)
    else None
  }

  /** Exactly the values 0 .. 3 denote states, each a different one. */
  lemma OrdinalRoundTrip(s: SyncState, n: nat)
    ensures FromOrdinal(Ordinal(s)) == Some(s)
    ensures FromOrdinal(n).Some? <==> n < 4
    ensures FromOrdinal(n) == Some(s) ==> Ordinal(s) == n
  {
  }

  /** The state `increment_state` moves to: the next one in declaration order, cyclically. */
  function Next(s: SyncState): (t: SyncState)
    ensures Ordinal(t) == (Ordinal(s) + 1) % 4
  {
    match s
    case SeekPlateau => SaveAccessCodes
    case SaveAccessCodes => Wait
    case Wait => Mimo
    case Mimo => SeekPlateau
  }

  /** Four increments make a full cycle, and no fewer return to the start. */
  lemma NextCycle(s: SyncState)
    ensures Next(Next(Next(Next(s)))) == s
    ensures Next(s) != s && Next(Next(s)) != s && Next(Next(Next(s))) != s
  {
    assert Ordinal(Next(Next(Next(Next(s))))) == Ordinal(s);
  }

  /** Plateau bounds and the frame start derived from them. */
  datatype Plateau = Plateau(syncIndex: nat, start: nat, end: nat)

  /** The values `reset` gives the plateau scalars. */
  const NoPlateau := Plateau(0, 0, 0)

  predicate PlateauFits(pl: Plateau)
  {
    pl.syncIndex < U64 && pl.start < U64 && pl.end < U64
  }

  /** The synchronizer's mutable detection state. */
  datatype Sync = Sync(state: SyncState, plateau: Plateau)

  /** The state after construction or `reset`. */
  const Initial := Sync(SeekPlateau, NoPlateau)

  /**
   * What the handler of the current state reports for one sample:
   * Stay — the sample was consumed and the stage goes on;
   * Rise — the plateau metric crossed the threshold here: a candidate starts;
   * Fall — the metric fell back, or the candidate grew too wide, and the
   *        candidate was rejected: its end is recorded and seeking goes on;
   * Lock — the plateau detector accepted a plateau, with these bounds and frame start;
   * Finish — the capture, wait or decode stage is complete.
   */
  datatype Outcome = Stay | Rise(start: nat) | Fall(end: nat) | Lock(found: Plateau) | Finish

  /** The values an outcome reports fit `unsigned long`. */
  predicate OutcomeFits(o: Outcome)
  {
    match o
    case Rise(s) => s < U64
    case Fall(e) => e < U64
    case Lock(pl) => PlateauFits(pl)
    case _ => true
  }

  predicate OutcomesFit(os: seq<Outcome>)
  {
    forall k :: 0 <= k < |os| ==> OutcomeFits(os[k])
  }

  /** `o` reports `s` as the start of a plateau (a candidate's or an accepted one's). */
  predicate ReportsStart(o: Outcome, s: nat)
  {
    (o.Rise? && o.start == s) || (o.Lock? && o.found.start == s)
  }

  /** `o` reports `e` as the end of a plateau (a rejected candidate's or an accepted one's). */
  predicate ReportsEnd(o: Outcome, e: nat)
  {
    (o.Fall? && o.end == e) || (o.Lock? && o.found.end == e)
  }

  /**
   * One sample's effect. While seeking, a candidate's start and a rejected
   * candidate's end are recorded in place, and only an accepted plateau
   * advances the state (recording its bounds and frame start); in the other
   * states only a finished stage does. A stage's report is ignored by any
   * other state.
   */
  function Step(r: Sync, o: Outcome): Sync
  {
    if r.state == SeekPlateau then
      match o
      case Rise(s) => r.(plateau := r.plateau.(start := s))
      case Fall(e) => r.(plateau := r.plateau.(end := e))
      case Lock(pl) => Sync(Next(r.state), pl)
      case _ => r
    else
      if o.Finish? then r.(state := Next(r.state)) else r
  }

  /** The effect of a run of samples, one outcome each, in order. */
  function Run(r: Sync, os: seq<Outcome>): Sync
    decreases |os|
  {
    if os == [] then r else Run(Step(r, os[0]), os[1..])
  }

  /**
   * Feeding two buffers one after the other ends where feeding their
   * concatenation in one call does: partial progress carries across calls.
   */
  lemma {:induction false} RunAppend(r: Sync, a: seq<Outcome>, b: seq<Outcome>)
    ensures Run(r, a + b) == Run(Run(r, a), b)
    decreases |a|
  {
    if a == [] {
      assert a + b == b;
    } else {
      assert (a + b)[0] == a[0];
      assert (a + b)[1..] == a[1..] + b;
      RunAppend(Step(r, a[0]), a[1..], b);
    }
  }

  /**
   * Without an accepted plateau the synchronizer never leaves SEEK_PLATEAU and
   * its frame start does not move, however many samples arrive; when no
   * candidate plateau appears either, nothing moves at all.
   */
  lemma {:induction false} RunWithoutLock(r: Sync, os: seq<Outcome>)
    requires r.state == SeekPlateau
    requires forall k :: 0 <= k < |os| ==> !os[k].Lock?
    ensures Run(r, os).state == SeekPlateau
    ensures Run(r, os).plateau.syncIndex == r.plateau.syncIndex
    ensures (forall k :: 0 <= k < |os| ==> !os[k].Rise? && !os[k].Fall?) ==> Run(r, os) == r
    decreases |os|
  {
    if os != [] {
      assert forall k :: 0 <= k < |os[1..]| ==> os[1..][k] == os[k + 1];
      RunWithoutLock(Step(r, os[0]), os[1..]);
    }
  }

  /** Leaving SEEK_PLATEAU takes an accepted plateau among the outcomes. */
  lemma LeaveSeekNeedsLock(r: Sync, os: seq<Outcome>)
    requires r.state == SeekPlateau
    requires Run(r, os).state != SeekPlateau
    ensures exists k :: 0 <= k < |os| && os[k].Lock?
  {
    if forall k :: 0 <= k < |os| ==> !os[k].Lock? {
      RunWithoutLock(r, os);
    }
  }

  /**
   * Each recorded scalar is either the one held before or one the detector
   * reported: the frame start only by an accepted plateau, the bounds by a
   * candidate or an accepted plateau.
   */
  lemma {:induction false} RecordedPlateauReported(r: Sync, os: seq<Outcome>)
    ensures Run(r, os).plateau.syncIndex == r.plateau.syncIndex ||
      exists k :: 0 <= k < |os| && os[k].Lock? && os[k].found.syncIndex == Run(r, os).plateau.syncIndex
    ensures Run(r, os).plateau.start == r.plateau.start ||
      exists k :: 0 <= k < |os| && ReportsStart(os[k], Run(r, os).plateau.start)
    ensures Run(r, os).plateau.end == r.plateau.end ||
      exists k :: 0 <= k < |os| && ReportsEnd(os[k], Run(r, os).plateau.end)
    decreases |os|
  {
    if os != [] {
      var r', tail := Step(r, os[0]), os[1..];
      var last := Run(r, os);
      assert last == Run(r', tail);
      RecordedPlateauReported(r', tail);
      if last.plateau.syncIndex != r'.plateau.syncIndex {
        var k :| 0 <= k < |tail| && tail[k].Lock? && tail[k].found.syncIndex == last.plateau.syncIndex;
        assert os[k + 1] == tail[k];
      } else if r'.plateau.syncIndex != r.plateau.syncIndex {
        assert os[0].Lock? && os[0].found.syncIndex == last.plateau.syncIndex;
      }
      if last.plateau.start != r'.plateau.start {
        var k :| 0 <= k < |tail| && ReportsStart(tail[k], last.plateau.start);
        assert os[k + 1] == tail[k];
      } else if r'.plateau.start != r.plateau.start {
        assert ReportsStart(os[0], last.plateau.start);
      }
      if last.plateau.end != r'.plateau.end {
        var k :| 0 <= k < |tail| && ReportsEnd(tail[k], last.plateau.end);
        assert os[k + 1] == tail[k];
      } else if r'.plateau.end != r.plateau.end {
        assert ReportsEnd(os[0], last.plateau.end);
      }
    }
  }

  /** Recorded plateau scalars stay within `unsigned long` when the reports do. */
  lemma {:induction false} RunFits(r: Sync, os: seq<Outcome>)
    requires PlateauFits(r.plateau) && OutcomesFit(os)
    ensures PlateauFits(Run(r, os).plateau)
    decreases |os|
  {
    if os != [] {
      assert OutcomesFit(os[1..]) by {
        forall k | 0 <= k < |os[1..]|
          ensures OutcomeFits(os[1..][k])
        {
          assert os[1..][k] == os[k + 1];
        }
      }
      assert OutcomeFits(os[0]);
      RunFits(Step(r, os[0]), os[1..]);
    }
  }

  /** `n` samples on each of which the current stage reports completion. */
  function Finishes(n: nat): (os: seq<Outcome>)
    ensures |os| == n && forall k :: 0 <= k < n ==> os[k] == Finish
  {
    seq(n, _ => Finish)
  }

  /**
   * Past SEEK_PLATEAU every finished stage advances the state by one, so a
   * state's value counts the stages done: from a state with value v, the
   * synchronizer is back in SEEK_PLATEAU after exactly 4 - v finished stages
   * and not before, with the recorded plateau untouched.
   */
  lemma {:induction false} RunFinishes(r: Sync, n: nat)
    requires r.state != SeekPlateau && n <= 4 - Ordinal(r.state)
    ensures Ordinal(Run(r, Finishes(n)).state) == (Ordinal(r.state) + n) % 4
    ensures Run(r, Finishes(n)).state == SeekPlateau <==> n == 4 - Ordinal(r.state)
    ensures Run(r, Finishes(n)).plateau == r.plateau
    decreases n
  {
    if n > 0 {
      var r' := Step(r, Finish);
      assert Finishes(n)[0] == Finish && Finishes(n)[1..] == Finishes(n - 1);
      assert Run(r, Finishes(n)) == Run(r', Finishes(n - 1));
      if n - 1 > 0 {
        RunFinishes(r', n - 1);
      } else {
        assert Finishes(0) == [];
      }
    } else {
      assert Finishes(0) == [];
    }
  }

  /**
   * A frame found while seeking visits SAVE_ACCESS_CODES, WAIT and MIMO in
   * order and returns to SEEK_PLATEAU after three finished stages, keeping the
   * plateau it locked on.
   */
  lemma FrameCycle(r: Sync, pl: Plateau)
    requires r.state == SeekPlateau
    ensures Run(r, [Lock(pl)]) == Sync(SaveAccessCodes, pl)
    ensures Run(r, [Lock(pl)] + Finishes(1)).state == Wait
    ensures Run(r, [Lock(pl)] + Finishes(2)).state == Mimo
    ensures Run(r, [Lock(pl)] + Finishes(3)) == Sync(SeekPlateau, pl)
  {
    var locked := Sync(SaveAccessCodes, pl);
    assert Run(r, [Lock(pl)]) == Run(locked, []) by {
      assert [Lock(pl)][1..] == [];
    }
    assert Run(locked, []) == locked;
    RunAppend(r, [Lock(pl)], Finishes(1));
    RunAppend(r, [Lock(pl)], Finishes(2));
    RunAppend(r, [Lock(pl)], Finishes(3));
    RunFinishes(locked, 1);
    RunFinishes(locked, 2);
    RunFinishes(locked, 3);
  }

  /** Counting one more after wrapping is wrapping one more. */
  lemma WrapSucc(n: nat)
    ensures (n % U64 + 1) % U64 == (n + 1) % U64
  {
  }

  /** Static configuration fixed at construction. */
  datatype Config = Config(
    M: nat, cpLen: nat, symbolLen: nat, numStreams: nat, numAccessCodes: nat,
    p: seq<byte>, counts: Counts)

  class FrameSync {
    // static configuration, fixed by the constructor
    const M: nat
    const cpLen: nat
    const symbolLen: nat
    const numStreams: nat
    const numAccessCodes: nat
    const p: seq<byte>
    const mNull: nat
    const mPilot: nat
    const mData: nat

    // synchronization state
    var state: SyncState
    var syncIndex: nat
    var numSamplesProcessed: nat
    var plateauStart: nat
    var plateauEnd: nat

    /**
     * The object invariant: at least one subcarrier, a valid allocation whose
     * tallies are stored, and fields within their C widths.
     */
    ghost predicate Valid()
      reads this
    {
      0 < M < U32 && cpLen < U32 && numStreams < U32 && numAccessCodes < U32 &&
      |p| == M && Validate(p) == Some(Counts(mNull, mPilot, mData)) &&
      symbolLen == (M + cpLen) % U32 &&
      syncIndex < U64 && plateauStart < U64 && plateauEnd < U64 &&
      numSamplesProcessed < U64
    }

    function Configuration(): Config
      reads this
    {
      Config(M, cpLen, symbolLen, numStreams, numAccessCodes, p, Counts(mNull, mPilot, mData))
    }

    function Current(): Sync
      reads this
    {
      Sync(state, Plateau(syncIndex, plateauStart, plateauEnd))
    }

    /**
     * Builds a synchronizer over a valid allocation `p` of M subcarriers: the
     * tallies come from validating `p`, the symbol length is the subcarrier
     * count plus the cyclic prefix, and the detection state starts reset.
     */
    constructor (M: nat, cpLen: nat, numStreams: nat, numAccessCodes: nat, p: seq<byte>)
      requires 0 < M < U32 && cpLen < U32 && numStreams < U32 && numAccessCodes < U32
      requires |p| == M && Validate(p).Some?
      ensures Valid()
      ensures Configuration() == Config(M, cpLen, (M + cpLen) % U32, numStreams, numAccessCodes, p, Validate(p).value)
      ensures mNull + mPilot + mData == M
      ensures Current() == Initial && numSamplesProcessed == 0
    {
      var a := new byte[M](i requires 0 <= i < M => p[i]);
      assert a[..M] == p;
      var counts := ValidateSctype(a, M);
      this.M := M;
      this.cpLen := cpLen;
      symbolLen := (M + cpLen) % U32;
      this.numStreams := numStreams;
      this.numAccessCodes := numAccessCodes;
      this.p := p;
      mNull, mPilot, mData := counts.value.mNull, counts.value.mPilot, counts.value.mData;
      state := SeekPlateau;
      syncIndex, numSamplesProcessed, plateauStart, plateauEnd := 0, 0, 0, 0;
    }

    /** Moves to the next state in the detection cycle; nothing else changes. */
    method IncrementState()
      requires Valid()
      modifies this`state
      ensures Valid()
      ensures state == Next(old(state))
    {
      state := Next(state);
    }

    /**
     * Returns to SEEK_PLATEAU with the sync scalars at their initial values,
     * keeping the static configuration.
     */
    method Reset()
      requires Valid()
      modifies this`state, this`syncIndex, this`plateauStart, this`plateauEnd, this`numSamplesProcessed
      ensures Valid()
      ensures Configuration() == old(Configuration())
      ensures Current() == Initial
      ensures GetSyncIndex() == 0 && GetPlateauStart() == 0 && GetPlateauEnd() == 0
      ensures GetNumSamplesProcessed() == 0
    {
      state := SeekPlateau;
      syncIndex := 0;
      plateauStart := 0;
      plateauEnd := 0;
      numSamplesProcessed := 0;
    }

    /**
     * Hands one sample to the current state's handler: the plateau detector
     * while seeking, the capture, wait or decode stage otherwise.
     */
    method HandleSample(o: Outcome)
      requires Valid()
      requires OutcomeFits(o)
      modifies this`state, this`syncIndex, this`plateauStart, this`plateauEnd
      ensures Valid()
      ensures Current() == Step(old(Current()), o)
    {
      if state == SeekPlateau {
        match o
        case Rise(s) =>
          plateauStart := s;
        case Fall(e) =>
          plateauEnd := e;
        case Lock(pl) =>
          syncIndex, plateauStart, plateauEnd := pl.syncIndex, pl.start, pl.end;
          IncrementState();
        case _ =>
      } else if o.Finish? {
        IncrementState();
      }
    }

    /**
     * Processes one sample per outcome, handing each to the current state's
     * handler, and returns the state reached. The sample counter advances by the
     * number of samples, modulo the width of `unsigned long long`.
     */
    method Execute(outcomes: seq<Outcome>) returns (r: SyncState)
      requires Valid()
      requires |outcomes| < U32 && OutcomesFit(outcomes)
      modifies this`state, this`syncIndex, this`plateauStart, this`plateauEnd, this`numSamplesProcessed
      ensures Valid()
      ensures Configuration() == old(Configuration())
      ensures Current() == Run(old(Current()), outcomes)
      ensures numSamplesProcessed == (old(numSamplesProcessed) + |outcomes|) % U64
      ensures r == state
      ensures old(state) == SeekPlateau && (forall k :: 0 <= k < |outcomes| ==> !outcomes[k].Lock?) ==>
        state == SeekPlateau && syncIndex == old(syncIndex)
    {
      for i := 0 to |outcomes|
        invariant Valid()
        invariant Configuration() == old(Configuration())
        invariant Run(Current(), outcomes[i..]) == Run(old(Current()), outcomes)
        invariant numSamplesProcessed == (old(numSamplesProcessed) + i) % U64
      {
        assert outcomes[i..][1..] == outcomes[i + 1..];
        HandleSample(outcomes[i]);
        WrapSucc(old(numSamplesProcessed) + i);
        numSamplesProcessed := (numSamplesProcessed + 1) % U64;
      }
      assert outcomes[|outcomes|..] == [];
      if old(state) == SeekPlateau && forall k :: 0 <= k < |outcomes| ==> !outcomes[k].Lock? {
        RunWithoutLock(old(Current()), outcomes);
      }
      r := state;
    }

    /** The estimated frame start; reading it changes nothing. */
    function GetSyncIndex(): (r: nat)
      reads this
      requires Valid()
      ensures r == Current().plateau.syncIndex && r < U64
    {
      syncIndex
    }

    /** Where the last plateau candidate began; reading it changes nothing. */
    function GetPlateauStart(): (r: nat)
      reads this
      requires Valid()
      ensures r == Current().plateau.start && r < U64
    {
      plateauStart
    }

    /** Where the last plateau candidate ended; reading it changes nothing. */
    function GetPlateauEnd(): (r: nat)
      reads this
      requires Valid()
      ensures r == Current().plateau.end && r < U64
    {
      plateauEnd
    }

    /** Samples consumed since construction or the last reset; reading it changes nothing. */
    function GetNumSamplesProcessed(): (r: nat)
      reads this
      requires Valid()
      ensures r < U64
    {
      numSamplesProcessed
    }
  }

  /** Why a synchronizer cannot be built. */
  datatype ConfigError = NoSubcarriers | InvalidAllocation

  /**
   * Construction that fails fast: an empty subcarrier set or an allocation
   * holding a byte that is no subcarrier code is rejected, anything else
   * yields a reset synchronizer over the given configuration.
   */
  method NewFrameSync(M: nat, cpLen: nat, numStreams: nat, numAccessCodes: nat, p: seq<byte>)
    returns (r: Result<FrameSync, ConfigError>)
    requires M < U32 && cpLen < U32 && numStreams < U32 && numAccessCodes < U32
    requires |p| == M
    ensures M == 0 ==> r == Failure(NoSubcarriers)
    ensures M > 0 && Validate(p).None? ==> r == Failure(InvalidAllocation)
    ensures r.Success? <==> M > 0 && Validate(p).Some?
    ensures r.Success? ==>
      fresh(r.value) && r.value.Valid() &&
      r.value.Configuration() ==
        Config(M, cpLen, (M + cpLen) % U32, numStreams, numAccessCodes, p, Validate(p).value) &&
      r.value.Current() == Initial && r.value.numSamplesProcessed == 0
  {
    if M == 0 {
      return Failure(NoSubcarriers);
    }
    if Validate(p).None? {
      return Failure(InvalidAllocation);
    }
    var fs := new FrameSync(M, cpLen, numStreams, numAccessCodes, p);
    return Success(fs);
  }
}
