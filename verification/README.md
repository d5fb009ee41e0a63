# MIMO OFDM framing: subcarrier allocation and synchronizer bookkeeping

This project models the structural core of `framing.h`, the header of a
multi-antenna OFDM frame generator and frame synchronizer, and proves
properties of the model in Dafny.

Two parts are modelled:

- **Subcarrier allocation** (module `SubcarrierAllocation`, file
  `allocation.dfy`). An allocation is an array of `M` byte codes, one per
  subcarrier: null (printed `.`), pilot (printed `P`) or data (printed
  `+`). The byte values 0, 1 and 2 are an assumption (see "## Left out").
  - `ValidateSctype` tallies the first `M` entries of a read-only array into
    `M_null`, `M_pilot` and `M_data`, and rejects an entry that is not a
    subcarrier code. It is proved equal to `Validate`. `Validate` is stated
    through `Census`, which counts each code's multiplicity. The counts always
    add up to `M`.
  - `InitDefaultSctype` fills an array in place with the default allocation
    `DefaultSctype(M)`:
    - DC (entry 0) is null;
    - offsets 1 .. `BandEnd(M) - 1` on each side of DC carry data, with a pilot
      every `PilotSpacing(M)` subcarriers, starting half a spacing from DC;
    - the middle run from `BandEnd(M)` to `M - BandEnd(M)` is the null guard band.

    The header declares this routine but does not show its body, and its doc
    comment gives only the shape. The concrete widths are assumptions, taken
    from the liquid-dsp routine of the same name (the header includes
    liquid-dsp, but its own declarations differ from liquid-dsp's in
    parameter order and `const`):
    - guard width `max(2, M/10)`;
    - band end `M/2 - guard`;
    - pilot spacing 8 above 34 subcarriers and 4 otherwise.
- **Frame synchronizer state** (module `Synchronizer`, file `framesync.dfy`).
  - `SyncState` is the four-valued `framesync_states_t`. `Next` is
    `increment_state`: it moves to the next state in declaration order, and
    from MIMO back to SEEK_PLATEAU.
  - The class `FrameSync` keeps the static configuration fields `M` (at least
    one subcarrier), `cpLen`, `symbolLen`, `numStreams`, `numAccessCodes`, the
    allocation `p` and its three tallies. They are `const` fields, set once by
    the constructor.
  - It also keeps the synchronization fields `state`, `syncIndex`,
    `plateauStart`, `plateauEnd` and `numSamplesProcessed`.
  - Every mutating method names in `modifies` exactly the synchronization
    fields it may write. The configuration, being `const`, cannot change after
    construction. The getters are functions, so they cannot change anything.
  - The per-sample signal processing is abstracted:
    - `execute` receives one `Outcome` per sample, standing for what the
      current state's handler decided;
    - `Stay`: the stage goes on;
    - `Rise(start)`: while seeking, the plateau metric crossed the threshold;
      `plateauStart` records the candidate's start;
    - `Fall(end)`: while seeking, the metric fell back or the candidate grew
      too wide, and the candidate was rejected; `plateauEnd` records its end
      and the state stays SEEK_PLATEAU;
    - `Lock(plateau)`: the plateau detector accepted a plateau, with its bounds
      and the derived frame start;
    - `Finish`: the capture, wait or decode stage is complete.
  - `Step` and `Run` give the effect of one sample and of a sequence of samples.
    `Execute` is proved to follow `Run`.

## Model

| member | source | states |
|---|---|---|
| SubcarrierAllocation.Code | framing.h:169 | each subcarrier kind has a byte code that decodes back to that kind |
| SubcarrierAllocation.DecodeInjective | framing.h:169 | a byte that decodes to a kind is that kind's code, so the three codes are distinct |
| SubcarrierAllocation.Validate | framing.h:174-184 | validation succeeds exactly when every entry is a null, pilot or data code; on success the three counts add up to the number of entries and none exceeds it |
| SubcarrierAllocation.CensusSum | framing.h:174-184 | when every entry is a subcarrier code, the null, pilot and data multiplicities add up to M |
| SubcarrierAllocation.CountsFitUnsigned | framing.h:180-184 | for fewer than 2^32 subcarriers each count fits the `unsigned int` output |
| SubcarrierAllocation.ValidateSctype | framing.h:174-184 | the loop over the read-only array returns the tallies of its first M entries, or nothing when some entry is not a subcarrier code, as `Validate` specifies |
| SubcarrierAllocation.DefaultSctype | framing.h:165-172 | the default allocation has M entries, a null DC carrier, a contiguous null guard band in the middle, active carriers throughout each band, and is mirror-symmetric about DC |
| SubcarrierAllocation.DefaultValidates | framing.h:165-184 | the default allocation always passes validation, with counts adding up to M |
| SubcarrierAllocation.DefaultPilotsInterleaved | framing.h:169-170 | inside a band, a carrier is a pilot exactly at phase half a spacing, the mirrored carrier has the same kind, and between two pilots a spacing apart all carriers are data |
| SubcarrierAllocation.DefaultHasPilotsBothSides | framing.h:169-170 | when the band is wide enough there is a pilot on each side of DC |
| SubcarrierAllocation.InitDefaultSctype | framing.h:165-172 | fills the first M array entries with the default allocation's codes and leaves every other entry unchanged |
| Synchronizer.Ordinal | framing.h:14-19 | the states take the values 0 to 3, and SEEK_PLATEAU is the one with value 0 |
| Synchronizer.OrdinalRoundTrip | framing.h:14-19 | exactly the values 0 to 3 denote states, each value a different state |
| Synchronizer.Next | framing.h:130 | incrementing moves to the state whose value is one more, modulo 4 |
| Synchronizer.NextCycle | framing.h:14-19 | four increments return to the starting state and fewer never do |
| Synchronizer.RunAppend | framing.h:157-158 | given the same per-sample outcomes, processing two buffers in successive calls ends in the same state as processing their concatenation in one call |
| Synchronizer.RunWithoutLock | framing.h:135 | without an accepted plateau, any number of samples leaves a seeking synchronizer seeking with its frame start unchanged (candidate bounds may move); with no candidate either, nothing changes |
| Synchronizer.LeaveSeekNeedsLock | framing.h:135 | leaving SEEK_PLATEAU requires an accepted plateau among the samples |
| Synchronizer.RecordedPlateauReported | framing.h:133-140 | field by field: the recorded sync index is the previous one or an accepted plateau's; the recorded start is the previous one or a candidate's or accepted plateau's; likewise the recorded end |
| Synchronizer.RunFits | framing.h:133-140 | the recorded sync index and plateau bounds stay within `unsigned long` when the detector's reports do |
| Synchronizer.RunFinishes | framing.h:14-19 | past SEEK_PLATEAU each finished stage adds one to the state's value, so from value v the synchronizer is back in SEEK_PLATEAU after exactly 4 - v finished stages and not before, with its plateau untouched |
| Synchronizer.FrameCycle | framing.h:14-19 | from any seeking state, a plateau lock followed by finished stages goes through SAVE_ACCESS_CODES, WAIT and MIMO in order and returns to SEEK_PLATEAU after three, keeping the plateau it locked on |
| Synchronizer.FrameSync.constructor | framing.h:143-150 | for at least one subcarrier and a valid allocation, stores the configuration and the validated tallies, whose sum is M; sets the symbol length to M plus the cyclic prefix in `unsigned int`; starts in SEEK_PLATEAU with zeroed scalars |
| Synchronizer.FrameSync.IncrementState | framing.h:130 | `state` becomes its successor and no other field is written |
| Synchronizer.FrameSync.HandleSample | framing.h:135-138 | one sample goes to the current state's handler; the seeking handler may record a candidate's start or end in place or accept a plateau; the scalars change exactly as `Step` says |
| Synchronizer.FrameSync.Reset | framing.h:161 | state returns to SEEK_PLATEAU; sync index, plateau bounds and sample counter read 0; the configuration is unchanged |
| Synchronizer.FrameSync.Execute | framing.h:157-158 | consumes every sample handed to it and returns the state field after the call; the new state is `Run` of the old one over the samples; the counter grows by the sample count modulo 2^64; the configuration is unchanged; with no accepted plateau a seeking synchronizer stays seeking with its frame start unchanged |
| Synchronizer.FrameSync.GetSyncIndex | framing.h:154 | reads the recorded frame start, which fits `unsigned long`, without side effects |
| Synchronizer.FrameSync.GetNumSamplesProcessed | framing.h:156 | reads the sample counter, which fits `unsigned long long`, without side effects |
| Synchronizer.FrameSync.GetPlateauStart | framing.h:159 | reads the last candidate's or accepted plateau's start, which fits `unsigned long`, without side effects |
| Synchronizer.FrameSync.GetPlateauEnd | framing.h:160 | reads the last rejected candidate's or accepted plateau's end, which fits `unsigned long`, without side effects |
| Synchronizer.NewFrameSync | framing.h:143-150 | construction fails with NoSubcarriers for M = 0 and with InvalidAllocation for an allocation holding a non-subcarrier byte; otherwise it yields a fresh synchronizer holding exactly the given configuration and validated tallies, in SEEK_PLATEAU with zeroed scalars and sample counter |

## Left out

- `framing.h` defines none of these routines. It documents only `ofdmframe_init_default_sctype` and `ofdmframe_validate_sctype`. It declares the `framesync` members (`increment_state`, `reset`, `execute`, the getters) without doc comments, and its state enum gives only the order of the four states. The framesync behaviour below is therefore partly assumed, as the following lines name.
- Synchronizer.Next: the wrap from MIMO back to SEEK_PLATEAU is an assumption. It follows the described frame cycle SEEK_PLATEAU → SAVE_ACCESS_CODES → WAIT → MIMO → SEEK_PLATEAU. A bare `state + 1` in MIMO would leave the enum instead, and that is not modelled.
- Synchronizer.FrameSync.constructor: the symbol length `(M + cpLen) % 2^32` is an assumption. The header names the field only "symbol length". The model takes the usual OFDM symbol length, M subcarriers plus the cyclic prefix, in `unsigned int`.
- SubcarrierAllocation.DefaultSctype: the guard width `max(2, M/10)`, the pilot spacing (8 above 34 subcarriers, else 4), the pilot phase and the byte codes 0/1/2 are assumptions taken from liquid-dsp, not stated in the header. The doc-comment picture `.+++P+++++++P.........P+++++++P+++` has 34 entries with pilots at 4 and 12 and nine nulls in the middle; for M = 34 the assumed rule puts pilots at 2, 6 and 10 and seven nulls in the middle (`BandEnd(34) == 14`). Only the shape the picture shows is proved: null DC, a middle null guard band, mirrored bands with interleaved pilots.
- SubcarrierAllocation.ValidateSctype: on an entry that is no subcarrier code it returns `None`; the original reports the error and aborts, so the model's caller (`Synchronizer.NewFrameSync`) turns `None` into a construction failure.
- SubcarrierAllocation.InitDefaultSctype: for M < 4 the liquid-dsp rule computes `M/2 - guard` in `unsigned int`, which wraps around. The model takes the band as empty instead and writes only nulls.
- Synchronizer.FrameSync.Execute: the plateau metric, the access-code capture, the channel estimation and the MIMO decode are abstracted to one reported `Outcome` per sample. So the model does not say when a plateau is accepted or how `sync_index` is derived from its bounds. It says only what the state and scalars do given those decisions. The model also consumes every sample handed to `execute`: the documented "consumes up to `num_samples`" allows an early return after fewer samples, which is not modelled, so the counter and `Run` are stated over all the samples passed in.
- Synchronizer.FrameSync.Reset: returning to SEEK_PLATEAU with `sync_index`, `plateau_start` and `plateau_end` at 0 is an assumption, the state a freshly constructed synchronizer starts in. The header declares `reset` without showing what it sets. The model also clears the sample counter together with the sync scalars, which the header does not show either. The channel estimate `G`, which reset also clears, is not modelled.
- Synchronizer.NewFrameSync: it checks only the subcarrier count and the allocation. The msequence generator handles, and so the check that there is one per access code, are not modelled. Rejection returns a `Failure`, whereas the original aborts.
- The following are complex single-precision arithmetic on FFTW plans and raw `gr_complex` matrices, with no shown behaviour to verify:
  - the FFT and IFFT plans;
  - the S0 and S1 training sequences (`ofdmframe_init_S0`, `ofdmframe_init_S1`);
  - the precoder `W` (`set_W`, `get_W`, `compute_W`);
  - `estimate_channel`, `get_G` and `execute_mimo_decode`;
  - `write_sync_words` and `write_mimo_packet`;
  - the VOLK scratch buffers and the float helpers `liquid_cexpjf`, `cabsf`, `cargf`, `fabsf` and `conjf`.
- The frame generator class `framegen` is not modelled. Its operations are the numeric ones listed above, and its configuration fields mirror the synchronizer's.
- The `print` methods and `ofdmframe_print_sctype` are console output. The `mimo_callback` function pointer is an opaque foreign call. The destructors only release memory.
