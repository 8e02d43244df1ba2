# clownmdemu benchmark harness — Dafny model

The benchmark loads a cartridge image and runs an opaque Mega Drive emulation
core in batches: each batch resets the core and calls `Iterate` a fixed number
of times. The elapsed time of each batch goes into a 16-slot rolling-average
window, and the current average is reported after every batch. The core calls
back into the host through a table of hooks. Only one of them does real work:
the cartridge read, which serves bytes of the loaded image. The others answer
fixed "absent / not pressed" values.

The model has three modules:

- `Hooks` (`hooks.dfy`): the bounds-checked cartridge read and the hook stubs
  that return values, written as pure functions.
- `RollingAverage` (`rolling_average.dfy`): the sample window. It is a class
  over an `array<real>` of 16 slots, with a write index and a saturating count.
  A ghost history of every pushed sample ties the slots to the window's meaning,
  which is the at most 16 most recent samples. Exact `real`s stand in for
  `double`.
- `Harness` (`harness.dfy`): an emulation session, the timing loop of one batch
  and the measurement loop.
  - The core's state is a type parameter.
  - Its reset baseline and its `Iterate` step are supplied by the caller, since
    the core's source is not part of this model.
  - Clock readings are supplied as one elapsed time per batch.

Two details of the source shape the model:

- The source binds one function, `AudioToBeGenerated`, to all four audio
  slots of the callback table (benchmark.c:247-250).
- The source counts a batch's iterations in a `cc_u16f` counter compared
  against an `unsigned long` count (benchmark.c:237, 270). The model counts
  with a counter as wide as the count. What the narrower counter does is
  recorded under "## Findings".

## Model

| member | source | states |
|---|---|---|
| Hooks.CartridgeRead | benchmark.c:37-45 | an address inside the image reads the image byte at that address; an address at or past `rom_size` reads 0; the read is total and never indexes outside the image |
| Hooks.CartridgeReadZeroPadded | benchmark.c:41-44 | reading the image is indistinguishable from reading the same image padded with any number of zero bytes |
| Hooks.CartridgeReadRecoversImage | benchmark.c:41-42 | reading every address below `rom_size` in turn gives back exactly the loaded image |
| Hooks.InputRequested | benchmark.c:70-77 | no button of any controller is ever reported pressed |
| Hooks.CDSeekTrack | benchmark.c:97-104 | seeking to a CD audio track always fails |
| Hooks.CDAudioRead | benchmark.c:106-113 | no CD audio frames are ever supplied, so never more than were requested |
| Hooks.SaveFileOpenedForReading | benchmark.c:115-121 | no save file is ever opened for reading |
| Hooks.SaveFileRead | benchmark.c:123-128 | a save-file read yields 0 |
| Hooks.SaveFileOpenedForWriting | benchmark.c:130-136 | no save file is ever opened for writing |
| Hooks.SaveFileRemoved | benchmark.c:149-155 | removing a save file always fails |
| Hooks.SaveFileSizeObtained | benchmark.c:157-164 | the size of a save file is never obtained |
| Hooks.HostAnswersIgnoreArguments | benchmark.c:70-164 | each value-returning hook other than the cartridge read gives the same answer whatever arguments it is called with |
| RollingAverage.Recent | benchmark.c:274-276 | the window after a history holds min(length, 16) samples, and they are the most recent ones in order |
| RollingAverage.SumAppend | benchmark.c:278-281 | the accumulator's left-to-right sum over a concatenation is the sum of the two parts |
| RollingAverage.SumRotate | benchmark.c:278-283 | summing the slots from 0 gives the same total as summing them from any starting slot and wrapping round |
| RollingAverage.RecentPush | benchmark.c:274-276 | a push onto a window that is not full appends the sample; a push onto a full window evicts the oldest sample and appends the new one |
| RollingAverage.SampleWindow.constructor | benchmark.c:228-232 | a fresh 16-slot window with index 0, count 0 and an empty history |
| RollingAverage.SampleWindow.Push | benchmark.c:274-276 | the sample is written at the old index and every other slot is unchanged; the index becomes (old index + 1) mod 16; the count becomes min(16, old count + 1); the window invariant is kept |
| RollingAverage.SampleWindow.Average | benchmark.c:278-283 | with at least one sample stored, the result is the sum of slots 0..total-1 divided by total, which equals the mean of the most recent min(pushes, 16) samples |
| RollingAverage.SampleWindow.Record | benchmark.c:274-283 | after push-then-average the count is between 1 and 16, so the division is defined, and the report is the mean of the current window |
| RollingAverage.IndexTracksTotal | benchmark.c:274-276 | the index stays below 16, the count never exceeds 16, and while the count is below 16 the index equals the count |
| RollingAverage.SlotsHoldWindow | benchmark.c:274-276 | after k <= 16 pushes, slots 0..k-1 hold the samples in push order; after 16 or more, the slots read from the write index and wrapping round hold the 16 most recent samples oldest first, and the slots are a permutation of them |
| RollingAverage.SlotsSumToWindow | benchmark.c:278-281 | the slots the accumulator loop adds sum to the sum of the current window |
| RollingAverage.FirstReport | benchmark.c:228-283 | the first report of a run equals the first batch's elapsed time exactly |
| Harness.Session.constructor | benchmark.c:263 | a session bound to the core's baseline state and its Iterate step (the session built by `CLOWNMDEMU_PARAMETERS_INITIALISE`), starting at the baseline |
| Harness.Session.Reset | benchmark.c:265-266 | the core returns to its baseline whatever state it was in, and the Iterate count since reset is 0 |
| Harness.Session.Iterate | benchmark.c:271 | one Iterate step is applied to the core state and the count rises by one |
| Harness.CounterStep | benchmark.c:270 | `++i` on a counter below its modulus stays below it, adds one below the top value and wraps to 0 at it |
| Harness.NarrowCounterNeverExits | benchmark.c:270 | with a count at least the counter's modulus, every counter value passes the guard `i < total_iterations` both before and after `++i`, so the loop never ends |
| Harness.SixteenBitCounterWraps | benchmark.c:270 | with a 16-bit counter and 0x10000 iterations, `++i` from 0xFFFF gives 0, which still passes the guard |
| Harness.RunBatch | benchmark.c:265-271 | a batch makes exactly n Iterate calls after its reset, for every n, and ends in the state of n steps from the baseline, independent of earlier batches |
| Harness.ResetTwice | benchmark.c:265-266 | two resets in a row leave the core at the baseline; this rests on the reset contract of the core, taken as given, not on anything proved about it |
| Harness.RunController | benchmark.c:228-296 | one report per batch; report k is the mean of the at most 16 most recent elapsed times up to batch k; every batch makes exactly n Iterate calls after its reset and ends in the state of n steps from the baseline |

## Left out

- `LoadFile` (benchmark.c:166-199) is file I/O. The loaded image is a parameter of the cartridge read.
- Argument checking and `strtoul` parsing of the iteration count (benchmark.c:212-218) are left out. The count is a parameter.
- `clock()` and the conversion to seconds (benchmark.c:268, 273) are left out. Each batch's elapsed time is a parameter.
- Printing the report with `fprintf` (benchmark.c:285) is left out. The reports are returned as a sequence.
- `double` arithmetic and rounding are left out. Samples and averages are exact reals.
- The 3DS platform bring-up, its shutdown and its early-exit polling (benchmark.c:6-21, 207-210, 287-295, 304-306) are platform glue. The unbounded loop stops when the supplied elapsed times run out.
- The emulation core (`ClownMDEmu_Constant_Initialise`, `ClownMDEmu_State_Initialise`, `ClownMDEmu_Reset`, `ClownMDEmu_Iterate`) is a foreign library. It appears only as a baseline value and a step function, so it does not model which hooks the core calls.
- `AudioToBeGenerated` (benchmark.c:79-84) only forwards the scratch sample buffer to a function the core supplies, so it is a foreign call. The buffer's size depends on sample-rate constants from the core's header, which is not part of this model.
- The hooks without a result (`CartridgeWritten`, `ColourUpdated`, `ScanlineRendered`, `CDSeeked`, `CDSectorRead`, `SaveFileWritten`, `SaveFileClosed`) do nothing observable.
- The static callback table (benchmark.c:240-262) is left out.
- The button and CD-DA mode enumerations come from the core's header, which is not part of this model. Player, button, track and mode arguments are natural numbers.
- Hooks.SaveFileSizeObtained: returns only the failure flag. The size out-parameter, which the source never writes, is not modelled.
- Harness.RunBatch, Harness.RunController: count iterations with a counter as wide as the count, the intended behaviour. The source's `cc_u16f` counter is only guaranteed 16 bits. Where it is narrower than `unsigned long`, a larger count makes the counter wrap, so the batch never ends (see "## Findings").
- RollingAverage.SampleWindow.Average: requires at least one stored sample. The source only averages right after a push, and `Record` proves the count is then positive. On an empty window C would divide 0.0 by 0.
- The initial contents of the C window's slots are indeterminate. The model allocates its slots with Dafny's default value and never depends on it.

## Findings

| source | as written | input that shows it | evidently intended | confidence | as-written member | corrected member |
|---|---|---|---|---|---|---|
| benchmark.c:270 | the iteration counter `i` is a `cc_u16f`, compared against the `unsigned long` count `total_iterations` | a count at least the counter's modulus, e.g. 0x10000 iterations with a 16-bit counter: `++i` from 0xFFFF wraps to 0 < 0x10000 and the batch never ends | a counter as wide as the count, so every batch makes exactly `total_iterations` calls and ends | medium, not executed; depends on the platform's widths of `cc_u16f` and `unsigned long` | Harness.NarrowCounterNeverExits | Harness.RunBatch |
