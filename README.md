# BeamMaxx delay-and-sum core in Dafny

BeamMaxx is an audio plugin meant to be a delay-and-sum beamformer over a
linear microphone array. There are N microphones (2..64), each on its own
input channel. The design is to compensate each microphone's time of arrival
by a whole number of samples, using a per-microphone delay line of fixed
capacity 256, and then to average the N channels into channel 0.

The code does not achieve that. It routes only some channels through their
delay lines (see below). A routed channel is not delayed: for the whole block
it is filled with one sample that its line already held. Channel 0 then
receives the average of the N channels.

This project models that core as it is written:

- the processor state (`delayBuffer`, `readIndices`, `writeIndices`,
  `prevNumMicrophones`, `delSampleMax`, `delSamples`, `sampleRate`);
- `resetDelays`, and `prepareToPlay`, which calls it;
- `processBlock`, in full: the reset check, the zero-fill of unused output
  channels, the rounded delays, the two-case channel loop over the delay
  lines, and the sum-and-divide mix into channel 0.

Three modules mirror that structure:

- `DelayLineBank` (`delay_line_bank.dfy`) holds the bank of delay lines as a
  value. It defines the reset (`ResetBank`), the read-cursor wraparound
  (`WrapReadIndex`) and what one block does to one delay line (`DelayLane`).
- `BeamformerEngine` (`beamformer_engine.dfy`) holds a block as functions of
  values:
  - the delay expression (`Round`, `Delay`);
  - two views of the routing policy and the lemmas joining them: `Plan` is one
    loop iteration, `ChannelDelay` is one channel;
  - the whole channel loop (`AlignFrom`), the mix (`Mix`) and the whole block
    (`Block`);
  - the lemmas about them.
- `PluginProcessor` (`plugin_processor.dfy`) holds the class
  `BeamMaxxAudioProcessor`. Its fields are the source's member variables. Its
  methods update them, and the audio buffer, in place with the source's
  loops. Each method is proved against the functions above. The audio buffer
  is an `array2<real>` (channels × samples), related to a ghost
  `seq<seq<real>>` by `Holds`.

The behaviour modelled is the code's, including places where it does not do
what a delay-and-sum beamformer is meant to do:

- The write cursors never move, and the read cursor is computed once per
  block. So every output sample of a delayed channel in a block is the same
  value: the line's sample under the read cursor when the block starts.
- The only line slot written is the one under the write cursor. The value
  written is the sample just stored into the buffer, which is the delayed
  value, not the incoming one. So a delay line that starts all zero stays all
  zero forever, and every channel that passes through it becomes silent.
- With `delSampleMax > 0`, channels 1..N-1 are delayed by `Delay(c)`, even
  when that is 0, and channel 0 never is. With `delSampleMax <= 0`, channel
  `c` in 0..N-2 is delayed by `|delSampleMax - Delay(c + 1)|` when that is not
  0, and channel N-1 never is.
- `resize` keeps existing lines and cursors. A reset after a change in the
  microphone count clears nothing that already existed. It only adds
  zero-filled lines and zero cursors (or drops the ones past the new count).
- The delays come from `cos(directionOfArrival)`. The direction parameter
  counts degrees, but it is handed to `cos` as radians. The model takes the
  cosine's value as an input (`Config.cosDirection`, in [-1, 1]).

## Model

| member | source | states |
|---|---|---|
| DelayLineBank.Resize | Source/PluginProcessor.cpp:261-268 | `std::vector::resize(n, fill)` gives exactly `n` elements; the first `min(n, old size)` are kept and any new ones equal `fill` |
| DelayLineBank.ResetBank | Source/PluginProcessor.cpp:259-270 | after a reset for `n` microphones there are `n` lines of 256 samples and `n` cursors of each kind; every old sample and cursor below the new sizes is kept and every new one is 0; a well-formed bank stays well-formed |
| DelayLineBank.ResetShapedIsIdentity | Source/PluginProcessor.cpp:259-270 | resetting a bank already shaped for `n` microphones changes nothing |
| DelayLineBank.ResetIdempotent | Source/PluginProcessor.cpp:259-270 | two resets with the same count leave the state of one |
| DelayLineBank.ResetKeepsZero | Source/PluginProcessor.cpp:264 | a reset never puts a non-zero sample into an all-zero bank |
| DelayLineBank.WrapReadIndex | Source/PluginProcessor.cpp:181-183 | the read cursor is `w - d` when that is non-negative, and `w - d + 256` otherwise; it lies in [0, 256) and equals `(w - d) mod 256` when `w` is in range and `0 <= d <= 256`; it stays negative when `w - d < -256` |
| DelayLineBank.DelayLane | Source/PluginProcessor.cpp:181-189 | in one block a delayed channel outputs the line's sample under the read cursor at every position; the only line slot written is the one under the write cursor, which takes that same value; nothing is written when the block is empty |
| DelayLineBank.DelayLaneOfZeroLine | Source/PluginProcessor.cpp:185-189 | an all-zero delay line stays all zero and outputs silence |
| DelayLineBank.ResetKeepsWriteCursorsAtStart | Source/PluginProcessor.cpp:268 | a reset only adds write cursors at slot 0, so write cursors all at slot 0 stay that way |
| BeamformerEngine.Factor | Source/PluginProcessor.cpp:173-177 | the shared delay per unit of multiplier, `sampleRate * spacing * cos / 345`; for a positive rate and spacing it has the sign of the cosine |
| BeamformerEngine.Delay | Source/PluginProcessor.cpp:173-177 | the rounded delay for multiplier `m` (`delSampleMax` is `Delay(N)`, the loop's first `delSamples` is `Delay(channel + 1)`) lies within 0.5 of `m * Factor`; its sign in the positive case is in `DelayNonNegativeWhenMaxPositive` |
| BeamformerEngine.Round | Source/PluginProcessor.cpp:173 | C `round`: the nearest integer, with halfway cases away from zero |
| BeamformerEngine.DelayNonNegativeWhenMaxPositive | Source/PluginProcessor.cpp:173-179 | when `delSampleMax > 0` every per-channel delay `Delay(m)` with `m >= 0` is non-negative |
| BeamformerEngine.EndfireExample | Source/PluginProcessor.cpp:173-189 | 4 microphones, 5 cm spacing, 48 kHz, cosine 1: `delSampleMax` is 28 and channels 1, 2, 3 get delays 7, 14, 21; channel 0 is not delayed |
| BeamformerEngine.ReverseEndfireExample | Source/PluginProcessor.cpp:173-208 | the same array with cosine -1: `delSampleMax` is -28 and channels 0, 1, 2 get delays 21, 14, 7; channel 3 is not delayed |
| BeamformerEngine.DelayOverflowExample | Source/PluginProcessor.cpp:177-183 | a registered configuration (64 microphones, 5 cm, 48 kHz, cosine 1) gives channel 63 a delay of 438 > 256, so `RoutesFit` fails; from the write cursor the processor actually holds (slot 0, kept by `Valid`) the read cursor stays negative after the wraparound |
| BeamformerEngine.LoopDelSamplesIsPlannedDelay | Source/PluginProcessor.cpp:177-196 | the value left in `delSamples` by iteration `k` is the delay that iteration applies, and 0 when it routes nothing |
| BeamformerEngine.Plan | Source/PluginProcessor.cpp:175-212 | loop iteration `k` routes, with a non-negative delay, exactly the channel whose per-channel delay it applies, or skips a channel with no delay when `delSampleMax <= 0` |
| BeamformerEngine.PlanRoutesDelayedChannel | Source/PluginProcessor.cpp:175-212 | conversely, every channel with a delay is routed by its loop iteration (`c - 1` when `delSampleMax > 0`, else `c`) with that delay |
| BeamformerEngine.Apply | Source/PluginProcessor.cpp:181-205 | one loop iteration keeps the bank well-formed, keeps every channel's length and never moves a write cursor |
| BeamformerEngine.ApplyEffect | Source/PluginProcessor.cpp:181-205 | one loop iteration changes only the channel it routes, and that one by `DelayLane` |
| BeamformerEngine.AlignFrom | Source/PluginProcessor.cpp:175-213 | the channel loop keeps the bank well-formed, keeps the channel lengths and never moves a write cursor |
| BeamformerEngine.AlignFromEffect | Source/PluginProcessor.cpp:175-213 | across the rest of the channel loop from iteration `k`, a delayed channel still to be handled becomes `DelayLane` of its current state; every other channel, its line and its read cursor are unchanged |
| BeamformerEngine.PositiveCaseRouting | Source/PluginProcessor.cpp:179-190 | with `delSampleMax > 0`, channel 0, its line and its read cursor are left alone; each channel `c` in 1..N-1 goes through its line with delay `Delay(c)`, even when that is 0, and its samples, line and read cursor become those of `DelayLane` |
| BeamformerEngine.NonPositiveCaseRouting | Source/PluginProcessor.cpp:193-212 | with `delSampleMax <= 0`, channel `c` in 0..N-2 goes through its line with delay `abs(delSampleMax - Delay(c+1))` unless that is 0, and its samples, line and read cursor become those of `DelayLane`; channel N-1 and the zero-delay channels keep samples, line and read cursor |
| BeamformerEngine.AlignFromKeepsZeroLine | Source/PluginProcessor.cpp:185-205 | over the channel loop an all-zero line stays all zero, and its channel comes out silent if it is delayed |
| BeamformerEngine.AlignFromKeepsZeroBank | Source/PluginProcessor.cpp:175-213 | the channel loop keeps an all-zero bank all zero, and every delayed channel then carries only zeros |
| BeamformerEngine.ChannelSum | Source/PluginProcessor.cpp:215-220 | the running sum of channels 0..n-1 at one sample, added in channel order as the sum loop does; its properties are in `ChannelSumOfEqual`, `ChannelSumOfSilentRest` and `Mean` |
| BeamformerEngine.ChannelSumOfEqual | Source/PluginProcessor.cpp:215-220 | the running sum of `n` channels that all hold `v` is `n * v` |
| BeamformerEngine.ChannelSumOfSilentRest | Source/PluginProcessor.cpp:215-220 | when channels 1..n-1 are silent, the running sum is channel 0's own sample |
| BeamformerEngine.Mean | Source/PluginProcessor.cpp:215-222 | the definition `Mix` and `MixDown` are proved against: the running sum divided by `n`, with the sum restored by multiplying by `n` (the properties of the mix are in `MixOfEqualChannels` and `MixOfSilentRest`) |
| BeamformerEngine.Mix | Source/PluginProcessor.cpp:215-222 | after the mix, channel 0 holds the mean of channels 0..N-1 at each sample; every other channel, including those at N and beyond, is unchanged; the shape is kept |
| BeamformerEngine.MixOfEqualChannels | Source/PluginProcessor.cpp:215-222 | when the N mixed channels all hold `v` at a sample, channel 0 holds `v` there |
| BeamformerEngine.MixOfSilentRest | Source/PluginProcessor.cpp:215-222 | when channels 1..N-1 are silent at a sample, channel 0 holds its own sample divided by N there |
| BeamformerEngine.ClearChannels | Source/PluginProcessor.cpp:162-163 | output channels `totalIn..totalOut-1` become all zero; every other channel is unchanged |
| BeamformerEngine.PreparedBank | Source/PluginProcessor.cpp:146-149 | the bank after the reset trigger: `ResetBank` when the count differs from `prevNumMicrophones`, else the bank itself; its properties are in `PreparedBankIffSameCount` |
| BeamformerEngine.PreparedBankIffSameCount | Source/PluginProcessor.cpp:146-149 | the bank is left as it is if and only if the microphone count equals `prevNumMicrophones`; either way it comes out sized for N |
| BeamformerEngine.AlignedBlock | Source/PluginProcessor.cpp:146-213 | a block up to its mix keeps the bank sized for N, keeps the audio's shape, and leaves the write cursors as the reset left them |
| BeamformerEngine.Block | Source/PluginProcessor.cpp:144-224 | a whole block as a function of values: `AlignedBlock`, then `Mix` into channel 0; `ProcessBlock` is proved against it, and its properties are in `BlockBank`, `BlockOtherChannels`, `BlockKeepsZeroBank`, `BlockKeepsWriteCursorsAtStart` and `PositiveCaseOutputIsChannelZero` |
| BeamformerEngine.LoopDelSamples | Source/PluginProcessor.cpp:177-195 | the value iteration `k` leaves in `delSamples`: `Delay(k + 1)`, or `abs(delSampleMax - Delay(k + 1))` when `delSampleMax <= 0`; `LoopDelSamplesIsPlannedDelay` ties it to `Plan` |
| BeamformerEngine.BlockKeepsWriteCursorsAtStart | Source/PluginProcessor.cpp:144-224 | write cursors all at slot 0 are still all at slot 0 after a block |
| BeamformerEngine.BlockBank | Source/PluginProcessor.cpp:144-224 | across a block the bank comes out sized for N, and the write cursors are those after the reset step: they never advance |
| BeamformerEngine.BlockOtherChannels | Source/PluginProcessor.cpp:162-222 | across a block, channels 1..N-1 hold what the channel loop left, and channels N and beyond hold what the zero-fill left |
| BeamformerEngine.BlockKeepsZeroBank | Source/PluginProcessor.cpp:144-224 | an all-zero bank stays all zero across a block, however the count, spacing or direction change |
| BeamformerEngine.PositiveCaseAlignedSilence | Source/PluginProcessor.cpp:175-190 | with an all-zero bank and `delSampleMax > 0`, the channel loop leaves channel 0 unchanged and silences channels 1..N-1 |
| BeamformerEngine.PositiveCaseOutputIsChannelZero | Source/PluginProcessor.cpp:144-224 | with an all-zero bank and `delSampleMax > 0`, the block's output in channel 0 is channel 0's input divided by N: no other microphone ever reaches the output |
| PluginProcessor.ClearUnusedOutputs | Source/PluginProcessor.cpp:162-163 | the buffer afterwards holds `ClearChannels` of its old contents |
| PluginProcessor.MixDown | Source/PluginProcessor.cpp:215-222 | the sum loop and the division loop leave the buffer holding `Mix` of its old contents |
| PluginProcessor.BeamMaxxAudioProcessor.constructor | Source/PluginProcessor.cpp:13-33 | a new processor has an empty bank: no lines and no cursors, so `Consistent` holds, including "every write cursor at slot 0" |
| PluginProcessor.BeamMaxxAudioProcessor.ResetDelays | Source/PluginProcessor.cpp:259-270 | the bank becomes `ResetBank` of the old bank, `prevNumMicrophones` becomes the count, and the delay fields and sample rate are unchanged; the write cursors stay at slot 0 (`Valid`) |
| PluginProcessor.BeamMaxxAudioProcessor.PrepareToPlay | Source/PluginProcessor.cpp:102-108 | stores the sample rate, then resets the bank for the current count |
| PluginProcessor.BeamMaxxAudioProcessor.DelayChannel | Source/PluginProcessor.cpp:181-189 | the read cursor, delay line and buffer channel become those of `DelayLane`; nothing else changes |
| PluginProcessor.BeamMaxxAudioProcessor.ChannelIteration | Source/PluginProcessor.cpp:177-212 | one loop iteration leaves bank and buffer as `Apply(Plan(k))` of the previous state, and `delSamples` as that iteration's value |
| PluginProcessor.BeamMaxxAudioProcessor.AlignChannels | Source/PluginProcessor.cpp:175-213 | the whole channel loop leaves bank and buffer as `AlignFrom(0)` of the starting state, and `delSamples` as the last iteration's value |
| PluginProcessor.BeamMaxxAudioProcessor.ProcessBlock | Source/PluginProcessor.cpp:144-224 | after a block the bank and buffer are `Block` of the old state: reset on a count change, zero-fill, channel loop, mix. `prevNumMicrophones` is N, `delSampleMax` is `Delay(N)`, `delSamples` is the last iteration's value, `Valid` is kept (so every write cursor stays at slot 0), and an all-zero bank stays all zero |

## Left out

- The editor and GUI, the program and preset functions, state save and restore, and the bus-layout negotiation are not part of this model. They do not touch the delay lines or the audio.
- The host supplies the input and output channel counts. `ProcessBlock` takes them as parameters `totalIn` and `totalOut`.
- Parameters are read through `std::atomic<float>` pointers. Each block sees one snapshot (`Config`), taken as a parameter. Concurrent changes during a block are not modelled.
- `cos` of the direction is not computed. The cosine's value is an input in [-1, 1], so the degrees-as-radians mix-up is kept only in the sense that any cosine value is allowed.
- Audio samples, the sample rate and the delay arithmetic are exact reals, not IEEE floats. Rounding error, denormals (`ScopedNoDenormals`) and the `/ N` of a float are not modelled.
- `prevNumMicrophones`, `delSampleMax` and `delSamples` are `float` fields in the source. The model keeps them as integers: they are only ever given whole-number values, and those are small enough that a float holds them exactly.
- `BeamMaxxAudioProcessor.constructor`: the source leaves `prevNumMicrophones`, `delSampleMax`, `delSamples` and `sampleRate` uninitialised. The constructor does not assign them, so they are arbitrary, and it promises nothing about them.
- `BeamMaxxAudioProcessor.ProcessBlock`: requires every applied delay to be at most 256 (`RoutesFit`). A larger delay leaves the read cursor negative after the single wraparound, and the source then reads outside the line. That undefined behaviour is not modelled. It is reachable inside the registered parameter ranges: `DelayOverflowExample` shows 64 microphones 5 cm apart at 48 kHz with cosine 1 asking for a delay of 438. At 50 cm spacing and cosine 1, it already happens with 5 microphones (channel 4 asks for 278). The theorem of `ProcessBlock` covers only the configurations that satisfy `RoutesFit`.
- `BeamMaxxAudioProcessor.ProcessBlock`: also requires the bank to be sized for `prevNumMicrophones`, with every write cursor at slot 0 (`Valid`). `PrepareToPlay` establishes this, and the host calls `prepareToPlay` before any block.
- `DBG(delSampleMax)` is debug output; it is left out.
- `releaseResources` and the destructor do nothing in the source and are not modelled.
