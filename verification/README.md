# JavaSynth sound engine in Dafny

This project models the tone-rendering core of JavaSynth, an additive
synthesiser. It covers the package `de.mmth.javasynth.sound`:

- `Globals` holds the tone-wide settings: loudness, attack, sustain, pitch and
  a fixed sample rate of 44100.
- `Harmonic` holds one partial: a fixed overtone number, a loudness, a decay, an
  on/off switch, and the phase step `delta` that the renderer writes.
- `AudioBuffer` renders the settings into a signed 16-bit little-endian PCM byte
  array, in place. One pass of `updateBuffer()` does five things:
  - it collects the active harmonics in array order;
  - it sizes the byte array, allocating a new one only when the length changes;
  - it sets each active harmonic's phase step;
  - it writes the attack, sustain and decay segments back to back through a
    byte cursor;
  - each sample is clamped to the `short` range and stored low byte first.
- `Synthesis` builds the harmonic bank with overtones 1..n. It gives the
  renderer the very same settings and harmonic objects that its getters return,
  and `run()` delegates to `updateBuffer()`.

The model keeps the source's form. The four classes are Dafny classes with the
same fields. Every loop of the source is a `while` or `for` loop, and each is
proved against a specification function on values:

| module | file | what it holds |
|---|---|---|
| `JavaNum` | `java_num.dfy` | Java's narrowing casts, `Math.round`, `Math.max`, the clamp, and the byte split of one sample |
| `Pcm` | `pcm.dfy` | the encoding of a sample sequence, its decoding, and `Splice` (a byte run written into a buffer) |
| `Settings` | `globals.dfy` | class `Globals` |
| `Harmonics` | `harmonic.dfy` | class `Harmonic` |
| `Rendering` | `rendering.dfy` | what one render pass computes, as values: `Tone`, segment lengths, samples, `RenderBytes`, `ByteLength` |
| `Engine` | `audio_buffer.dfy` | the active-set functions and class `AudioBuffer` |
| `Synth` | `synthesis.dfy` | class `Synthesis` |

The headline results:

- After `UpdateBuffer` the active list is exactly the active harmonics, in order.
- The buffer has `ByteLength` bytes. It is the old array when the length is
  unchanged, and a fresh zeroed one otherwise.
- The buffer's first bytes are `RenderBytes`: the attack, sustain and decay
  samples, two bytes each, back to back. Decoded, they give those samples back.
- A second `UpdateBuffer` with unchanged settings leaves the array and its
  contents exactly as they were.

Behaviour the model keeps as the code has it:

- The phase step is `(π · overtone + pitch) / 44100`, with `+`. A `*` would
  make the partials integer multiples of the pitch.
  `PhaseStepSpacing` shows the effect: neighbouring overtones sit a fixed π/44100
  apart whatever the pitch.
- No sample is scaled by 32767. The decay samples ignore the global loudness.
- The decay time advances by `1 / (maxDecay · 44100)` per sample, so it runs
  from 0 towards 1. It does not advance by `1 / 44100`.
- The buffer length is `2 · 44100 · (int)(attack + sustain + toneLength)` in
  32-bit arithmetic. `toneLength` already contains attack and sustain, so both
  are counted twice.
- The product wraps for tones of 24348 s or more. `ByteLengthExact` gives the
  exact length below that.
- The writes are not checked against the array length. With attack and sustain
  0 and one 1.4 s decay, the array holds one second but the decay loop writes
  61740 samples (`OverrunWithFractionalDecay`). The model therefore makes the
  in-bounds condition (`Renderable`) an explicit precondition of `UpdateBuffer`
  and of `Run`.
- `AudioBuffer` reads `h.delta`, `h.loudness` and `h.decay` directly. In
  `Harmonic.java` the last two fields are private and `delta` does not exist.
  The model's `Harmonic` has all three as fields, `delta` among them.

## Model

| member | source | states |
|---|---|---|
| JavaNum.Int32 | src/main/java/de/mmth/javasynth/sound/AudioBuffer.java:42-45 | 32-bit `int` arithmetic: the result is an `int`, congruent to the exact value mod 2^32, and equal to it when it fits |
| JavaNum.Int16 | src/main/java/de/mmth/javasynth/sound/AudioBuffer.java:180 | the `(short)` narrowing is congruent mod 2^16 and exact inside the `short` range |
| JavaNum.Int8 | src/main/java/de/mmth/javasynth/sound/AudioBuffer.java:103-104 | the `(byte)` narrowing is congruent mod 2^8 and exact inside the `byte` range |
| JavaNum.Trunc | src/main/java/de/mmth/javasynth/sound/AudioBuffer.java:41 | rounding toward zero: within 1 below a non-negative value, within 1 above a negative one |
| JavaNum.Ceil | src/main/java/de/mmth/javasynth/sound/AudioBuffer.java:148 | the least integer not below its argument: the number of passes of `for (i = 0; i < length; i++)` with a `double` bound |
| JavaNum.DoubleToInt | src/main/java/de/mmth/javasynth/sound/AudioBuffer.java:41 | the `(int)` cast of a `double` truncates, and saturates at both ends of the `int` range |
| JavaNum.RoundToLong | src/main/java/de/mmth/javasynth/sound/AudioBuffer.java:95 | `Math.round` gives the nearest `long`, within one half, and saturates outside the `long` range |
| JavaNum.MathMax | src/main/java/de/mmth/javasynth/sound/AudioBuffer.java:141 | `Math.max` is at least both arguments and is one of them |
| JavaNum.Clamp | src/main/java/de/mmth/javasynth/sound/AudioBuffer.java:174-178 | the clamped sum lies in the `short` range, is the sum when that fits, and is the nearest bound otherwise |
| JavaNum.ShortCast | src/main/java/de/mmth/javasynth/sound/AudioBuffer.java:180 | definition: `(short)` of a `double`, narrowing through `int` and then to 16 bits |
| JavaNum.Saturate | src/main/java/de/mmth/javasynth/sound/AudioBuffer.java:199-205 | definition: the stored sample, the nearest bound for an out-of-range sum and the truncated sum otherwise |
| JavaNum.SaturateIsCast | src/main/java/de/mmth/javasynth/sound/AudioBuffer.java:174-180 | clamping and then casting to `short` gives `Saturate` of the sum |
| JavaNum.SaturateMono | src/main/java/de/mmth/javasynth/sound/AudioBuffer.java:199-205 | the stored sample never wraps: it is monotone in the sum and keeps its sign |
| JavaNum.CastWithoutClampWraps | src/main/java/de/mmth/javasynth/sound/AudioBuffer.java:180 | the cast alone would turn 32768 into -32768; the clamp turns it into 32767 |
| JavaNum.LowByte | src/main/java/de/mmth/javasynth/sound/AudioBuffer.java:103 | definition: `(byte) value`, the low byte |
| JavaNum.HighByte | src/main/java/de/mmth/javasynth/sound/AudioBuffer.java:104 | definition: `(byte) (value >> 8)`, with `>>` as floor division by 256 |
| JavaNum.EncodeDecode16 | src/main/java/de/mmth/javasynth/sound/AudioBuffer.java:103-104 | the unsigned low byte plus 256 times the signed high byte gives the sample back |
| Pcm.Encode | src/main/java/de/mmth/javasynth/sound/AudioBuffer.java:103-104 | a sample sequence encodes to exactly two bytes per sample |
| Pcm.EncodeAt | src/main/java/de/mmth/javasynth/sound/AudioBuffer.java:103-104 | sample k sits at byte 2k (its low byte) and byte 2k+1 (its high byte) |
| Pcm.EncodeSnoc | src/main/java/de/mmth/javasynth/sound/AudioBuffer.java:103-104 | one more sample appends its byte pair |
| Pcm.EncodeAppend | src/main/java/de/mmth/javasynth/sound/AudioBuffer.java:80-84 | the encoding of a concatenation is the concatenation of the encodings |
| Pcm.DecodeEncode | src/main/java/de/mmth/javasynth/sound/AudioBuffer.java:103-104 | decoding the written bytes gives back exactly the samples |
| Pcm.EncodeSilence | src/main/java/de/mmth/javasynth/sound/AudioBuffer.java:103-104 | all-zero samples encode as zero bytes |
| Pcm.ZerosAppend | src/main/java/de/mmth/javasynth/sound/AudioBuffer.java:45 | two runs of fresh zero bytes make one |
| Pcm.Splice | src/main/java/de/mmth/javasynth/sound/AudioBuffer.java:103-104 | writing a byte run into a buffer keeps the buffer's length |
| Pcm.SpliceAt | src/main/java/de/mmth/javasynth/sound/AudioBuffer.java:103-104 | inside the written run the buffer holds the run's bytes; outside it, the old bytes |
| Pcm.SpliceStep | src/main/java/de/mmth/javasynth/sound/AudioBuffer.java:103-104 | writing one more byte pair right after the run extends the run by that pair |
| Pcm.SpliceNext | src/main/java/de/mmth/javasynth/sound/AudioBuffer.java:103-104 | writing the pair of sample i after samples 0..i-1 gives the run of samples 0..i |
| Pcm.SpliceThree | src/main/java/de/mmth/javasynth/sound/AudioBuffer.java:80-84 | three runs written back to back, each starting where the previous one ended, are one run of their concatenation |
| Pcm.SpliceSame | src/main/java/de/mmth/javasynth/sound/AudioBuffer.java:39-53 | writing a buffer's own prefix over it changes nothing |
| Pcm.SplicePrefix | src/main/java/de/mmth/javasynth/sound/AudioBuffer.java:39-53 | after a run is written from byte 0 on, the buffer's prefix of that length is the run |
| Settings.Globals.constructor | src/main/java/de/mmth/javasynth/sound/Globals.java:13-17 | defaults: loudness 0.5, attack 0.5, sustain 0.5, pitch 440, sample rate 44100 |
| Settings.Globals.GetLoudness | src/main/java/de/mmth/javasynth/sound/Globals.java:23-25 | returns the stored loudness |
| Settings.Globals.SetLoudness | src/main/java/de/mmth/javasynth/sound/Globals.java:31-33 | stores the loudness unchecked and changes no other field |
| Settings.Globals.GetAttack | src/main/java/de/mmth/javasynth/sound/Globals.java:39-41 | returns the stored attack |
| Settings.Globals.SetAttack | src/main/java/de/mmth/javasynth/sound/Globals.java:47-49 | stores the attack and changes no other field |
| Settings.Globals.GetSustain | src/main/java/de/mmth/javasynth/sound/Globals.java:55-57 | returns the stored sustain |
| Settings.Globals.SetSustain | src/main/java/de/mmth/javasynth/sound/Globals.java:63-65 | stores the sustain and changes no other field |
| Settings.Globals.GetPitch | src/main/java/de/mmth/javasynth/sound/Globals.java:71-73 | returns the stored pitch |
| Settings.Globals.SetPitch | src/main/java/de/mmth/javasynth/sound/Globals.java:79-81 | stores the pitch and changes no other field |
| Settings.Globals.GetSampleRate | src/main/java/de/mmth/javasynth/sound/Globals.java:88-90 | the sample rate has no setter and is 44100 for the object's whole life |
| Harmonics.Harmonic.constructor | src/main/java/de/mmth/javasynth/sound/Harmonic.java:24-28 | a new harmonic has the given overtone, loudness 1/overtone, decay 2 s, and is off |
| Harmonics.Harmonic.SetLoudness | src/main/java/de/mmth/javasynth/sound/Harmonic.java:34-36 | stores the loudness and changes no other field |
| Harmonics.Harmonic.GetLoudness | src/main/java/de/mmth/javasynth/sound/Harmonic.java:42-44 | returns the stored loudness |
| Harmonics.Harmonic.SetDecay | src/main/java/de/mmth/javasynth/sound/Harmonic.java:50-53 | stores the decay and changes no other field |
| Harmonics.Harmonic.GetDecay | src/main/java/de/mmth/javasynth/sound/Harmonic.java:59-61 | returns the stored decay |
| Harmonics.Harmonic.SetActive | src/main/java/de/mmth/javasynth/sound/Harmonic.java:70-72 | switching a harmonic off mutes it: its loudness and decay are kept |
| Harmonics.Harmonic.GetActive | src/main/java/de/mmth/javasynth/sound/Harmonic.java:82-84 | returns the on/off switch |
| Harmonics.Harmonic.GetOvertoneNumber | src/main/java/de/mmth/javasynth/sound/Harmonic.java:90-92 | returns the overtone number, a constant of the object |
| Rendering.PhaseStep | src/main/java/de/mmth/javasynth/sound/AudioBuffer.java:49 | definition: `(π · overtone + pitch) / 44100` |
| Rendering.Mix | src/main/java/de/mmth/javasynth/sound/AudioBuffer.java:193-196 | definition: the sum, in order, of `sin(delta · position) · loudness` over the voices |
| Rendering.Sample | src/main/java/de/mmth/javasynth/sound/AudioBuffer.java:190-206 | definition: an attack or sustain sample, the mix times the gain, saturated |
| Rendering.DecayGain | src/main/java/de/mmth/javasynth/sound/AudioBuffer.java:169 | definition: `loudness · (decay - time) / decay` of a voice still sounding |
| Rendering.FadedPart | src/main/java/de/mmth/javasynth/sound/AudioBuffer.java:169 | definition: a sounding voice's sine times its decay gain |
| Rendering.DecayMix | src/main/java/de/mmth/javasynth/sound/AudioBuffer.java:167-172 | definition: the sum, in order, of the faded parts of the voices with `time < decay` |
| Rendering.DecaySample | src/main/java/de/mmth/javasynth/sound/AudioBuffer.java:164-181 | definition: the decay mix, saturated; the global loudness plays no part |
| Rendering.SegmentLength | src/main/java/de/mmth/javasynth/sound/AudioBuffer.java:95 | definition: `(int) Math.round(seconds · 44100)` |
| Rendering.AttackCount | src/main/java/de/mmth/javasynth/sound/AudioBuffer.java:90-100 | definition: no samples if attack < 0.01, else the passes of the attack loop |
| Rendering.SustainCount | src/main/java/de/mmth/javasynth/sound/AudioBuffer.java:116-124 | definition: no samples if sustain < 0.01, else the passes of the sustain loop |
| Rendering.DecayCount | src/main/java/de/mmth/javasynth/sound/AudioBuffer.java:144-148 | definition: the passes of the decay loop, ceil(maxDecay · 44100) |
| Rendering.DecayStep | src/main/java/de/mmth/javasynth/sound/AudioBuffer.java:145 | definition: the decay time step `1 / (maxDecay · 44100)` |
| Rendering.DecayAt | src/main/java/de/mmth/javasynth/sound/AudioBuffer.java:148-149 | definition: decay sample i, taken at its decay time |
| Rendering.ToneLength | src/main/java/de/mmth/javasynth/sound/AudioBuffer.java:214-221 | definition: attack + sustain + the longest decay |
| Rendering.Seconds | src/main/java/de/mmth/javasynth/sound/AudioBuffer.java:41 | definition: `(int)(attack + sustain + toneLength)`, attack and sustain counted twice |
| Rendering.ByteLength | src/main/java/de/mmth/javasynth/sound/AudioBuffer.java:41-45 | definition: `2 · (seconds · 44100)` in 32-bit `int` arithmetic |
| Rendering.Renderable | src/main/java/de/mmth/javasynth/sound/AudioBuffer.java:41-153 | definition: the pass completes without an exception; the length is not negative and all segments fit |
| Rendering.Ramp | src/main/java/de/mmth/javasynth/sound/AudioBuffer.java:97-102 | definition: the attack gain of sample i, 0 plus i steps of `loudness / length` |
| Rendering.AttackAt | src/main/java/de/mmth/javasynth/sound/AudioBuffer.java:100-101 | definition: attack sample i, the mix at the ramp gain |
| Rendering.Samples | src/main/java/de/mmth/javasynth/sound/AudioBuffer.java:80-84 | definition: attack, sustain and decay samples in time order |
| Rendering.PhaseStepSpacing | src/main/java/de/mmth/javasynth/sound/AudioBuffer.java:49 | because of the `+`, neighbouring overtones are π/44100 apart whatever the pitch |
| Rendering.MixSnoc | src/main/java/de/mmth/javasynth/sound/AudioBuffer.java:193-196 | one more harmonic adds `sin(delta · position) · loudness` to the sum |
| Rendering.SampleOf | src/main/java/de/mmth/javasynth/sound/AudioBuffer.java:198-205 | an attack or sustain sample is the saturated product of the mix and the gain |
| Rendering.DecayMixSnoc | src/main/java/de/mmth/javasynth/sound/AudioBuffer.java:167-172 | one more harmonic adds its faded part while `time < decay`, and nothing after that |
| Rendering.DecayGainBounds | src/main/java/de/mmth/javasynth/sound/AudioBuffer.java:168-169 | the decay gain divides by a positive decay only; it starts at the loudness and stays between 0 and the loudness |
| Rendering.DecayGainFades | src/main/java/de/mmth/javasynth/sound/AudioBuffer.java:168-169 | a harmonic with a positive loudness fades strictly as the decay time runs on |
| Rendering.MaxDecay | src/main/java/de/mmth/javasynth/sound/AudioBuffer.java:215-218 | the running maximum from 0 is at least 0, at least every decay, and is 0 or one of the decays |
| Rendering.DecayLoop | src/main/java/de/mmth/javasynth/sound/AudioBuffer.java:144-148 | the decay loop runs DecayCount = ceil(maxDecay · 44100) times, and its step is DecayStep when it runs at all |
| Rendering.DecayTime | src/main/java/de/mmth/javasynth/sound/AudioBuffer.java:145-150 | the decay time is never negative |
| Rendering.TimeStep | src/main/java/de/mmth/javasynth/sound/AudioBuffer.java:145-150 | each decay sample advances the time by one step |
| Rendering.ByteLengthOf | src/main/java/de/mmth/javasynth/sound/AudioBuffer.java:41-44 | the length `updateBuffer()` computes is ByteLength of the tone |
| Rendering.ByteLengthExact | src/main/java/de/mmth/javasynth/sound/AudioBuffer.java:41-45 | below 24348 s nothing wraps: the length is 2 · 44100 · trunc(attack + sustain + toneLength) |
| Rendering.RampStep | src/main/java/de/mmth/javasynth/sound/AudioBuffer.java:97-102 | each attack sample raises the gain by `loudness / length` |
| Rendering.RampClosed | src/main/java/de/mmth/javasynth/sound/AudioBuffer.java:97-102 | the gain of attack sample i is i · (loudness / length) |
| Rendering.RampMono | src/main/java/de/mmth/javasynth/sound/AudioBuffer.java:97-102 | with a non-negative step the gain never falls; with a positive step it rises strictly |
| Rendering.RampRises | src/main/java/de/mmth/javasynth/sound/AudioBuffer.java:97-102 | the attack gain starts at 0, never decreases for a non-negative loudness, and stays below a positive loudness |
| Rendering.AttackSamples | src/main/java/de/mmth/javasynth/sound/AudioBuffer.java:90-105 | none if attack < 0.01, else one sample per pass of the attack loop |
| Rendering.SustainSamples | src/main/java/de/mmth/javasynth/sound/AudioBuffer.java:116-128 | none if sustain < 0.01, else one sample per pass of the sustain loop |
| Rendering.DecaySamples | src/main/java/de/mmth/javasynth/sound/AudioBuffer.java:138-153 | DecayCount samples |
| Rendering.RenderBytes | src/main/java/de/mmth/javasynth/sound/AudioBuffer.java:80-84 | two bytes per attack, sustain and decay sample |
| Rendering.RenderLayout | src/main/java/de/mmth/javasynth/sound/AudioBuffer.java:80-84 | the three segments lie back to back without gap or overlap: the bytes are the encoding of all samples, and decode to the attack, sustain and decay samples in order |
| Rendering.SilentSample | src/main/java/de/mmth/javasynth/sound/AudioBuffer.java:190-206 | with no active harmonic an attack or sustain sample is 0 |
| Rendering.SilentWithoutVoices | src/main/java/de/mmth/javasynth/sound/AudioBuffer.java:80-84 | with no active harmonic every byte written is 0 and there is no decay segment |
| Rendering.OverrunWithFractionalDecay | src/main/java/de/mmth/javasynth/sound/AudioBuffer.java:41-45 | attack 0, sustain 0 and one 1.4 s decay: 88200 bytes are allocated but 61740 samples are due, so the pass runs past the end |
| Rendering.OneSecondDecayFits | src/main/java/de/mmth/javasynth/sound/AudioBuffer.java:41-45 | one 1 s decay and nothing else: 44100 decay samples fill the 88200 bytes exactly |
| Rendering.DefaultsFit | src/main/java/de/mmth/javasynth/sound/AudioBuffer.java:41-45 | the default envelope with 2 s decays renders inside its buffer |
| Engine.ActiveIndices | src/main/java/de/mmth/javasynth/sound/AudioBuffer.java:68-74 | the listed positions are in range and on active entries |
| Engine.ActiveFlags | src/main/java/de/mmth/javasynth/sound/AudioBuffer.java:62-63 | definition: the `active` flag of each harmonic, in array order |
| Engine.ActiveOf | src/main/java/de/mmth/javasynth/sound/AudioBuffer.java:60-75 | definition: the harmonics at the set flags, in array order |
| Engine.VoicesOf | src/main/java/de/mmth/javasynth/sound/AudioBuffer.java:167-169 | definition: what the fill loops read of each active harmonic: phase step, loudness, decay |
| Engine.TunedVoices | src/main/java/de/mmth/javasynth/sound/AudioBuffer.java:48-50 | definition: the voices with the phase step the pitch gives each overtone |
| Engine.IndicesSorted | src/main/java/de/mmth/javasynth/sound/AudioBuffer.java:68-74 | the positions are strictly increasing |
| Engine.IndicesComplete | src/main/java/de/mmth/javasynth/sound/AudioBuffer.java:68-74 | every active position is listed |
| Engine.IndicesStep | src/main/java/de/mmth/javasynth/sound/AudioBuffer.java:62-66 | scanning one more harmonic appends its position when it is active |
| Engine.IndicesPrefix | src/main/java/de/mmth/javasynth/sound/AudioBuffer.java:70-74 | a scanned prefix lists a prefix of the positions |
| Engine.ActiveOfMembers | src/main/java/de/mmth/javasynth/sound/AudioBuffer.java:60-75 | the active list holds active harmonics only, and all of them |
| Engine.ActiveOfOrder | src/main/java/de/mmth/javasynth/sound/AudioBuffer.java:60-75 | entry k is the harmonic at the k-th active position, the positions increase, and none is missing |
| Engine.MaxDecayOfDecays | src/main/java/de/mmth/javasynth/sound/AudioBuffer.java:215-218 | the longest decay depends on the decays alone |
| Engine.AudioBuffer.constructor | src/main/java/de/mmth/javasynth/sound/AudioBuffer.java:13-26 | keeps the injected settings and harmonics; the buffer starts empty |
| Engine.AudioBuffer.GetBuffer | src/main/java/de/mmth/javasynth/sound/AudioBuffer.java:32-34 | returns the current array itself |
| Engine.AudioBuffer.Requested | src/main/java/de/mmth/javasynth/sound/AudioBuffer.java:39-50 | definition: the tone the current settings and active harmonics describe, with fresh phase steps |
| Engine.AudioBuffer.Loaded | src/main/java/de/mmth/javasynth/sound/AudioBuffer.java:80-221 | definition: the tone the fill loops read: the active list with its stored phase steps |
| Engine.AudioBuffer.Rendered | src/main/java/de/mmth/javasynth/sound/AudioBuffer.java:39-53 | definition: the buffer has ByteLength bytes and starts with RenderBytes of the requested tone |
| Engine.AudioBuffer.UpdateBuffer | src/main/java/de/mmth/javasynth/sound/AudioBuffer.java:39-53 | active list exact; length ByteLength; same array iff same length, else fresh; contents RenderBytes over the old or zeroed array; a rerender with unchanged settings changes nothing |
| Engine.AudioBuffer.Prepare | src/main/java/de/mmth/javasynth/sound/AudioBuffer.java:39-50 | after the active set, the length and the phase steps, the loaded tone is the requested one and the array is sized |
| Engine.AudioBuffer.ResizeBuffer | src/main/java/de/mmth/javasynth/sound/AudioBuffer.java:41-46 | the array gets ByteLength bytes; it is the same array when the length matches, else a fresh zeroed one |
| Engine.AudioBuffer.SameLength | src/main/java/de/mmth/javasynth/sound/AudioBuffer.java:41-49 | before the phase steps are written the length is already that of the requested tone |
| Engine.AudioBuffer.ActiveInHarmonics | src/main/java/de/mmth/javasynth/sound/AudioBuffer.java:60-75 | the active list and the active harmonics of the array are the same objects |
| Engine.AudioBuffer.TuneActive | src/main/java/de/mmth/javasynth/sound/AudioBuffer.java:48-50 | exactly the active harmonics get `PhaseStep(overtone, pitch)`; the inactive keep their phase step |
| Engine.AudioBuffer.SettingsKept | src/main/java/de/mmth/javasynth/sound/AudioBuffer.java:80-84 | writing only the buffer leaves the active set and the requested tone as they were |
| Engine.AudioBuffer.LoadedKept | src/main/java/de/mmth/javasynth/sound/AudioBuffer.java:100-105 | writing only the buffer leaves the rendered tone as it was |
| Engine.AudioBuffer.RequestedKept | src/main/java/de/mmth/javasynth/sound/AudioBuffer.java:48-50 | changing only phase steps leaves the active set and the requested tone as they were |
| Engine.AudioBuffer.LoadedIsRequested | src/main/java/de/mmth/javasynth/sound/AudioBuffer.java:48-50 | once every active harmonic has its phase step, the fill loops play the requested tone |
| Engine.AudioBuffer.UpdateActiveHarmonics | src/main/java/de/mmth/javasynth/sound/AudioBuffer.java:60-75 | the active list is exactly the active harmonics in array order |
| Engine.AudioBuffer.CountActive | src/main/java/de/mmth/javasynth/sound/AudioBuffer.java:61-66 | the count is the number of active harmonics |
| Engine.AudioBuffer.CopyActive | src/main/java/de/mmth/javasynth/sound/AudioBuffer.java:68-74 | a new array of the counted size holds the active harmonics in order |
| Engine.AudioBuffer.Fill | src/main/java/de/mmth/javasynth/sound/AudioBuffer.java:80-84 | from byte 0 on, the array holds RenderBytes; every other byte is unchanged |
| Engine.AudioBuffer.FillAttack | src/main/java/de/mmth/javasynth/sound/AudioBuffer.java:90-108 | returns 0 if attack < 0.01, else twice the attack count; writes the attack samples from byte 0 |
| Engine.AudioBuffer.AttackRamp | src/main/java/de/mmth/javasynth/sound/AudioBuffer.java:95-107 | the loop writes sample i at gain Ramp(i) and returns the byte after the last one |
| Engine.AudioBuffer.FillSustain | src/main/java/de/mmth/javasynth/sound/AudioBuffer.java:116-131 | returns its start if sustain < 0.01, else the start plus twice the sustain count; writes the sustain samples from there |
| Engine.AudioBuffer.SustainPlateau | src/main/java/de/mmth/javasynth/sound/AudioBuffer.java:121-130 | the loop writes every sample at the global loudness, restarting the position at 0 |
| Engine.AudioBuffer.FillDecay | src/main/java/de/mmth/javasynth/sound/AudioBuffer.java:138-154 | writes the decay samples from its start position |
| Engine.AudioBuffer.DecayTail | src/main/java/de/mmth/javasynth/sound/AudioBuffer.java:144-153 | the loop writes decay sample i at time DecayTime(i), for ceil(length) samples |
| Engine.AudioBuffer.PutSample | src/main/java/de/mmth/javasynth/sound/AudioBuffer.java:103-104 | low byte at `pos`, high byte at `pos + 1`, nothing else; the written run grows by one sample |
| Engine.AudioBuffer.CalcOneDecaySample | src/main/java/de/mmth/javasynth/sound/AudioBuffer.java:164-181 | the saturated sum of the faded parts of the harmonics still sounding at `time` |
| Engine.AudioBuffer.CalcOneSample | src/main/java/de/mmth/javasynth/sound/AudioBuffer.java:190-206 | the saturated product of the mix and the gain |
| Engine.AudioBuffer.LongestDecay | src/main/java/de/mmth/javasynth/sound/AudioBuffer.java:139-142 | the running `Math.max` is MaxDecay of the active harmonics |
| Engine.AudioBuffer.CalcToneLength | src/main/java/de/mmth/javasynth/sound/AudioBuffer.java:214-221 | attack + sustain + the longest active decay, which is 0 without active harmonics |
| Synth.DefaultDecaysRenderable | src/main/java/de/mmth/javasynth/sound/Synthesis.java:8-16 | with the default envelope and 2 s decays the render pass stays inside its buffer, whatever is on |
| Synth.Synthesis.constructor | src/main/java/de/mmth/javasynth/sound/Synthesis.java:3-6 | before `init` every field is `null` |
| Synth.Synthesis.Shared | src/main/java/de/mmth/javasynth/sound/Synthesis.java:14-15 | definition: the renderer holds the same settings and harmonic array as the fields the getters return |
| Synth.Synthesis.Current | src/main/java/de/mmth/javasynth/sound/Synthesis.java:18-24 | definition: the tone the objects the getters return describe now |
| Synth.Synthesis.Init | src/main/java/de/mmth/javasynth/sound/Synthesis.java:8-16 | n distinct new harmonics with overtone i+1 and loudness 1/(i+1) at index i; new default settings; a renderer sharing both; the default tone can be rendered |
| Synth.Synthesis.NewHarmonics | src/main/java/de/mmth/javasynth/sound/Synthesis.java:9-12 | a new array of n distinct new harmonics, overtone i+1 at index i, each with its constructor defaults |
| Synth.Synthesis.GetHarmonics | src/main/java/de/mmth/javasynth/sound/Synthesis.java:18-20 | returns the very array the renderer reads |
| Synth.Synthesis.GetGlobals | src/main/java/de/mmth/javasynth/sound/Synthesis.java:22-24 | returns the very settings object the renderer reads |
| Synth.Synthesis.Run | src/main/java/de/mmth/javasynth/sound/Synthesis.java:26-29 | the effect of `UpdateBuffer` on the tone the getters' objects describe now: length ByteLength; same array iff same length, else fresh; contents RenderBytes over the old or zeroed array; a rerun with unchanged settings changes nothing |

## Left out

- `System.out.println` in `Harmonic.setDecay` and `Synthesis.run`, and `Harmonic.toString`: console output only.
- Playback (`Audio`), the JavaFX controls and the application start-up are not part of this model.
- IEEE `double` arithmetic. Every `double` is a `real`, so the running sums
  `globalLoudness` and `time` are exact. `Math.sin` is an uninterpreted
  function, passed in as `sine`. NaN and infinity do not exist:
  - `loudness / length` with a zero length is left out; the attack loop does not run then;
  - `1.0 / length` with a zero length is left out; the decay loop does not run then.
- Exceptions. A negative array length or a write past the end would throw in
  Java. `Engine.AudioBuffer.UpdateBuffer` and `Synth.Synthesis.Run` instead
  require `Renderable`, which excludes both. `OverrunWithFractionalDecay` shows
  that the source does not guarantee it.
- Harmonics.Harmonic.constructor: requires a non-zero overtone. Java would store
  an infinite loudness for overtone 0, and reals have no infinity. `init` only
  makes overtones from 1 on.
- Synth.Synthesis.Init: requires `0 <= numberOfHarmonics`. Java throws for a
  negative size.
- Synth.Synthesis.Run: requires `Shared()`, which `Init` establishes. Before
  `init` Java would throw on the `null` renderer.
- Engine.AudioBuffer.UpdateActiveHarmonics: the active list is a `seq` built
  from a local array. Java starts it as `null` and replaces the array; the model
  starts it empty.
- Engine.AudioBuffer.UpdateBuffer: its contract states the phase steps only
  through `Rendered`. `TuneActive` states them per harmonic, and the `modifies`
  clause limits changes to the `delta` field.
- Ghost `Tone` parameters (`t`, `tone`) carry the tone being rendered into the
  helper methods. These helpers are the steps of `updateBuffer()` and of the fill
  methods split into methods of their own: `Prepare`, `ResizeBuffer`,
  `TuneActive`, `CountActive`, `CopyActive`, `LongestDecay`, `AttackRamp`,
  `SustainPlateau`, `DecayTail` and `PutSample`. The statements are the same as
  in the source.
- Synth.Synthesis.NewHarmonics: fills a local array that may hold `null`, then
  copies it into the harmonic array. Java fills the new array in place.
