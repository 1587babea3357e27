/** What one render pass computes, stated on values: the sample counts of the
    attack, sustain and decay segments, the samples themselves, their byte
    encoding and the length of the byte buffer they are written into.  `sine`
    stands for `Math.sin`, which the model does not interpret. */
module Rendering {
  import opened JavaNum
  import opened Pcm
  import Settings

  /** `Math.PI` */
  const PI: real := 3.141592653589793
  /** The sample rate as a `double`. */
  const RATE: real := Settings.SAMPLE_RATE as real
  /** An attack or sustain shorter than this many seconds is skipped. */
  const MIN_SEGMENT: real := 0.01

  /** What the renderer reads of one active harmonic: its phase step, loudness and decay. */
  datatype Voice = Voice(delta: real, loudness: real, decay: real)

  /** What one render pass reads: the global loudness, attack and sustain, and
      the active voices in the order of the harmonic array. */
  datatype Tone = Tone(loudness: real, attack: real, sustain: real, voices: seq<Voice>)

  /** Phase step per sample of an overtone, `(PI * overtone + pitch) / RATE`,
      computed with `+` between the overtone term and the pitch, as the engine
      does.  Here and below the two constants appear as literals. */
  function PhaseStep(overtone: int, pitch: real): real
  {
    (3.141592653589793 * overtone as real + pitch) / 44100.0
  }

  /** Because of the `+`, neighbouring overtones are a fixed π/44100 apart
      whatever the pitch: they are not integer multiples of a base frequency. */
  lemma PhaseStepSpacing(overtone: int, pitch: real)
    ensures PhaseStep(overtone + 1, pitch) - PhaseStep(overtone, pitch) == PI / RATE
  {
  }

  // ---------------------------------------------------------------- one sample

  /** What a voice with phase step `delta` and loudness `loudness` adds to an
      attack or sustain sample before the envelope gain.  The fields are passed
      one by one so that the term matches the one the fill loops compute. */
  function VoicePart(delta: real, loudness: real, sine: real -> real, position: int): real
  {
    sine(delta * position as real) * loudness
  }

  /** The sum of the voice parts, in order. */
  function Mix(vs: seq<Voice>, sine: real -> real, position: int): real
  {
    if vs == [] then 0.0
    else
      var v := vs[|vs| - 1];
      Mix(vs[..|vs| - 1], sine, position) + VoicePart(v.delta, v.loudness, sine, position)
  }

  /** Mixing in one more voice adds its term to the sum. */
  lemma MixSnoc(vs: seq<Voice>, v: Voice, sine: real -> real, position: int)
    ensures Mix(vs + [v], sine, position) == Mix(vs, sine, position) + VoicePart(v.delta, v.loudness, sine, position)
  {
    assert (vs + [v])[..|vs|] == vs;
  }

  /** An attack or sustain sample: the mix scaled by the envelope gain, clamped to a `short`. */
  function Sample(vs: seq<Voice>, sine: real -> real, position: int, gain: real): Short
  {
    Saturate(Mix(vs, sine, position) * gain)
  }

  /** A sample is the saturated product of the mix and the gain, however that product was reached. */
  lemma SampleOf(vs: seq<Voice>, sine: real -> real, position: int, gain: real, mix: real, scaled: real)
    requires mix == Mix(vs, sine, position) && scaled == mix * gain
    ensures Sample(vs, sine, position, gain) == Saturate(scaled)
  {
  }

  /** The decay gain `loudness * (decay - time) / decay` of a voice still sounding at `time`. */
  function DecayGain(loudness: real, decay: real, time: real): real
    requires 0.0 <= time < decay
  {
    loudness * (decay - time) / decay
  }

  /** A voice starts at its loudness and, for a positive loudness, stays between
      nothing and its loudness while it sounds; the division is always by a positive decay. */
  lemma DecayGainBounds(loudness: real, decay: real, time: real)
    requires 0.0 <= time < decay
    ensures 0.0 < decay
    ensures DecayGain(loudness, decay, 0.0) == loudness
    ensures DecayGain(loudness, decay, time) * decay == loudness * (decay - time)
    ensures 0.0 < loudness ==> 0.0 < DecayGain(loudness, decay, time) <= loudness
  {
    DivCancel(loudness, decay);
    if 0.0 < loudness {
      var left, full := loudness * (decay - time), loudness * decay;
      ScaleBelow(0.0, decay - time, loudness);
      assert 0.0 < left;
      DivSign(left, decay);
      ScaleBelow(decay - time, decay, loudness);
      assert left <= full;
      DivBelow(left, full, decay);
    }
  }

  /** Every voice with a positive loudness fades strictly as its decay time runs on. */
  lemma DecayGainFades(loudness: real, decay: real, t1: real, t2: real)
    requires 0.0 <= t1 < t2 < decay
    ensures 0.0 < loudness ==> DecayGain(loudness, decay, t2) < DecayGain(loudness, decay, t1)
  {
    if 0.0 < loudness {
      var late, early := loudness * (decay - t2), loudness * (decay - t1);
      ScaleBelow(decay - t2, decay - t1, loudness);
      assert late < early;
      DivBelow(late, early, decay);
    }
  }

  /** Dividing by a positive number keeps the order. */
  lemma DivBelow(x: real, y: real, d: real)
    requires x <= y && 0.0 < d
    ensures x / d <= y / d
    ensures x < y ==> x / d < y / d
  {
    var q := y / d - x / d;
    assert q * d == y - x;
    if q <= 0.0 {
      ScaleBelow(q, 0.0, d);
    }
  }

  /** Dividing by a positive number keeps the sign. */
  lemma DivSign(x: real, d: real)
    requires 0.0 < d
    ensures 0.0 <= x ==> 0.0 <= x / d
    ensures 0.0 < x ==> 0.0 < x / d
  {
    var q := x / d;
    assert q * d == x;
    if q < 0.0 {
      ScaleBelow(q, 0.0, d);
    }
  }

  /** Multiplying and then dividing by the same non-zero number gives the number back. */
  lemma DivCancel(x: real, d: real)
    requires d != 0.0
    ensures x * d / d == x
  {
    var z := x * d / d;
    assert z * d == x * d;
    assert (z - x) * d == 0.0;
  }

  /** What a voice still sounding at `time` adds to a decay sample: its sine
      scaled by its own decay gain. */
  function FadedPart(delta: real, loudness: real, decay: real, sine: real -> real, position: int, time: real): real
    requires 0.0 <= time < decay
  {
    sine(delta * position as real) * DecayGain(loudness, decay, time)
  }

  /** The sum, in order, of the faded parts of the voices whose decay has not
      yet run out at `time`; the others add nothing. */
  function DecayMix(vs: seq<Voice>, sine: real -> real, position: int, time: real): real
    requires 0.0 <= time
  {
    if vs == [] then 0.0
    else
      var v := vs[|vs| - 1];
      DecayMix(vs[..|vs| - 1], sine, position, time)
        + if time < v.decay then FadedPart(v.delta, v.loudness, v.decay, sine, position, time) else 0.0
  }

  /** Mixing in one more voice adds its faded part to the sum while it still sounds. */
  lemma DecayMixSnoc(vs: seq<Voice>, v: Voice, sine: real -> real, position: int, time: real)
    requires 0.0 <= time
    ensures time < v.decay ==>
              DecayMix(vs + [v], sine, position, time)
              == DecayMix(vs, sine, position, time) + FadedPart(v.delta, v.loudness, v.decay, sine, position, time)
    ensures v.decay <= time ==> DecayMix(vs + [v], sine, position, time) == DecayMix(vs, sine, position, time)
  {
    assert (vs + [v])[..|vs|] == vs;
  }

  /** A decay sample: the decay mix clamped to a `short`; the global loudness plays no part. */
  function DecaySample(vs: seq<Voice>, sine: real -> real, position: int, time: real): Short
    requires 0.0 <= time
  {
    Saturate(DecayMix(vs, sine, position, time))
  }

  // ---------------------------------------------------------- segment lengths

  /** `(int) Math.round(seconds * sampleRate)` */
  function SegmentLength(seconds: real): int
  {
    Int32(RoundToLong(seconds * 44100.0))
  }

  /** How often `for (i = 0; i < length; i++)` runs for an `int` length. */
  function Iterations(length: int): nat
  {
    if length < 0 then 0 else length
  }

  /** Samples in the attack segment. */
  function AttackCount(t: Tone): nat
  {
    if t.attack < MIN_SEGMENT then 0 else Iterations(SegmentLength(t.attack))
  }

  /** Samples in the sustain segment. */
  function SustainCount(t: Tone): nat
  {
    if t.sustain < MIN_SEGMENT then 0 else Iterations(SegmentLength(t.sustain))
  }

  /** The running `Math.max` over the decays, starting from 0: the largest decay,
      or 0 when there is no voice or every decay is below 0. */
  function MaxDecay(vs: seq<Voice>): (m: real)
    ensures 0.0 <= m
    ensures forall k :: 0 <= k < |vs| ==> vs[k].decay <= m
    ensures m == 0.0 || exists k :: 0 <= k < |vs| && vs[k].decay == m
  {
    if vs == [] then 0.0
    else
      var m := MathMax(MaxDecay(vs[..|vs| - 1]), vs[|vs| - 1].decay);
      assert forall k :: 0 <= k < |vs| - 1 ==> vs[k] == vs[..|vs| - 1][k];
      m
  }

  /** Samples in the decay segment: the loop runs while `i < maxDecay * sampleRate`. */
  function DecayCount(vs: seq<Voice>): nat
  {
    Ceil(MaxDecay(vs) * 44100.0)
  }

  /** The time step of the decay loop, `1 / (maxDecay * sampleRate)`: the decay
      time runs from 0 towards 1, not over seconds. */
  function DecayStep(vs: seq<Voice>): real
    requires 0 < DecayCount(vs)
  {
    1.0 / (MaxDecay(vs) * 44100.0)
  }

  /** The decay loop's bound `m * sampleRate`, for `m` the longest decay: the loop
      runs DecayCount times, and when it runs at all its time step is DecayStep. */
  lemma DecayLoop(vs: seq<Voice>, m: real, rate: int, length: real)
    requires m == MaxDecay(vs) && rate == Settings.SAMPLE_RATE && length == m * rate as real
    ensures DecayCount(vs) == Ceil(length)
    ensures 0 < DecayCount(vs) <==> 0.0 < length
    ensures 0.0 < length ==> 1.0 / length == DecayStep(vs)
  {
  }

  /** The decay time of sample `i`: `i` steps of DecayStep, the value the
      running `time` has when the sample is computed. */
  function DecayTime(vs: seq<Voice>, i: nat): (time: real)
    requires 0 < DecayCount(vs)
    ensures 0.0 <= time
  {
    i as real * DecayStep(vs)
  }

  /** Decay sample `i` of the segment, taken at its decay time. */
  function DecayAt(vs: seq<Voice>, sine: real -> real, i: nat): Short
    requires i < DecayCount(vs)
  {
    DecaySample(vs, sine, i, DecayTime(vs, i))
  }

  /** Each decay sample advances the time by one step. */
  lemma TimeStep(vs: seq<Voice>, i: nat)
    requires 0 < DecayCount(vs)
    ensures DecayTime(vs, i + 1) == DecayTime(vs, i) + DecayStep(vs)
  {
  }

  /** `calcToneLength()`: attack + sustain + the longest decay. */
  function ToneLength(t: Tone): real
  {
    t.attack + t.sustain + MaxDecay(t.voices)
  }

  /** `(int) (attack + sustain + calcToneLength())`: attack and sustain are counted twice. */
  function Seconds(t: Tone): int
  {
    DoubleToInt(t.attack + t.sustain + ToneLength(t))
  }

  /** `2 * (seconds * sampleRate)` in 32-bit `int` arithmetic: the byte length the buffer gets. */
  function ByteLength(t: Tone): int
  {
    Int32(2 * Int32(Seconds(t) * 44100))
  }

  /** The length `updateBuffer()` computes, from the tone length it has just
      computed and the sample rate, is ByteLength. */
  lemma ByteLengthOf(t: Tone, toneLength: real, rate: int)
    requires toneLength == ToneLength(t) && rate == Settings.SAMPLE_RATE
    ensures Int32(2 * Int32(DoubleToInt(t.attack + t.sustain + toneLength) * rate)) == ByteLength(t)
  {
  }

  /** The render pass completes: the byte length is not negative (no array can be
      allocated otherwise) and every byte of the three segments lies inside it. */
  predicate Renderable(t: Tone)
  {
    0 <= ByteLength(t) && 2 * (AttackCount(t) + SustainCount(t) + DecayCount(t.voices)) <= ByteLength(t)
  }

  /** Below 24348 seconds nothing wraps: the buffer holds whole seconds of samples. */
  lemma ByteLengthExact(t: Tone)
    requires 0.0 <= t.attack + t.sustain + ToneLength(t) < 24348.0
    ensures ByteLength(t) == 2 * Settings.SAMPLE_RATE * Trunc(t.attack + t.sustain + ToneLength(t))
  {
    var s := Trunc(t.attack + t.sustain + ToneLength(t));
    assert 0 <= s <= 24347;
    assert Seconds(t) == s;
    assert 0 <= s * Settings.SAMPLE_RATE <= 24347 * 44100;
    assert Int32(s * Settings.SAMPLE_RATE) == s * Settings.SAMPLE_RATE;
    assert 0 <= 2 * (s * Settings.SAMPLE_RATE) <= 2 * 24347 * 44100;
  }

  // ------------------------------------------------------------------ samples

  /** The attack gain of sample `i`: the running `globalLoudness`, which starts
      at 0 and grows by `loudness / length` after every sample. */
  function Ramp(loudness: real, length: int, i: nat): real
    requires 0 < length
  {
    if i == 0 then 0.0 else Ramp(loudness, length, i - 1) + loudness / length as real
  }

  /** Each attack sample raises the gain by `loudness / length`. */
  lemma RampStep(loudness: real, length: int, i: nat)
    requires 0 < length
    ensures Ramp(loudness, length, i + 1) == Ramp(loudness, length, i) + loudness / length as real
  {
  }

  /** The running sum is the product `i * (loudness / length)`. */
  lemma {:induction false} RampClosed(loudness: real, length: int, i: nat)
    requires 0 < length
    ensures Ramp(loudness, length, i) == i as real * (loudness / length as real)
  {
    if i > 0 {
      RampClosed(loudness, length, i - 1);
    }
  }

  /** The attack ramp starts at 0, never decreases for a non-negative loudness and
      stays below the loudness throughout the segment. */
  lemma RampRises(loudness: real, length: int, i: nat, j: nat)
    requires 0 < length && i <= j < length
    ensures Ramp(loudness, length, 0) == 0.0
    ensures 0.0 <= loudness ==> 0.0 <= Ramp(loudness, length, i) <= Ramp(loudness, length, j)
    ensures 0.0 < loudness ==> Ramp(loudness, length, j) < loudness
  {
    var n := length as real;
    DivSign(loudness, n);
    if 0.0 <= loudness {
      RampMono(loudness, length, 0, i);
      RampMono(loudness, length, i, j);
    }
    if 0.0 < loudness {
      RampMono(loudness, length, j, length);
      RampClosed(loudness, length, length);
      assert n * (loudness / n) == loudness;
    }
  }

  /** With a non-negative step the ramp never falls; with a positive one it rises strictly. */
  lemma {:induction false} RampMono(loudness: real, length: int, i: nat, j: nat)
    requires 0 < length && i <= j
    ensures 0.0 <= loudness / length as real ==> Ramp(loudness, length, i) <= Ramp(loudness, length, j)
    ensures 0.0 < loudness / length as real && i < j ==> Ramp(loudness, length, i) < Ramp(loudness, length, j)
    decreases j
  {
    if i < j {
      RampMono(loudness, length, i, j - 1);
    }
  }

  /** Scaling by a non-negative factor keeps the order; a positive one keeps it strict. */
  lemma ScaleBelow(x: real, y: real, c: real)
    requires x <= y && 0.0 <= c
    ensures x * c <= y * c && c * x <= c * y
    ensures x < y && 0.0 < c ==> x * c < y * c && c * x < c * y
  {
    assert y * c - x * c == (y - x) * c;
  }

  /** Attack sample `i`: the mix at the ramp gain of sample `i`. */
  function AttackAt(t: Tone, sine: real -> real, i: nat): Short
    requires i < AttackCount(t)
  {
    Sample(t.voices, sine, i, Ramp(t.loudness, SegmentLength(t.attack), i))
  }

  function AttackSamples(t: Tone, sine: real -> real): (s: seq<Short>)
    ensures |s| == AttackCount(t)
  {
    var n := AttackCount(t);
    seq(n, i requires 0 <= i < n => AttackAt(t, sine, i))
  }

  function SustainSamples(t: Tone, sine: real -> real): (s: seq<Short>)
    ensures |s| == SustainCount(t)
  {
    seq(SustainCount(t), i => Sample(t.voices, sine, i, t.loudness))
  }

  function DecaySamples(vs: seq<Voice>, sine: real -> real): (s: seq<Short>)
    ensures |s| == DecayCount(vs)
  {
    var n := DecayCount(vs);
    if n == 0 then []
    else
      seq<Short>(n, i requires 0 <= i < n => DecayAt(vs, sine, i))
  }

  /** The samples of one render pass, in time order: attack, sustain, decay. */
  function Samples(t: Tone, sine: real -> real): seq<Short>
  {
    AttackSamples(t, sine) + SustainSamples(t, sine) + DecaySamples(t.voices, sine)
  }

  /** All bytes the render pass writes, in order: attack, sustain, decay. */
  function RenderBytes(t: Tone, sine: real -> real): (r: seq<Byte>)
    ensures |r| == 2 * (AttackCount(t) + SustainCount(t) + DecayCount(t.voices))
  {
    Encode(AttackSamples(t, sine)) + Encode(SustainSamples(t, sine)) + Encode(DecaySamples(t.voices, sine))
  }

  /** The three segments lie back to back without gap or overlap: the bytes
      written are the encoding of all samples, and read back they give the
      attack samples, then the sustain samples, then the decay samples. */
  lemma RenderLayout(t: Tone, sine: real -> real)
    ensures RenderBytes(t, sine) == Encode(Samples(t, sine))
    ensures |RenderBytes(t, sine)| % 2 == 0 && Decode(RenderBytes(t, sine)) == Samples(t, sine)
  {
    var a, s, d := AttackSamples(t, sine), SustainSamples(t, sine), DecaySamples(t.voices, sine);
    EncodeAppend(a, s);
    EncodeAppend(a + s, d);
    var all := Samples(t, sine);
    var n, e := |all|, Encode(all);
    assert |e| == n + n;
    assert |e| % 2 == 0 by {
      assert (n + n) % 2 == 0;
    }
    DecodeEncode(Samples(t, sine));
  }

  /** Without voices an attack or sustain sample is 0 whatever its gain. */
  lemma SilentSample(sine: real -> real, position: int, gain: real)
    ensures Sample([], sine, position, gain) == 0
  {
    assert Mix([], sine, position) * gain == 0.0;
    assert Saturate(0.0) == 0;
  }

  /** With no active harmonic every byte written is zero and there is no decay
      segment; attack and sustain keep their lengths. */
  lemma SilentWithoutVoices(t: Tone, sine: real -> real)
    requires t.voices == []
    ensures DecayCount(t.voices) == 0
    ensures RenderBytes(t, sine) == Zeros(2 * (AttackCount(t) + SustainCount(t)))
  {
    var attack, sustain := AttackSamples(t, sine), SustainSamples(t, sine);
    forall k | 0 <= k < |attack|
      ensures attack[k] == 0
    {
      SilentSample(sine, k, Ramp(t.loudness, SegmentLength(t.attack), k));
    }
    forall k | 0 <= k < |sustain|
      ensures sustain[k] == 0
    {
      SilentSample(sine, k, t.loudness);
    }
    assert DecaySamples(t.voices, sine) == [];
    EncodeSilence(attack);
    EncodeSilence(sustain);
    ZerosAppend(2 * |attack|, 2 * |sustain|);
  }

  // ---------------------------------------------------------------- scenarios

  /** With attack and sustain 0 and one 1.4 s decay, the buffer is sized for one
      second (88200 bytes) but the decay loop writes 61740 samples (123480 bytes):
      the render pass runs past the end of the array. */
  lemma OverrunWithFractionalDecay(loudness: real, delta: real)
    ensures var t := Tone(loudness, 0.0, 0.0, [Voice(delta, 1.0, 1.4)]);
      ByteLength(t) == 88200 && DecayCount(t.voices) == 61740 && !Renderable(t)
  {
    var t := Tone(loudness, 0.0, 0.0, [Voice(delta, 1.0, 1.4)]);
    assert MaxDecay(t.voices) == MathMax(MaxDecay([]), 1.4) == 1.4 by {
      assert t.voices[..0] == [];
    }
    assert Seconds(t) == 1;
    assert DecayCount(t.voices) == 61740;
  }

  /** One voice decaying for exactly 1 s, no attack, no sustain: the 44100 decay
      samples fill the 88200-byte buffer exactly. */
  lemma OneSecondDecayFits(loudness: real, delta: real, voiceLoudness: real)
    ensures var t := Tone(loudness, 0.0, 0.0, [Voice(delta, voiceLoudness, 1.0)]);
      ByteLength(t) == 88200 && AttackCount(t) == 0 && SustainCount(t) == 0
      && DecayCount(t.voices) == 44100 && Renderable(t)
  {
    var t := Tone(loudness, 0.0, 0.0, [Voice(delta, voiceLoudness, 1.0)]);
    assert MaxDecay(t.voices) == MathMax(MaxDecay([]), 1.0) == 1.0 by {
      assert t.voices[..0] == [];
    }
    assert Seconds(t) == 1;
  }

  /** The default settings (attack and sustain 0.5 s, every decay 2 s) render
      inside the buffer, whichever harmonics are on. */
  lemma DefaultsFit(loudness: real, vs: seq<Voice>)
    requires forall k :: 0 <= k < |vs| ==> vs[k].decay == 2.0
    ensures var t := Tone(loudness, 0.5, 0.5, vs);
      AttackCount(t) == 22050 && SustainCount(t) == 22050 && Renderable(t)
  {
    var t := Tone(loudness, 0.5, 0.5, vs);
    assert RoundToLong(0.5 * 44100.0) == 22050;
    var m := MaxDecay(vs);
    assert m == 0.0 || m == 2.0;
    if m == 0.0 {
      assert Seconds(t) == 2;
      assert DecayCount(vs) == 0;
    } else {
      assert Seconds(t) == 4;
      assert DecayCount(vs) == 88200;
    }
  }
}
