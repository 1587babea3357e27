/** The renderer: turns the global settings and the harmonic array into a
    signed 16-bit little-endian PCM byte array, in place. */
module Engine {
  import opened JavaNum
  import opened Pcm
  import opened Rendering
  import opened Harmonics
  import opened Settings

  // ------------------------------------------------------------- active set

  /** The `active` flag of each harmonic, in array order. */
  function ActiveFlags(hs: seq<Harmonic>): (flags: seq<bool>)
    reads hs
    ensures |flags| == |hs|
  {
    seq(|hs|, j requires 0 <= j < |hs| reads hs => hs[j].active)
  }

  /** The positions of the set flags, in range and on set flags. */
  function ActiveIndices(flags: seq<bool>): (ix: seq<int>)
    ensures |ix| <= |flags|
    ensures forall k :: 0 <= k < |ix| ==> 0 <= ix[k] < |flags| && flags[ix[k]]
  {
    if flags == [] then []
    else
      var n := |flags| - 1;
      ActiveIndices(flags[..n]) + if flags[n] then [n] else []
  }

  /** Strictly increasing positions. */
  predicate Increasing(ix: seq<int>)
  {
    forall k, l :: 0 <= k < l < |ix| ==> ix[k] < ix[l]
  }

  /** The positions are listed in increasing order. */
  lemma {:induction false} IndicesSorted(flags: seq<bool>)
    ensures Increasing(ActiveIndices(flags))
  {
    if flags != [] {
      var n := |flags| - 1;
      var front := ActiveIndices(flags[..n]);
      IndicesSorted(flags[..n]);
      if flags[n] {
        var ix := front + [n];
        forall k, l | 0 <= k < l < |ix|
          ensures ix[k] < ix[l]
        {
          assert ix[k] == front[k] < n;
          if l < |front| {
            assert ix[l] == front[l];
          }
        }
      }
    }
  }

  /** Every set flag is listed. */
  lemma {:induction false} IndicesComplete(flags: seq<bool>)
    ensures forall j :: 0 <= j < |flags| && flags[j] ==> j in ActiveIndices(flags)
  {
    if flags != [] {
      var n := |flags| - 1;
      IndicesComplete(flags[..n]);
      assert forall j :: 0 <= j < n ==> flags[..n][j] == flags[j];
    }
  }

  /** One more flag scanned: its position is appended when it is set. */
  lemma IndicesStep(flags: seq<bool>, i: int)
    requires 0 <= i < |flags|
    ensures ActiveIndices(flags[..i + 1]) == ActiveIndices(flags[..i]) + if flags[i] then [i] else []
  {
    assert flags[..i + 1][..i] == flags[..i];
  }

  /** Scanning a prefix of the flags lists a prefix of the positions. */
  lemma {:induction false} IndicesPrefix(flags: seq<bool>, i: int)
    requires 0 <= i <= |flags|
    ensures ActiveIndices(flags[..i]) <= ActiveIndices(flags)
    decreases |flags| - i
  {
    if i < |flags| {
      var n := |flags| - 1;
      assert flags[..n][..i] == flags[..i];
      IndicesPrefix(flags[..n], i);
    } else {
      assert flags[..i] == flags;
    }
  }

  /** The active harmonics in their original order: the entries at the set flags. */
  function ActiveOf(hs: seq<Harmonic>): (r: seq<Harmonic>)
    reads hs
    ensures |r| <= |hs|
  {
    var ix := ActiveIndices(ActiveFlags(hs));
    seq(|ix|, k requires 0 <= k < |ix| => hs[ix[k]])
  }

  /** The active set holds active harmonics only, and all of them. */
  lemma ActiveOfMembers(hs: seq<Harmonic>)
    ensures forall k :: 0 <= k < |ActiveOf(hs)| ==> ActiveOf(hs)[k] in hs && ActiveOf(hs)[k].active
    ensures forall j :: 0 <= j < |hs| && hs[j].active ==> hs[j] in ActiveOf(hs)
  {
    var flags := ActiveFlags(hs);
    var ix, r := ActiveIndices(flags), ActiveOf(hs);
    IndicesComplete(flags);
    forall j | 0 <= j < |hs| && hs[j].active
      ensures hs[j] in r
    {
      assert flags[j];
      var k :| 0 <= k < |ix| && ix[k] == j;
      assert r[k] == hs[j];
    }
  }

  /** The active set keeps the relative order of the harmonic array and omits
      nothing active: entry k is the harmonic at the k-th set flag. */
  lemma ActiveOfOrder(hs: seq<Harmonic>)
    ensures var ix := ActiveIndices(ActiveFlags(hs));
      && |ActiveOf(hs)| == |ix|
      && (forall k :: 0 <= k < |ix| ==> ActiveOf(hs)[k] == hs[ix[k]] && hs[ix[k]].active)
      && Increasing(ix)
      && (forall j :: 0 <= j < |hs| && hs[j].active ==> j in ix)
  {
    var flags := ActiveFlags(hs);
    IndicesSorted(flags);
    IndicesComplete(flags);
    assert forall j :: 0 <= j < |hs| ==> flags[j] == hs[j].active;
  }

  // ----------------------------------------------------------------- voices

  /** What the fill loops read of each harmonic: its stored phase step, loudness and decay. */
  function VoicesOf(hs: seq<Harmonic>): (vs: seq<Voice>)
    reads hs
    ensures |vs| == |hs|
  {
    seq(|hs|, k requires 0 <= k < |hs| reads hs => Voice(hs[k].delta, hs[k].loudness, hs[k].decay))
  }

  /** The voices a render pass is meant to play: each harmonic with the phase step `pitch` gives it. */
  function TunedVoices(hs: seq<Harmonic>, pitch: real): (vs: seq<Voice>)
    reads hs
    ensures |vs| == |hs|
  {
    seq(|hs|, k requires 0 <= k < |hs| reads hs => Voice(PhaseStep(hs[k].overtoneNumber, pitch), hs[k].loudness, hs[k].decay))
  }

  /** The longest decay depends on the decays alone, not on the phase steps. */
  lemma {:induction false} MaxDecayOfDecays(vs: seq<Voice>, ws: seq<Voice>)
    requires |vs| == |ws|
    requires forall k :: 0 <= k < |vs| ==> vs[k].decay == ws[k].decay
    ensures MaxDecay(vs) == MaxDecay(ws)
  {
    if vs != [] {
      var n := |vs| - 1;
      MaxDecayOfDecays(vs[..n], ws[..n]);
    }
  }

  // ----------------------------------------------------------------- engine

  class AudioBuffer {
    const globals: Globals
    const harmonics: array<Harmonic>
    /** `Math.sin`, left uninterpreted. */
    const sine: real -> real
    var buffer: array<Byte>
    var activeHarmonics: seq<Harmonic>

    constructor (globals: Globals, harmonics: array<Harmonic>, sine: real -> real)
      ensures this.globals == globals && this.harmonics == harmonics && this.sine == sine
      ensures fresh(buffer) && buffer.Length == 0
      ensures activeHarmonics == []
    {
      this.globals := globals;
      this.harmonics := harmonics;
      this.sine := sine;
      buffer := new Byte[0];
      activeHarmonics := [];
    }

    /** The tone the current settings describe: what the next render pass plays. */
    ghost function Requested(): Tone
      reads globals, harmonics, harmonics[..]
    {
      Tone(globals.loudness, globals.attack, globals.sustain, TunedVoices(ActiveOf(harmonics[..]), globals.pitch))
    }

    /** The tone the fill loops render: the active list with its stored phase steps. */
    ghost function Loaded(): Tone
      reads this`activeHarmonics, globals, activeHarmonics
    {
      Tone(globals.loudness, globals.attack, globals.sustain, VoicesOf(activeHarmonics))
    }

    /** The buffer holds a finished render of the current settings. */
    ghost predicate Rendered()
      reads this`buffer, buffer, globals, harmonics, harmonics[..]
    {
      var t := Requested();
      && Renderable(t)
      && buffer.Length == ByteLength(t)
      && buffer[..|RenderBytes(t, sine)|] == RenderBytes(t, sine)
    }

    method GetBuffer() returns (b: array<Byte>)
      ensures b == buffer
    {
      b := buffer;
    }

    /** Recomputes the buffer: the active set, the buffer length (a new array
        only when the length changes), the phase steps, then the samples. */
    method UpdateBuffer()
      requires Renderable(Requested())
      modifies this, buffer, harmonics[..]`delta
      ensures activeHarmonics == ActiveOf(harmonics[..])
      ensures Requested() == old(Requested())
      ensures buffer.Length == ByteLength(Requested())
      ensures old(buffer.Length) == buffer.Length ==> buffer == old(buffer)
      ensures old(buffer.Length) != buffer.Length ==> fresh(buffer)
      ensures buffer[..] == Splice(if buffer == old(buffer) then old(buffer[..]) else Zeros(buffer.Length),
                                   0, RenderBytes(Requested(), sine))
      ensures Rendered()
      ensures old(Rendered()) ==> buffer == old(buffer) && buffer[..] == old(buffer[..])
    {
      ghost var tone := Requested();
      Prepare(tone);
      ghost var base := buffer[..];
      label filled:
      Fill(tone);
      SettingsKept@filled();
      SplicePrefix(base, RenderBytes(tone, sine));
      if old(Rendered()) {
        SpliceSame(base, RenderBytes(tone, sine));
      }
    }

    /** The steps of `updateBuffer()` before the fill: the active set, the buffer
        length, the phase steps. */
    method Prepare(ghost tone: Tone)
      requires tone == Requested() && Renderable(tone)
      modifies this, harmonics[..]`delta
      ensures activeHarmonics == ActiveOf(harmonics[..])
      ensures Requested() == tone && Loaded() == tone
      ensures buffer.Length == ByteLength(tone)
      ensures old(buffer.Length) == buffer.Length ==> buffer == old(buffer) && buffer[..] == old(buffer[..])
      ensures old(buffer.Length) != buffer.Length ==> fresh(buffer) && buffer[..] == Zeros(buffer.Length)
    {
      ghost var before, contents := buffer, buffer[..];
      UpdateActiveHarmonics();
      assert buffer == before && buffer[..] == contents;
      SameLength(tone);
      label sized:
      ResizeBuffer(tone);
      SettingsKept@sized();
      ghost var sized, fill := buffer, buffer[..];
      TuneActive();
      assert buffer == sized && buffer[..] == fill;
    }

    /** The buffer gets `2 * seconds * sampleRate` bytes, in 32-bit arithmetic,
        for the whole seconds of attack, sustain and tone length; a new zeroed
        array only when the length changes. */
    method ResizeBuffer(ghost t: Tone)
      requires ByteLength(Loaded()) == ByteLength(t) && 0 <= ByteLength(t)
      modifies this`buffer
      ensures buffer.Length == ByteLength(t)
      ensures old(buffer.Length) == buffer.Length ==> buffer == old(buffer)
      ensures old(buffer.Length) != buffer.Length ==> fresh(buffer) && buffer[..] == Zeros(buffer.Length)
    {
      var toneLength := CalcToneLength();
      var seconds := DoubleToInt(globals.attack + globals.sustain + toneLength);
      var sampleCount := Int32(seconds * globals.sampleRate);
      ByteLengthOf(Loaded(), toneLength, globals.sampleRate);
      assert Int32(2 * sampleCount) == ByteLength(t);
      if buffer.Length != Int32(2 * sampleCount) {
        buffer := new Byte[Int32(2 * sampleCount)](_ => 0);
        assert buffer[..] == Zeros(buffer.Length);
      }
    }

    /** Before the phase steps are written, the loaded tone already has the
        requested buffer length: the length depends on the decays alone. */
    lemma SameLength(tone: Tone)
      requires tone == Requested()
      requires activeHarmonics == ActiveOf(harmonics[..])
      ensures ByteLength(Loaded()) == ByteLength(tone)
    {
      var loaded := Loaded();
      forall k | 0 <= k < |loaded.voices|
        ensures loaded.voices[k].decay == tone.voices[k].decay
      {
        assert activeHarmonics[k] == ActiveOf(harmonics[..])[k];
      }
      MaxDecayOfDecays(loaded.voices, tone.voices);
      assert ToneLength(loaded) == ToneLength(tone);
      assert Seconds(loaded) == Seconds(tone);
    }

    /** Every entry of the active list is one of the harmonics, and active. */
    lemma ActiveInHarmonics()
      requires activeHarmonics == ActiveOf(harmonics[..])
      ensures forall k :: 0 <= k < |activeHarmonics| ==>
        activeHarmonics[k] in harmonics[..] && activeHarmonics[k].active
      ensures forall j :: 0 <= j < harmonics.Length && harmonics[j].active ==> harmonics[j] in activeHarmonics
    {
      ActiveOfMembers(harmonics[..]);
      assert forall k :: 0 <= k < |activeHarmonics| ==> activeHarmonics[k] == ActiveOf(harmonics[..])[k];
    }

    /** The phase-step loop: every active harmonic gets the step of its overtone
        at the current pitch; nothing else about the harmonics changes. */
    method TuneActive()
      requires activeHarmonics == ActiveOf(harmonics[..])
      modifies harmonics[..]`delta
      ensures forall j :: 0 <= j < harmonics.Length ==>
        harmonics[j].delta == if harmonics[j].active then PhaseStep(harmonics[j].overtoneNumber, globals.pitch)
                              else old(harmonics[j].delta)
      ensures forall k :: 0 <= k < |activeHarmonics| ==>
        activeHarmonics[k].delta == PhaseStep(activeHarmonics[k].overtoneNumber, globals.pitch)
      ensures activeHarmonics == old(activeHarmonics) && buffer[..] == old(buffer[..])
      ensures activeHarmonics == ActiveOf(harmonics[..])
      ensures Requested() == old(Requested()) && Loaded() == Requested()
    {
      ActiveInHarmonics();
      for k := 0 to |activeHarmonics|
        invariant activeHarmonics == old(activeHarmonics) && buffer[..] == old(buffer[..])
        invariant forall i :: 0 <= i < k ==>
          activeHarmonics[i].delta == PhaseStep(activeHarmonics[i].overtoneNumber, globals.pitch)
        invariant forall j :: 0 <= j < harmonics.Length ==>
          || harmonics[j].delta == old(harmonics[j].delta)
          || (harmonics[j].active && harmonics[j].delta == PhaseStep(harmonics[j].overtoneNumber, globals.pitch))
      {
        var h := activeHarmonics[k];
        label tuning:
        h.delta := PhaseStep(h.overtoneNumber, globals.pitch);
        forall i | 0 <= i <= k
          ensures activeHarmonics[i].delta == PhaseStep(activeHarmonics[i].overtoneNumber, globals.pitch)
        {
          if i < k && activeHarmonics[i] != h {
            assert activeHarmonics[i].delta == old@tuning(activeHarmonics[i].delta);
          }
        }
      }
      RequestedKept();
      LoadedIsRequested();
    }

    /** Writing only the buffer leaves the settings and the active list as they were. */
    twostate lemma SettingsKept()
      requires unchanged(this`activeHarmonics, globals, harmonics)
      requires forall j :: 0 <= j < harmonics.Length ==> unchanged(harmonics[j])
      ensures ActiveOf(harmonics[..]) == old(ActiveOf(harmonics[..]))
      ensures Requested() == old(Requested())
    {
      assert harmonics[..] == old(harmonics[..]);
    }

    /** Writing only the buffer leaves the loaded tone as it was. */
    twostate lemma LoadedKept()
      requires unchanged(this`activeHarmonics, globals)
      requires forall k :: 0 <= k < |activeHarmonics| ==> unchanged(activeHarmonics[k])
      ensures Loaded() == old(Loaded())
    {
    }

    /** Changing only phase steps leaves the requested tone as it was. */
    twostate lemma RequestedKept()
      requires unchanged(globals) && unchanged(harmonics)
      requires forall k :: 0 <= k < harmonics.Length ==>
        harmonics[k].active == old(harmonics[k].active)
        && harmonics[k].loudness == old(harmonics[k].loudness)
        && harmonics[k].decay == old(harmonics[k].decay)
      ensures ActiveOf(harmonics[..]) == old(ActiveOf(harmonics[..]))
      ensures Requested() == old(Requested())
    {
      var hs := harmonics[..];
      assert hs == old(harmonics[..]);
      assert ActiveFlags(hs) == old(ActiveFlags(hs));
      assert ActiveOf(hs) == old(ActiveOf(hs));
      var a := ActiveOf(hs);
      ActiveOfMembers(hs);
      forall k | 0 <= k < |a|
        ensures TunedVoices(a, globals.pitch)[k] == old(TunedVoices(a, globals.pitch))[k]
      {
        assert a[k] in hs;
      }
    }

    /** Once every active harmonic carries its phase step, the fill loops play the requested tone. */
    lemma LoadedIsRequested()
      requires activeHarmonics == ActiveOf(harmonics[..])
      requires forall k :: 0 <= k < |activeHarmonics| ==>
        activeHarmonics[k].delta == PhaseStep(activeHarmonics[k].overtoneNumber, globals.pitch)
      ensures Loaded() == Requested()
    {
      var loaded, requested := Loaded().voices, Requested().voices;
      assert |loaded| == |requested|;
      forall k | 0 <= k < |loaded|
        ensures loaded[k] == requested[k]
      {
        assert activeHarmonics[k] == ActiveOf(harmonics[..])[k];
      }
    }

    /** Collects the active harmonics, in order, into a new array: one pass to
        count them, one pass to copy them. */
    method UpdateActiveHarmonics()
      modifies this`activeHarmonics
      ensures activeHarmonics == ActiveOf(harmonics[..])
    {
      var activeCount := CountActive();
      var active := CopyActive(activeCount);
      activeHarmonics := seq(activeCount, k requires 0 <= k < activeCount && active[k] != null reads active => active[k] as Harmonic);
    }

    /** The counting pass of `updateActiveHarmonics()`: the number of active harmonics. */
    method CountActive() returns (activeCount: int)
      ensures activeCount == |ActiveOf(harmonics[..])|
    {
      ghost var flags := ActiveFlags(harmonics[..]);
      activeCount := 0;
      for i := 0 to harmonics.Length
        invariant activeCount == |ActiveIndices(flags[..i])|
      {
        IndicesStep(flags, i);
        if harmonics[i].active {
          activeCount := activeCount + 1;
        }
      }
      assert flags[..harmonics.Length] == flags;
    }

    /** The copying pass of `updateActiveHarmonics()`: the active harmonics in
        array order, in a new array of the counted size. */
    method CopyActive(activeCount: int) returns (active: array<Harmonic?>)
      requires activeCount == |ActiveOf(harmonics[..])|
      ensures fresh(active) && active.Length == activeCount
      ensures forall k :: 0 <= k < activeCount ==> active[k] == ActiveOf(harmonics[..])[k]
    {
      ghost var flags := ActiveFlags(harmonics[..]);
      ghost var ix := ActiveIndices(flags);
      var insertPos := 0;
      active := new Harmonic?[activeCount];
      for i := 0 to harmonics.Length
        invariant insertPos == |ActiveIndices(flags[..i])|
        invariant ActiveIndices(flags[..i]) <= ix
        invariant forall k :: 0 <= k < insertPos ==> active[k] == harmonics[ix[k]]
      {
        IndicesStep(flags, i);
        IndicesPrefix(flags, i + 1);
        if harmonics[i].active {
          active[insertPos] := harmonics[i];
          insertPos := insertPos + 1;
        }
      }
      assert flags[..harmonics.Length] == flags;
    }

    /** Writes the three segments back to back from byte 0 on. */
    method Fill(ghost t: Tone)
      requires Loaded() == t
      requires Renderable(t) && buffer.Length == ByteLength(t)
      modifies buffer
      ensures buffer[..] == Splice(old(buffer[..]), 0, RenderBytes(t, sine))
    {
      ghost var base := buffer[..];
      ghost var x, y, z := Encode(AttackSamples(t, sine)), Encode(SustainSamples(t, sine)),
                           Encode(DecaySamples(t.voices, sine));
      var startSustain := FillAttack(t);
      var startDecay := FillSustain(startSustain, t);
      FillDecay(startDecay, t);
      SpliceThree(base, startSustain, startDecay, x, y, z);
    }

    /** The attack ramp: sample i at gain i * (loudness / length), from byte 0. */
    method FillAttack(ghost t: Tone) returns (bytePos: int)
      requires Loaded() == t && 2 * AttackCount(t) <= buffer.Length
      modifies buffer
      ensures bytePos == 2 * AttackCount(t)
      ensures buffer[..] == Splice(old(buffer[..]), 0, Encode(AttackSamples(t, sine)))
    {
      if globals.attack < MIN_SEGMENT {
        assert AttackSamples(t, sine) == [];
        return 0;
      }
      var length := SegmentLength(globals.attack);
      // Java divides by a zero length too (giving a non-finite step); the loop then does not run.
      var deltaLoudness := if length != 0 then globals.loudness / length as real else 0.0;
      bytePos := AttackRamp(t, length, deltaLoudness);
    }

    /** The attack loop of FillAttack: the gain starts at 0 and rises by
        `deltaLoudness` per sample. */
    method AttackRamp(ghost t: Tone, length: int, deltaLoudness: real) returns (bytePos: int)
      requires Loaded() == t && MIN_SEGMENT <= t.attack && length == SegmentLength(t.attack)
      requires 0 < length ==> deltaLoudness == t.loudness / length as real
      requires 2 * Iterations(length) <= buffer.Length
      modifies buffer
      ensures bytePos == 2 * Iterations(length)
      ensures buffer[..] == Splice(old(buffer[..]), 0, Encode(AttackSamples(t, sine)))
    {
      label start:
      ghost var samples := AttackSamples(t, sine);
      bytePos := 0;
      var globalLoudness := 0.0;
      var i := 0;
      while i < length
        invariant 0 <= i <= Iterations(length)
        invariant bytePos == 2 * i
        invariant 0 < length ==> globalLoudness == Ramp(t.loudness, length, i)
        invariant buffer[..] == Splice(old(buffer[..]), 0, Encode(samples[..i]))
      {
        LoadedKept@start();
        var value := CalcOneSample(i, globalLoudness);
        assert value == samples[i];
        RampStep(t.loudness, length, i);
        globalLoudness := globalLoudness + deltaLoudness;
        bytePos := PutSample(old(buffer[..]), 0, samples, i, bytePos, value);
        i := i + 1;
      }
      assert samples[..i] == samples;
    }

    /** The sustain plateau: constant gain `loudness`, from byte `bytePos` on. */
    method FillSustain(bytePos: int, ghost t: Tone) returns (next: int)
      requires Loaded() == t
      requires 0 <= bytePos && bytePos + 2 * SustainCount(t) <= buffer.Length
      modifies buffer
      ensures next == bytePos + 2 * SustainCount(t)
      ensures buffer[..] == Splice(old(buffer[..]), bytePos, Encode(SustainSamples(t, sine)))
    {
      if globals.sustain < MIN_SEGMENT {
        assert SustainSamples(t, sine) == [];
        return bytePos;
      }
      var length := SegmentLength(globals.sustain);
      next := SustainPlateau(bytePos, t, length);
    }

    /** The sustain loop of FillSustain: every sample at the global loudness. */
    method SustainPlateau(bytePos: int, ghost t: Tone, length: int) returns (next: int)
      requires Loaded() == t && MIN_SEGMENT <= t.sustain && length == SegmentLength(t.sustain)
      requires 0 <= bytePos && bytePos + 2 * Iterations(length) <= buffer.Length
      modifies buffer
      ensures next == bytePos + 2 * Iterations(length)
      ensures buffer[..] == Splice(old(buffer[..]), bytePos, Encode(SustainSamples(t, sine)))
    {
      label start:
      ghost var samples := SustainSamples(t, sine);
      next := bytePos;
      var globalLoudness := globals.loudness;
      var i := 0;
      while i < length
        invariant 0 <= i <= Iterations(length)
        invariant next == bytePos + 2 * i
        invariant buffer[..] == Splice(old(buffer[..]), bytePos, Encode(samples[..i]))
      {
        LoadedKept@start();
        var value := CalcOneSample(i, globalLoudness);
        next := PutSample(old(buffer[..]), bytePos, samples, i, next, value);
        i := i + 1;
      }
      assert samples[..i] == samples;
    }

    /** The decay tail, from byte `bytePos` on: `maxDecay * sampleRate` samples,
        the time running up by `1 / length` per sample. */
    method FillDecay(bytePos: int, ghost t: Tone)
      requires Loaded() == t
      requires 0 <= bytePos && bytePos + 2 * DecayCount(t.voices) <= buffer.Length
      modifies buffer
      ensures buffer[..] == Splice(old(buffer[..]), bytePos, Encode(DecaySamples(t.voices, sine)))
    {
      var harmonicLength := LongestDecay();
      var length := harmonicLength * globals.sampleRate as real;
      DecayLoop(t.voices, harmonicLength, globals.sampleRate, length);
      // Java's 1.0 / 0.0 is infinite; the loop then does not run.
      var deltaTime := if length != 0.0 then 1.0 / length else 0.0;
      DecayTail(bytePos, t, length, deltaTime);
    }

    /** The decay loop of FillDecay: `for (i = 0; i < length; i++)` with the time
        advancing by `deltaTime` per sample. */
    method DecayTail(bytePos: int, ghost t: Tone, length: real, deltaTime: real)
      requires Loaded() == t
      requires DecayCount(t.voices) == Ceil(length)
      requires 0.0 < length ==> 0 < DecayCount(t.voices) && deltaTime == DecayStep(t.voices)
      requires 0 <= bytePos && bytePos + 2 * DecayCount(t.voices) <= buffer.Length
      modifies buffer
      ensures buffer[..] == Splice(old(buffer[..]), bytePos, Encode(DecaySamples(t.voices, sine)))
    {
      label start:
      ghost var samples := DecaySamples(t.voices, sine);
      var time := 0.0;
      var pos := bytePos;
      var i := 0;
      while i as real < length
        invariant 0 <= i <= DecayCount(t.voices)
        invariant pos == bytePos + 2 * i
        invariant 0.0 < length ==> time == DecayTime(t.voices, i)
        invariant buffer[..] == Splice(old(buffer[..]), bytePos, Encode(samples[..i]))
        decreases DecayCount(t.voices) - i
      {
        BelowCeil(i, length);
        LoadedKept@start();
        var value := CalcOneDecaySample(i, time);
        assert value == samples[i];
        TimeStep(t.voices, i);
        time := time + deltaTime;
        pos := PutSample(old(buffer[..]), bytePos, samples, i, pos, value);
        i := i + 1;
      }
      assert samples[..i] == samples;
    }

    /** Stores one sample at byte `pos`, low byte first, as every fill loop does;
        returns the position after it. */
    method PutSample(ghost base: seq<Byte>, ghost start: int, ghost samples: seq<Short>, i: int, pos: int, value: Short)
      returns (next: int)
      requires 0 <= start && 0 <= i < |samples| && start + 2 * |samples| <= |base| == buffer.Length
      requires pos == start + 2 * i && value == samples[i]
      requires buffer[..] == Splice(base, start, Encode(samples[..i]))
      modifies buffer
      ensures next == pos + 2
      ensures buffer[..] == old(buffer[..])[pos := LowByte(value)][pos + 1 := HighByte(value)]
      ensures buffer[..] == Splice(base, start, Encode(samples[..i + 1]))
    {
      SpliceNext(base, start, samples, i);
      buffer[pos] := LowByte(value);
      buffer[pos + 1] := HighByte(value);
      next := pos + 2;
    }

    /** One decay sample: each voice still sounding at `time` contributes its sine
        scaled by its own linear fade; the sum is clamped to a `short`. */
    method CalcOneDecaySample(position: int, time: real) returns (v: Short)
      requires 0.0 <= time
      ensures v == DecaySample(Loaded().voices, sine, position, time)
    {
      ghost var vs := Loaded().voices;
      var sum := 0.0;
      for k := 0 to |activeHarmonics|
        invariant sum == DecayMix(vs[..k], sine, position, time)
      {
        var h := activeHarmonics[k];
        assert vs[k] == Voice(h.delta, h.loudness, h.decay);
        assert vs[..k + 1] == vs[..k] + [vs[k]];
        DecayMixSnoc(vs[..k], vs[k], sine, position, time);
        if time < h.decay {
          var part := FadedPart(h.delta, h.loudness, h.decay, sine, position, time);
          sum := sum + part;
        }
      }
      assert vs[..|activeHarmonics|] == vs;

      ghost var mix := sum;
      if sum > SHORT_MAX as real {
        sum := SHORT_MAX as real;
      } else if sum < SHORT_MIN as real {
        sum := SHORT_MIN as real;
      }
      assert sum == Clamp(mix);
      v := ShortCast(sum);
      SaturateIsCast(mix);
    }

    /** One attack or sustain sample: the sum of the voices' sines scaled by their
        loudness, times the envelope gain, clamped to a `short`. */
    method CalcOneSample(position: int, attackLoudness: real) returns (v: Short)
      ensures v == Sample(Loaded().voices, sine, position, attackLoudness)
    {
      ghost var vs := Loaded().voices;
      var sum := 0.0;
      for k := 0 to |activeHarmonics|
        invariant sum == Mix(vs[..k], sine, position)
      {
        var h := activeHarmonics[k];
        assert vs[k] == Voice(h.delta, h.loudness, h.decay);
        assert vs[..k + 1] == vs[..k] + [vs[k]];
        MixSnoc(vs[..k], vs[k], sine, position);
        var part := VoicePart(h.delta, h.loudness, sine, position);
        sum := sum + part;
      }
      assert vs[..|activeHarmonics|] == vs;

      ghost var mix := sum;
      sum := sum * attackLoudness;
      ghost var scaled := sum;
      if sum > SHORT_MAX as real {
        sum := SHORT_MAX as real;
      } else if sum < SHORT_MIN as real {
        sum := SHORT_MIN as real;
      }
      assert sum == Clamp(scaled);
      v := ShortCast(sum);
      SaturateIsCast(scaled);
      SampleOf(vs, sine, position, attackLoudness, mix, scaled);
    }

    /** The running `Math.max` over the active harmonics' decays, starting from 0. */
    method LongestDecay() returns (m: real)
      ensures m == MaxDecay(Loaded().voices)
    {
      ghost var vs := Loaded().voices;
      m := 0.0;
      for k := 0 to |activeHarmonics|
        invariant m == MaxDecay(vs[..k])
      {
        assert vs[..k + 1][..k] == vs[..k];
        m := MathMax(m, activeHarmonics[k].decay);
      }
      assert vs[..|activeHarmonics|] == vs;
    }

    /** `calcToneLength()`: attack + sustain + the longest decay among the active harmonics. */
    method CalcToneLength() returns (r: real)
      ensures r == ToneLength(Loaded())
    {
      var harmonicLength := LongestDecay();
      r := globals.attack + globals.sustain + harmonicLength;
    }
  }
}
