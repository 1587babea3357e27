/** The entry point of the sound engine: it builds the harmonic bank and the
    shared settings, hands the very same objects to the renderer, and runs it. */
module Synth {
  import opened Pcm
  import opened Rendering
  import opened Harmonics
  import opened Settings
  import opened Engine

  /** The default envelope (attack and sustain 0.5 s) with every decay at its
      default of 2 s renders inside its buffer, whichever harmonics are on and
      whatever the loudnesses and the pitch. */
  lemma DefaultDecaysRenderable(g: Globals, hs: seq<Harmonic>)
    requires g.attack == 0.5 && g.sustain == 0.5
    requires forall j :: 0 <= j < |hs| ==> hs[j].decay == 2.0
    ensures Renderable(Tone(g.loudness, g.attack, g.sustain, TunedVoices(ActiveOf(hs), g.pitch)))
  {
    var active := ActiveOf(hs);
    var vs := TunedVoices(active, g.pitch);
    ActiveOfMembers(hs);
    forall k | 0 <= k < |vs|
      ensures vs[k].decay == 2.0
    {
      assert active[k] in hs;
    }
    DefaultsFit(g.loudness, vs);
  }

  class Synthesis {
    /** `Math.sin`, handed on to the renderer. */
    const sine: real -> real
    var harmonics: array?<Harmonic>
    var globals: Globals?
    var audioBuffer: AudioBuffer?

    /** Before `init` every field is still `null`. */
    constructor (sine: real -> real)
      ensures this.sine == sine
      ensures harmonics == null && globals == null && audioBuffer == null
    {
      this.sine := sine;
      harmonics := null;
      globals := null;
      audioBuffer := null;
    }

    /** The renderer works on the same harmonic array and the same settings
        object that the getters hand out. */
    ghost predicate Shared()
      reads this, audioBuffer
    {
      && harmonics != null && globals != null && audioBuffer != null
      && audioBuffer.harmonics == harmonics
      && audioBuffer.globals == globals
      && audioBuffer.sine == sine
    }

    /** The tone the objects handed out by the getters describe now. */
    ghost function Current(): Tone
      requires harmonics != null && globals != null
      reads this, globals, harmonics, harmonics[..]
    {
      Tone(globals.loudness, globals.attack, globals.sustain, TunedVoices(ActiveOf(harmonics[..]), globals.pitch))
    }

    /** Builds `numberOfHarmonics` new harmonics with overtones 1, 2, ... in array
        order, new default settings, and a renderer over both. */
    method Init(numberOfHarmonics: int)
      requires 0 <= numberOfHarmonics
      modifies this
      ensures Shared()
      ensures fresh(harmonics) && fresh(globals) && fresh(audioBuffer) && fresh(audioBuffer.buffer)
      ensures harmonics.Length == numberOfHarmonics
      ensures forall i :: 0 <= i < harmonics.Length ==> fresh(harmonics[i])
      ensures forall i, j :: 0 <= i < j < harmonics.Length ==> harmonics[i] != harmonics[j]
      ensures forall i :: 0 <= i < harmonics.Length ==>
        && harmonics[i].overtoneNumber == i + 1
        && harmonics[i].loudness == 1.0 / (i + 1) as real
        && harmonics[i].decay == 2.0
        && !harmonics[i].active
      ensures globals.loudness == 0.5 && globals.attack == 0.5 && globals.sustain == 0.5
      ensures globals.pitch == 440.0
      ensures audioBuffer.buffer.Length == 0 && audioBuffer.activeHarmonics == []
      ensures Renderable(Current())
    {
      harmonics := NewHarmonics(numberOfHarmonics);
      globals := new Globals();
      audioBuffer := new AudioBuffer(globals, harmonics, sine);
      DefaultDecaysRenderable(globals, harmonics[..]);
    }

    /** The harmonic loop of `init`: a new harmonic with overtone `i + 1` at every index `i`. */
    static method NewHarmonics(numberOfHarmonics: int) returns (harmonics: array<Harmonic>)
      requires 0 <= numberOfHarmonics
      ensures fresh(harmonics) && harmonics.Length == numberOfHarmonics
      ensures forall i :: 0 <= i < harmonics.Length ==> fresh(harmonics[i])
      ensures forall i, j :: 0 <= i < j < harmonics.Length ==> harmonics[i] != harmonics[j]
      ensures forall i :: 0 <= i < harmonics.Length ==>
        && harmonics[i].overtoneNumber == i + 1
        && harmonics[i].loudness == 1.0 / (i + 1) as real
        && harmonics[i].decay == 2.0
        && !harmonics[i].active
    {
      var made := new Harmonic?[numberOfHarmonics];
      for i := 0 to made.Length
        invariant forall k :: 0 <= k < i ==> made[k] != null && fresh(made[k])
        invariant forall k, l :: 0 <= k < l < i ==> made[k] != made[l]
        invariant forall k :: 0 <= k < i ==>
          && made[k].overtoneNumber == k + 1
          && made[k].loudness == 1.0 / (k + 1) as real
          && made[k].decay == 2.0
          && !made[k].active
      {
        made[i] := new Harmonic(i + 1);
      }
      harmonics := new Harmonic[made.Length](i requires 0 <= i < made.Length && made[i] != null reads made =>
                                               made[i] as Harmonic);
    }

    method GetHarmonics() returns (hs: array?<Harmonic>)
      ensures hs == harmonics
    {
      hs := harmonics;
    }

    method GetGlobals() returns (g: Globals?)
      ensures g == globals
    {
      g := globals;
    }

    /** One render pass over whatever the shared settings and harmonics hold now. */
    method Run()
      requires Shared() && Renderable(Current())
      modifies audioBuffer, audioBuffer.buffer, harmonics[..]`delta
      ensures Shared()
      ensures audioBuffer.Requested() == Current() == old(Current())
      ensures audioBuffer.buffer.Length == ByteLength(Current())
      ensures old(audioBuffer.buffer.Length) == audioBuffer.buffer.Length ==> audioBuffer.buffer == old(audioBuffer.buffer)
      ensures old(audioBuffer.buffer.Length) != audioBuffer.buffer.Length ==> fresh(audioBuffer.buffer)
      ensures audioBuffer.buffer[..]
              == Splice(if audioBuffer.buffer == old(audioBuffer.buffer) then old(audioBuffer.buffer[..])
                        else Zeros(audioBuffer.buffer.Length), 0, RenderBytes(Current(), sine))
      ensures audioBuffer.Rendered()
      ensures old(audioBuffer.Rendered()) ==>
        audioBuffer.buffer == old(audioBuffer.buffer) && audioBuffer.buffer[..] == old(audioBuffer.buffer[..])
    {
      audioBuffer.UpdateBuffer();
    }
  }
}
