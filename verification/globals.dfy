/** The tone-wide parameters: loudness, attack, sustain, pitch and the fixed sample rate. */
module Settings {

  /** Samples per second of the output format; `Globals` has no setter for it. */
  const SAMPLE_RATE: int := 44100

  /** A mutable record of the global envelope parameters.  Setters store their
      argument unchecked: the range hints of the control surface are not enforced. */
  class Globals {
    var loudness: real
    var attack: real
    var sustain: real
    var pitch: real
    const sampleRate: int := SAMPLE_RATE

    constructor ()
      ensures loudness == 0.5 && attack == 0.5 && sustain == 0.5 && pitch == 440.0
      ensures sampleRate == 44100
    {
      loudness := 0.5;
      attack := 0.5;
      sustain := 0.5;
      pitch := 440.0;
    }

    method GetLoudness() returns (r: real)
      ensures r == loudness
    {
      r := loudness;
    }

    method SetLoudness(loudness: real)
      modifies this
      ensures this.loudness == loudness
      ensures attack == old(attack) && sustain == old(sustain) && pitch == old(pitch)
    {
      this.loudness := loudness;
    }

    method GetAttack() returns (r: real)
      ensures r == attack
    {
      r := attack;
    }

    method SetAttack(attack: real)
      modifies this
      ensures this.attack == attack
      ensures loudness == old(loudness) && sustain == old(sustain) && pitch == old(pitch)
    {
      this.attack := attack;
    }

    method GetSustain() returns (r: real)
      ensures r == sustain
    {
      r := sustain;
    }

    method SetSustain(sustain: real)
      modifies this
      ensures this.sustain == sustain
      ensures loudness == old(loudness) && attack == old(attack) && pitch == old(pitch)
    {
      this.sustain := sustain;
    }

    method GetPitch() returns (r: real)
      ensures r == pitch
    {
      r := pitch;
    }

    method SetPitch(pitch: real)
      modifies this
      ensures this.pitch == pitch
      ensures loudness == old(loudness) && attack == old(attack) && sustain == old(sustain)
    {
      this.pitch := pitch;
    }

    /** The sample rate is a constant of the object: 44100 for its whole lifetime. */
    method GetSampleRate() returns (r: int)
      ensures r == sampleRate == 44100
    {
      r := sampleRate;
    }
  }
}
