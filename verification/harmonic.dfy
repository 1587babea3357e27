/** One partial of the tone: a fixed overtone number with its own loudness, decay and on/off switch. */
module Harmonics {

  /** A mutable record of one harmonic's settings.  `delta`, the phase step per
      sample, is not set by the record itself: the renderer writes it on every pass. */
  class Harmonic {
    const overtoneNumber: int
    var loudness: real
    var decay: real
    var active: bool
    var delta: real

    /** A new harmonic falls off naturally (loudness 1/n), decays in 2 s and is off:
        the constructor never sets `active`, so it keeps Java's default `false`. */
    constructor (overtoneNumber: int)
      requires overtoneNumber != 0
      ensures this.overtoneNumber == overtoneNumber
      ensures loudness == 1.0 / overtoneNumber as real && decay == 2.0
      ensures !active && delta == 0.0
    {
      this.overtoneNumber := overtoneNumber;
      loudness := 1.0 / overtoneNumber as real;
      decay := 2.0;
      active := false;
      delta := 0.0;
    }

    method SetLoudness(loudness: real)
      modifies this
      ensures this.loudness == loudness
      ensures decay == old(decay) && active == old(active) && delta == old(delta)
    {
      this.loudness := loudness;
    }

    method GetLoudness() returns (r: real)
      ensures r == loudness
    {
      r := loudness;
    }

    method SetDecay(decay: real)
      modifies this
      ensures this.decay == decay
      ensures loudness == old(loudness) && active == old(active) && delta == old(delta)
    {
      this.decay := decay;
    }

    method GetDecay() returns (r: real)
      ensures r == decay
    {
      r := decay;
    }

    /** Switching a harmonic off mutes it; its loudness and decay are kept. */
    method SetActive(active: bool)
      modifies this
      ensures this.active == active
      ensures loudness == old(loudness) && decay == old(decay) && delta == old(delta)
    {
      this.active := active;
    }

    method GetActive() returns (r: bool)
      ensures r == active
    {
      r := active;
    }

    method GetOvertoneNumber() returns (r: int)
      ensures r == overtoneNumber
    {
      r := overtoneNumber;
    }
  }
}
