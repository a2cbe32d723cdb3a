/** The tone player that the sequencer calls into (js/audio.js). Oscillators
    and gain envelopes are not modelled: a tone request is recorded as the
    pair (frequency, duration) it was requested with. */
module Audio {

  datatype Tone = Tone(frequency: real, duration: real)

  class TonePlayer {
    /** Whether the audio context has been started by a first interaction. */
    var initialized: bool
    /** Every playTone request so far, oldest first. */
    var requested: seq<Tone>

    constructor ()
      ensures !initialized && requested == []
    {
      initialized := false;
      requested := [];
    }

    method Initialize()
      modifies this
      ensures initialized && requested == old(requested)
    {
      initialized := true;
    }

    method PlayTone(frequency: real, duration: real)
      modifies this
      ensures requested == old(requested) + [Tone(frequency, duration)]
      ensures initialized == old(initialized)
    {
      requested := requested + [Tone(frequency, duration)];
    }
  }
}
