/** A decoded PCM buffer (the Web Audio AudioBuffer as the engine uses it):
    a sample rate and one sequence of samples per channel, immutable once decoded. */
module Pcm {

  datatype AudioBuffer = AudioBuffer(sampleRate: nat, channels: seq<seq<real>>)
  {
    /** What every AudioBuffer satisfies: a positive rate, at least one channel,
        and all channels of one common length. */
    predicate WellFormed()
    {
      && sampleRate > 0
      && |channels| >= 1
      && forall c :: 0 <= c < |channels| ==> |channels[c]| == |channels[0]|
    }

    /** numberOfChannels */
    function NumberOfChannels(): nat { |channels| }

    /** length, in sample frames */
    function Length(): nat { if |channels| == 0 then 0 else |channels[0]| }

    /** duration, in seconds: length / sampleRate */
    function Duration(): real
      requires sampleRate > 0
    {
      Length() as real / sampleRate as real
    }
  }
}
