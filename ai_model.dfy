/** The integer side of the Python model code (`ai/model.py`): its size
    constants and `pad_audio`. */
module AiModel {
  import opened Base
  import Model

  const BYTES_PER_SECOND: nat := 96000
  const SAMPLE_RATE: nat := 48000
  const SEGMENT_SIZE: nat := 2
  const SAMPLE_SIZE: nat := SAMPLE_RATE * SEGMENT_SIZE

  /** `SAMPLE_SIZE` counts two seconds of samples, but `pad_audio` uses it as
      a byte count: one second of 16-bit mono audio, half of what the Go
      `Prepare` keeps. */
  lemma SampleSizeIsOneSecondOfBytes()
    ensures SAMPLE_SIZE == 96000 == BYTES_PER_SECOND
    ensures 2 * SAMPLE_SIZE == Model.AUDIO_LENGTH_BYTES
  {
  }

  /** `pad_audio`: zero bytes appended when short, cut when long. */
  function PadAudio(raw: seq<byte>): seq<byte>
  {
    if |raw| < SAMPLE_SIZE then raw + seq(SAMPLE_SIZE - |raw|, _ => 0)
    else if |raw| > SAMPLE_SIZE then raw[..SAMPLE_SIZE]
    else raw
  }

  /** The result always has `SAMPLE_SIZE` bytes; short input is kept and
      followed by zeros, long input keeps its first `SAMPLE_SIZE` bytes. */
  lemma PadAudioFits(raw: seq<byte>)
    ensures |PadAudio(raw)| == SAMPLE_SIZE
    ensures |raw| <= SAMPLE_SIZE ==>
      PadAudio(raw)[..|raw|] == raw && forall i :: |raw| <= i < SAMPLE_SIZE ==> PadAudio(raw)[i] == 0
    ensures |raw| >= SAMPLE_SIZE ==> PadAudio(raw) == raw[..SAMPLE_SIZE]
  {
    if |raw| < SAMPLE_SIZE {
      assert PadAudio(raw)[..|raw|] == raw;
    }
  }

  /** It is the same pad-or-cut as `Base.FitLength`, hence exact-size input
      is returned unchanged and padding twice is padding once. */
  lemma PadAudioIdempotent(raw: seq<byte>)
    ensures PadAudio(raw) == FitLength(raw, SAMPLE_SIZE, 0)
    ensures PadAudio(PadAudio(raw)) == PadAudio(raw)
    ensures |raw| == SAMPLE_SIZE ==> PadAudio(raw) == raw
  {
    var r, f := PadAudio(raw), FitLength(raw, SAMPLE_SIZE, 0);
    PadAudioFits(raw);
    if |raw| < SAMPLE_SIZE {
      forall i | 0 <= i < SAMPLE_SIZE
        ensures r[i] == f[i]
      {
        if i < |raw| {
          assert r[i] == r[..|raw|][i] && f[i] == f[..|raw|][i];
        }
      }
    }
  }

  /** A segment prepared for the Go model loses its second second here. */
  lemma GoSegmentIsCut(pcm: seq<byte>)
    ensures var prepared := Model.PadOrTruncate(pcm);
      PadAudio(prepared) == prepared[..SAMPLE_SIZE] && |PadAudio(prepared)| * 2 == |prepared|
  {
    Model.PadOrTruncateFits(pcm);
  }
}
