/** The integer side of package `model` of the Go program: the input is
    padded or cut to two seconds of 16-bit audio, decoded into samples, cut
    into STFT frames and stacked into a three-channel tensor; a model's
    labels file is found beside it; the inference result maps labels to
    probabilities. The FFT, the decibel scaling, the normalisation, the
    resizing and the network itself work on floating point and are left out. */
module Model {
  import opened Base

  const SAMPLE_RATE: nat := 48000
  const AUDIO_LENGTH_BYTES: nat := 192000
  const N_MELS: nat := 128
  const N_FFT: nat := 2048
  const HOP_LENGTH: nat := 512
  const SPECTROGRAM_FRAMES: nat := 188

  /** `bins_to_keep`: the non-negative frequencies of an `N_FFT`-point FFT. */
  const BINS: nat := N_FFT / 2 + 1

  /** The shape of the tensor handed to the network. */
  const SHAPE: seq<nat> := [1, 3, N_MELS, SPECTROGRAM_FRAMES]

  lemma BinsAndShape()
    ensures BINS == 1025
    ensures SHAPE[0] * SHAPE[1] * SHAPE[2] * SHAPE[3] == 3 * (N_MELS * SPECTROGRAM_FRAMES)
  {
  }

  /** Step 1 of `Prepare`: zero bytes appended up to `AUDIO_LENGTH_BYTES`,
      or the input cut to its first `AUDIO_LENGTH_BYTES` bytes. */
  function PadOrTruncate(pcm: seq<byte>): seq<byte>
  {
    if |pcm| < AUDIO_LENGTH_BYTES then pcm + seq(AUDIO_LENGTH_BYTES - |pcm|, _ => 0)
    else if |pcm| > AUDIO_LENGTH_BYTES then pcm[..AUDIO_LENGTH_BYTES]
    else pcm
  }

  /** The prepared input is always two seconds long, keeps the input as its
      prefix when it is shorter (zeros after it) and its first two seconds
      when it is longer; it is the shared pad-or-cut of `Base`. */
  lemma PadOrTruncateFits(pcm: seq<byte>)
    ensures PadOrTruncate(pcm) == FitLength(pcm, AUDIO_LENGTH_BYTES, 0)
    ensures |PadOrTruncate(pcm)| == AUDIO_LENGTH_BYTES
    ensures |pcm| <= AUDIO_LENGTH_BYTES ==> PadOrTruncate(pcm)[..|pcm|] == pcm
    ensures |pcm| >= AUDIO_LENGTH_BYTES ==> PadOrTruncate(pcm) == pcm[..AUDIO_LENGTH_BYTES]
  {
    var r, f := PadOrTruncate(pcm), FitLength(pcm, AUDIO_LENGTH_BYTES, 0);
    if |pcm| < AUDIO_LENGTH_BYTES {
      assert r[..|pcm|] == pcm;
      forall i | 0 <= i < AUDIO_LENGTH_BYTES
        ensures r[i] == f[i]
      {
        if i < |pcm| {
          assert r[i] == r[..|pcm|][i] && f[i] == f[..|pcm|][i];
        }
      }
    }
  }

  /** `int16(uint16(lo) | uint16(hi)<<8)`: a signed little-endian sample. */
  function Int16LE(lo: byte, hi: byte): (v: int)
    ensures -32768 <= v < 32768
  {
    var u := lo as int + 256 * hi as int;
    if u >= 32768 then u - 65536 else u
  }

  /** The two bytes a sample is stored as, low byte first. */
  function Int16Bytes(v: int): (bytes: (byte, byte))
    requires -32768 <= v < 32768
  {
    var u := if v < 0 then v + 65536 else v;
    ((u % 256) as byte, (u / 256) as byte)
  }

  /** Decoding is a bijection between byte pairs and 16-bit samples. */
  lemma Int16RoundTrip(lo: byte, hi: byte, v: int)
    requires -32768 <= v < 32768
    ensures Int16LE(Int16Bytes(v).0, Int16Bytes(v).1) == v
    ensures Int16Bytes(Int16LE(lo, hi)) == (lo, hi)
  {
  }

  /** The sample in the top half of the unsigned range is negative:
      bytes 0xff 0xff decode to -1 and 0x00 0x80 to -32768. */
  lemma Int16Examples()
    ensures Int16LE(0xff, 0xff) == -1
    ensures Int16LE(0x00, 0x80) == -32768
    ensures Int16LE(0xff, 0x7f) == 32767
    ensures Int16LE(0x01, 0x00) == 1
  {
  }

  /** The integer loop of `normalizeAudio`: one sample per byte pair; an odd
      trailing byte is ignored. (The division by 32768 is left out.) */
  method DecodeSamples(pcm: seq<byte>) returns (samples: array<int>)
    ensures fresh(samples)
    ensures samples.Length == |pcm| / 2
    ensures forall i :: 0 <= i < samples.Length ==> samples[i] == Int16LE(pcm[2 * i], pcm[2 * i + 1])
  {
    var numSamples := |pcm| / 2;
    samples := new int[numSamples];
    for i := 0 to numSamples
      invariant forall k :: 0 <= k < i ==> samples[k] == Int16LE(pcm[2 * k], pcm[2 * k + 1])
    {
      samples[i] := Int16LE(pcm[i * 2], pcm[i * 2 + 1]);
    }
  }

  /** Go's integer division, which truncates toward zero. */
  function GoQuotient(a: int, b: nat): int
    requires b > 0
  {
    if a >= 0 then a / b else -((-a) / b)
  }

  /** `n_frames_calculated` for a signal of `numSamples` samples. */
  function FrameCount(numSamples: nat): int
  {
    Min(GoQuotient(numSamples - N_FFT, HOP_LENGTH) + 1, SPECTROGRAM_FRAMES)
  }

  /** Every frame counted lies inside the signal, and one more would not:
      no window is cut short once the signal holds a full window. */
  lemma FramesFitSignal(numSamples: nat)
    requires numSamples >= N_FFT
    ensures 1 <= FrameCount(numSamples) <= SPECTROGRAM_FRAMES
    ensures forall i :: 0 <= i < FrameCount(numSamples) ==> i * HOP_LENGTH + N_FFT <= numSamples
    ensures FrameCount(numSamples) < SPECTROGRAM_FRAMES ==>
      FrameCount(numSamples) * HOP_LENGTH + N_FFT > numSamples
  {
    var q := (numSamples - N_FFT) / HOP_LENGTH;
    assert q * HOP_LENGTH <= numSamples - N_FFT < (q + 1) * HOP_LENGTH;
    forall i | 0 <= i < FrameCount(numSamples)
      ensures i * HOP_LENGTH + N_FFT <= numSamples
    {
      assert i <= q;
      assert i * HOP_LENGTH <= q * HOP_LENGTH;
    }
  }

  /** Two seconds of input are 96000 samples, which give 184 frames; the
      last four columns of the 188 stay zero. */
  lemma PreparedFrameCount(pcm: seq<byte>)
    ensures |PadOrTruncate(pcm)| / 2 == 96000
    ensures FrameCount(96000) == 184
  {
    PadOrTruncateFits(pcm);
  }

  /** Steps 1 to 3 of `Prepare` up to the frame count: whatever the input
      length, 96000 samples decoded from the padded or cut input, of which
      184 frames are analysed. */
  method PrepareSamples(pcm: seq<byte>) returns (samples: array<int>, nFrames: int)
    ensures fresh(samples)
    ensures samples.Length == 96000 && nFrames == 184
    ensures forall i :: 0 <= i < samples.Length ==>
      samples[i] == Int16LE(FitLength(pcm, AUDIO_LENGTH_BYTES, 0)[2 * i], FitLength(pcm, AUDIO_LENGTH_BYTES, 0)[2 * i + 1])
  {
    var padded := PadOrTruncate(pcm);
    PreparedFrameCount(pcm);
    samples := DecodeSamples(padded);
    nFrames := FrameCount(samples.Length);
  }

  /** Truncation toward zero: a signal a little shorter than a window still
      gets one (clipped) frame, and a much shorter one gets none. */
  lemma ShortSignalFrames()
    ensures FrameCount(2000) == 1
    ensures FrameCount(1000) == -1
  {
  }

  /** The STFT loop of `Prepare`, with the magnitude of bin `j` of frame `i`
      supplied as `power(i, j)` (the window and the FFT are left out): a
      zeroed `BINS` x `SPECTROGRAM_FRAMES` grid whose first `nFrames`
      columns are filled. */
  method FillSpectrogram(nFrames: int, power: (nat, nat) -> real) returns (spec: array2<real>)
    requires nFrames <= SPECTROGRAM_FRAMES
    ensures fresh(spec)
    ensures spec.Length0 == BINS && spec.Length1 == SPECTROGRAM_FRAMES
    ensures forall j, c :: 0 <= j < BINS && 0 <= c < SPECTROGRAM_FRAMES ==>
      spec[j, c] == if c < nFrames then power(c, j) else 0.0
  {
    spec := new real[BINS, SPECTROGRAM_FRAMES]((_, _) => 0.0);
    var i := 0;
    while i < nFrames
      invariant 0 <= i <= Max(nFrames, 0)
      invariant forall j, c :: 0 <= j < BINS && 0 <= c < SPECTROGRAM_FRAMES ==>
        spec[j, c] == if c < i then power(c, j) else 0.0
    {
      for j := 0 to BINS
        invariant forall r, c :: 0 <= r < BINS && 0 <= c < SPECTROGRAM_FRAMES ==>
          spec[r, c] == if c < i || (c == i && r < j) then power(c, r) else 0.0
      {
        spec[j, i] := power(i, j);
      }
      i := i + 1;
    }
  }

  /** `copy(dst[offset:], src)` for a destination with room for all of `src`. */
  method CopyInto(dst: array<real>, offset: nat, src: seq<real>)
    requires offset + |src| <= dst.Length
    modifies dst
    ensures dst[offset..offset + |src|] == src
    ensures forall k :: 0 <= k < dst.Length && !(offset <= k < offset + |src|) ==> dst[k] == old(dst[k])
  {
    for k := 0 to |src|
      invariant forall m :: 0 <= m < k ==> dst[offset + m] == src[m]
      invariant forall m :: 0 <= m < dst.Length && !(offset <= m < offset + k) ==> dst[m] == old(dst[m])
    {
      dst[offset + k] := src[k];
    }
  }

  /** Step 6 of `Prepare`: the normalised image copied into each of the
      three channels of the tensor's backing array. */
  method StackChannels(img: seq<real>) returns (out: array<real>)
    ensures fresh(out)
    ensures out.Length == 3 * |img|
    ensures out[..|img|] == img && out[|img|..2 * |img|] == img && out[2 * |img|..] == img
  {
    var size := |img|;
    out := new real[size * 3];
    CopyInto(out, 0, img);
    assert out[..size] == img;
    CopyInto(out, size, img);
    assert out[..size] == img;
    CopyInto(out, size * 2, img);
    assert out[..size] == img && out[size..2 * size] == img;
  }

  /** `filepath.Ext`: the suffix from the last dot of the last path element,
      or empty when that element has no dot. */
  function Ext(path: string): (ext: string)
    ensures |ext| <= |path| && ext == path[|path| - |ext|..]
    decreases |path|
  {
    if path == [] || path[|path| - 1] == '/' then []
    else if path[|path| - 1] == '.' then ['.']
    else
      var rest := Ext(path[..|path| - 1]);
      if rest == [] then [] else rest + [path[|path| - 1]]
  }

  /** A non-empty extension starts at a dot and stays inside the last path element. */
  lemma {:induction false} ExtShape(path: string)
    ensures Ext(path) != [] ==> Ext(path)[0] == '.' && '/' !in Ext(path)
    decreases |path|
  {
    if path != [] && path[|path| - 1] != '/' && path[|path| - 1] != '.' {
      ExtShape(path[..|path| - 1]);
    }
  }

  /** The extension of `stem.tail`, when `tail` has no dot or slash, is `.tail`. */
  lemma {:induction false} ExtOfName(stem: string, tail: string)
    requires '.' !in tail && '/' !in tail
    ensures Ext(stem + "." + tail) == "." + tail
    decreases |tail|
  {
    if tail != [] {
      var n := |tail| - 1;
      ExtOfName(stem, tail[..n]);
      assert (stem + "." + tail)[..|stem| + 1 + n] == stem + "." + tail[..n];
      assert "." + tail[..n] + [tail[n]] == "." + tail;
    }
  }

  /** A last path element without a dot has no extension, whatever the directories hold. */
  lemma {:induction false} ExtOfPlainName(dir: string, name: string)
    requires '.' !in name && '/' !in name
    ensures Ext(dir + "/" + name) == []
    decreases |name|
  {
    if name != [] {
      var n := |name| - 1;
      ExtOfPlainName(dir, name[..n]);
      assert (dir + "/" + name)[..|dir| + 1 + n] == dir + "/" + name[..n];
    }
  }

  /** The suffix `Load` puts in place of the model file's extension. */
  const LABELS_SUFFIX := "_labels.json"

  /** `Load`'s labels file: the model path without its extension, then `_labels.json`. */
  function LabelsPath(modelPath: string): string
  {
    modelPath[..|modelPath| - |Ext(modelPath)|] + LABELS_SUFFIX
  }

  /** The labels file of `stem.tail` is `stem_labels.json`, dots in the stem included. */
  lemma LabelsPathOfName(stem: string, tail: string)
    requires '.' !in tail && '/' !in tail
    ensures LabelsPath(stem + "." + tail) == stem + LABELS_SUFFIX
  {
    ExtOfName(stem, tail);
    assert (stem + "." + tail)[..|stem|] == stem;
  }

  /** A model file without an extension gets the suffix appended, even when a
      directory above it has a dot. */
  lemma LabelsPathOfPlainName(dir: string, name: string)
    requires '.' !in name && '/' !in name
    ensures LabelsPath(dir + "/" + name) == dir + "/" + name + LABELS_SUFFIX
  {
    ExtOfPlainName(dir, name);
  }

  lemma LabelsPathExamples()
    ensures LabelsPath("m.onnx") == "m" + LABELS_SUFFIX
    ensures LabelsPath("a.b.onnx") == "a.b" + LABELS_SUFFIX
    ensures LabelsPath("v.2/m") == "v.2/m" + LABELS_SUFFIX
  {
    LabelsPathOfName("m", "onnx");
    assert "m" + "." + "onnx" == "m.onnx";
    LabelsPathOfName("a.b", "onnx");
    assert "a.b" + "." + "onnx" == "a.b.onnx";
    LabelsPathOfPlainName("v.2", "m");
    assert "v.2" + "/" + "m" == "v.2/m";
  }

  /** The result map of `Infer` after the labels in `labels` were visited:
      a label gets the probability at its position when there is one, and a
      repeated label keeps the last. */
  function Results(labels: seq<string>, probs: seq<real>): map<string, real>
    decreases |labels|
  {
    if labels == [] then map[]
    else
      var i := |labels| - 1;
      var before := Results(labels[..i], probs);
      if i < |probs| then before[labels[i] := probs[i]] else before
  }

  /** The result loop of `Infer`. */
  method InferResults(labels: seq<string>, probs: seq<real>) returns (results: map<string, real>)
    ensures results == Results(labels, probs)
  {
    results := map[];
    for i := 0 to |labels|
      invariant results == Results(labels[..i], probs)
    {
      assert labels[..i + 1][..i] == labels[..i];
      if i < |probs| {
        results := results[labels[i] := probs[i]];
      }
    }
    assert labels[..|labels|] == labels;
  }

  /** A label is reported exactly when it has a probability; with distinct
      labels each one gets the probability at its own position. */
  lemma {:induction false} ResultsKeys(labels: seq<string>, probs: seq<real>)
    ensures forall l :: l in Results(labels, probs) <==>
      exists i :: 0 <= i < Min(|labels|, |probs|) && labels[i] == l
    decreases |labels|
  {
    if labels != [] {
      var n := |labels| - 1;
      ResultsKeys(labels[..n], probs);
      forall l
        ensures l in Results(labels, probs) <==> exists i :: 0 <= i < Min(|labels|, |probs|) && labels[i] == l
      {
        if l in Results(labels[..n], probs) {
          var i :| 0 <= i < Min(n, |probs|) && labels[..n][i] == l;
          assert labels[i] == l;
        }
        if exists i :: 0 <= i < Min(|labels|, |probs|) && labels[i] == l {
          var i :| 0 <= i < Min(|labels|, |probs|) && labels[i] == l;
          if i < n {
            assert labels[..n][i] == l;
          }
        }
      }
    }
  }

  lemma {:induction false} ResultsOfDistinct(labels: seq<string>, probs: seq<real>)
    requires forall i, j :: 0 <= i < j < |labels| ==> labels[i] != labels[j]
    ensures forall i :: 0 <= i < Min(|labels|, |probs|) ==>
      labels[i] in Results(labels, probs) && Results(labels, probs)[labels[i]] == probs[i]
    decreases |labels|
  {
    if labels != [] {
      var n := |labels| - 1;
      ResultsOfDistinct(labels[..n], probs);
      forall i | 0 <= i < Min(|labels|, |probs|)
        ensures labels[i] in Results(labels, probs) && Results(labels, probs)[labels[i]] == probs[i]
      {
        if i < n {
          assert labels[..n][i] == labels[i];
        }
      }
    }
  }
}
