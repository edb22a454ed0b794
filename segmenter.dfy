/** `stream_to_segment` of the Go daemon: the recorder's WAV stream is cut
    into fixed-size segments with a running sequence number. The stream is a
    sequence of capture epochs; each ends either at end of stream (the
    partial buffer is dropped and reading starts over) or at a read error
    (fatal). */
module Segmenter {
  import opened Base
  import Scanner

  /** Go's `uint` counter wraps around at 2^64. */
  const UINT_MODULUS: nat := 0x1_0000_0000_0000_0000

  /** How reading one capture's stream stopped: `io.EOF` or
      `io.ErrUnexpectedEOF` (reset), or any other error. */
  datatype StreamEnd = Eof | ReadError(message: string)

  /** The bytes one capture cycle writes to the pipe and how reading them ended. */
  datatype Epoch = Epoch(data: seq<byte>, end: StreamEnd)

  /** The full buffers `io.ReadFull` fills from `data`; a shorter tail fills none. */
  function Chunks(data: seq<byte>, size: nat): seq<seq<byte>>
    requires size > 0
    decreases |data|
  {
    if |data| < size then [] else [data[..size]] + Chunks(data[size..], size)
  }

  /** As many buffers are filled as fit: what is left is shorter than one buffer. */
  lemma {:induction false} ChunksCount(data: seq<byte>, size: nat)
    requires size > 0
    ensures |Chunks(data, size)| * size <= |data| < (|Chunks(data, size)| + 1) * size
    decreases |data|
  {
    if |data| >= size {
      var rest := data[size..];
      ChunksCount(rest, size);
      var n := |Chunks(rest, size)|;
      assert |Chunks(data, size)| == n + 1;
      assert (n + 1) * size == n * size + size;
      assert (n + 2) * size == (n + 1) * size + size;
    }
  }

  function Concat(parts: seq<seq<byte>>): seq<byte>
    decreases |parts|
  {
    if parts == [] then [] else parts[0] + Concat(parts[1..])
  }

  /** The buffers hold exactly the stream minus its incomplete tail: their
      concatenation is a prefix of the stream, shorter by less than a buffer. */
  lemma {:induction false} ChunksDropOnlyTail(data: seq<byte>, size: nat)
    requires size > 0
    ensures var kept := Concat(Chunks(data, size));
      |kept| <= |data| && kept == data[..|kept|] && |data| - |kept| < size
    decreases |data|
  {
    if |data| >= size {
      var rest := data[size..];
      ChunksDropOnlyTail(rest, size);
      var keptRest := Concat(Chunks(rest, size));
      assert Concat(Chunks(data, size)) == data[..size] + keptRest;
      assert data[..size + |keptRest|] == data[..size] + rest[..|keptRest|];
    }
  }

  /** The buffers filled from a sequence of epochs, stopping after the epoch
      whose read failed (the program dies there). */
  function SegmentData(epochs: seq<Epoch>, size: nat): seq<seq<byte>>
    requires size > 0
    decreases |epochs|
  {
    if epochs == [] then []
    else Chunks(epochs[0].data, size) + (if epochs[0].end.ReadError? then [] else SegmentData(epochs[1..], size))
  }

  /** The message of the first failing read, if any. */
  function FirstError(epochs: seq<Epoch>): Option<string>
    decreases |epochs|
  {
    if epochs == [] then None
    else if epochs[0].end.ReadError? then Some(epochs[0].end.message)
    else FirstError(epochs[1..])
  }

  /** Buffers numbered from `first` on, as the wrapping `uint` counter numbers them. */
  function Numbered(datas: seq<seq<byte>>, first: nat): (r: seq<Scanner.Segment>)
    ensures |r| == |datas|
    ensures forall k :: 0 <= k < |r| ==> r[k].count == (first + k) % UINT_MODULUS && r[k].data == datas[k]
  {
    seq(|datas|, k requires 0 <= k < |datas| => Scanner.Segment((first + k) % UINT_MODULUS, datas[k]))
  }

  /** `stream_to_segment`: the segments it sends, and the fatal message it
      dies with when a read fails with anything but end of stream. */
  method StreamToSegment(epochs: seq<Epoch>, size: nat) returns (segments: seq<Scanner.Segment>, died: Option<string>)
    requires size > 0
    ensures segments == Numbered(SegmentData(epochs, size), 0)
    ensures died == Fatal(FirstError(epochs))
  {
    segments := [];
    died := None;
    var id: nat := 0;
    ghost var sent: seq<seq<byte>> := [];
    ghost var firstError := FirstError(epochs);
    ghost var allData := SegmentData(epochs, size);
    var rest := epochs;
    while rest != []
      invariant allData == sent + SegmentData(rest, size)
      invariant firstError == FirstError(rest)
      invariant segments == Numbered(sent, 0)
      invariant id == |sent| % UINT_MODULUS
      decreases |rest|
    {
      var epoch := rest[0];
      ghost var chunks := Chunks(epoch.data, size);
      var filled;
      filled, id := FillBuffers(epoch.data, size, id);
      NumberedExtend(sent, chunks, filled, id);
      segments := segments + filled;
      if epoch.end.ReadError? {
        ErrorEpochStep(sent, rest, size);
        sent := sent + chunks;
        died := Fatal(Some(epoch.end.message));
        return;
      }
      EofEpochStep(sent, rest, size);
      sent := sent + chunks;
      rest := rest[1..];
    }
  }

  /** An epoch that ends in a failed read is the last one whose buffers are sent. */
  lemma ErrorEpochStep(sent: seq<seq<byte>>, rest: seq<Epoch>, size: nat)
    requires size > 0 && rest != [] && rest[0].end.ReadError?
    ensures sent + SegmentData(rest, size) == sent + Chunks(rest[0].data, size)
    ensures FirstError(rest) == Some(rest[0].end.message)
  {
    assert SegmentData(rest, size) == Chunks(rest[0].data, size) + [];
  }

  /** After an epoch that ends at end of stream, reading goes on with the next. */
  lemma EofEpochStep(sent: seq<seq<byte>>, rest: seq<Epoch>, size: nat)
    requires size > 0 && rest != [] && rest[0].end.Eof?
    ensures sent + SegmentData(rest, size) == (sent + Chunks(rest[0].data, size)) + SegmentData(rest[1..], size)
    ensures FirstError(rest) == FirstError(rest[1..])
  {
    assert SegmentData(rest, size) == Chunks(rest[0].data, size) + SegmentData(rest[1..], size);
  }

  /** The message the segmenter dies with after a failed read. */
  function Fatal(error: Option<string>): Option<string>
  {
    match error
    case None => None
    case Some(m) => Some("Unhandled stream read error: " + m)
  }

  /** The inner part of the loop for one epoch: fill and send buffers until
      `io.ReadFull` reports the end of the stream or an error. */
  method FillBuffers(data: seq<byte>, size: nat, first: nat) returns (filled: seq<Scanner.Segment>, next: nat)
    requires size > 0 && first < UINT_MODULUS
    ensures filled == Numbered(Chunks(data, size), first)
    ensures next == (first + |filled|) % UINT_MODULUS
  {
    filled := [];
    next := first;
    var rest := data;
    ghost var done: seq<seq<byte>> := [];
    while |rest| >= size
      invariant Chunks(data, size) == done + Chunks(rest, size)
      invariant filled == Numbered(done, first)
      invariant next == (first + |done|) % UINT_MODULUS
      decreases |rest|
    {
      var segmentData := rest[..size];
      assert Chunks(rest, size) == [segmentData] + Chunks(rest[size..], size);
      rest := rest[size..];
      assert Numbered(done + [segmentData], first) == filled + [Scanner.Segment(next, segmentData)];
      filled := filled + [Scanner.Segment(next, segmentData)];
      done := done + [segmentData];
      WrapStep(first + |done| - 1);
      next := (next + 1) % UINT_MODULUS;
    }
    assert done == Chunks(data, size);
  }

  /** Appending one epoch's segments keeps the numbering and the counter in step. */
  lemma NumberedExtend(sent: seq<seq<byte>>, chunks: seq<seq<byte>>, filled: seq<Scanner.Segment>, id: nat)
    requires filled == Numbered(chunks, |sent| % UINT_MODULUS)
    requires id == (|sent| % UINT_MODULUS + |filled|) % UINT_MODULUS
    ensures Numbered(sent, 0) + filled == Numbered(sent + chunks, 0)
    ensures id == |sent + chunks| % UINT_MODULUS
  {
    NumberedConcat(sent, chunks);
    WrapShift(|sent|, |chunks|);
  }

  /** Numbering two runs of buffers in turn is numbering them together. */
  lemma NumberedConcat(d1: seq<seq<byte>>, d2: seq<seq<byte>>)
    ensures Numbered(d1 + d2, 0) == Numbered(d1, 0) + Numbered(d2, |d1| % UINT_MODULUS)
  {
    forall k | 0 <= k < |d2|
      ensures Numbered(d2, |d1| % UINT_MODULUS)[k].count == (|d1| + k) % UINT_MODULUS
    {
      WrapShift(|d1|, k);
    }
  }

  lemma WrapShift(a: nat, k: nat)
    ensures (a % UINT_MODULUS + k) % UINT_MODULUS == (a + k) % UINT_MODULUS
  {
  }

  /** `segment_id++` on a 64-bit unsigned counter keeps it equal to the
      number of segments sent, modulo 2^64. */
  lemma WrapStep(n: nat)
    ensures (n % UINT_MODULUS + 1) % UINT_MODULUS == (n + 1) % UINT_MODULUS
  {
  }

  /** Every buffer filled holds exactly `size` bytes. */
  lemma {:induction false} ChunksAreFull(data: seq<byte>, size: nat)
    requires size > 0
    ensures forall k :: 0 <= k < |Chunks(data, size)| ==> |Chunks(data, size)[k]| == size
    decreases |data|
  {
    if |data| >= size {
      ChunksAreFull(data[size..], size);
      assert Chunks(data, size)[1..] == Chunks(data[size..], size);
    }
  }

  /** Every segment sent holds exactly one buffer of `size` bytes. */
  lemma {:induction false} SegmentsAreFull(epochs: seq<Epoch>, size: nat)
    requires size > 0
    ensures forall k :: 0 <= k < |SegmentData(epochs, size)| ==> |SegmentData(epochs, size)[k]| == size
    decreases |epochs|
  {
    if epochs != [] {
      ChunksAreFull(epochs[0].data, size);
      SegmentsAreFull(epochs[1..], size);
    }
  }

  /** Fewer than 2^64 segments carry strictly increasing, hence distinct,
      numbers 0, 1, 2, ... */
  lemma CountsIncrease(datas: seq<seq<byte>>)
    requires |datas| <= UINT_MODULUS
    ensures forall k :: 0 <= k < |datas| ==> Numbered(datas, 0)[k].count == k
    ensures forall i, j :: 0 <= i < j < |datas| ==> Numbered(datas, 0)[i].count < Numbered(datas, 0)[j].count
  {
  }

  /** A restart does not reset the counter: the epochs after an end of
      stream continue the numbering where the earlier ones stopped. */
  lemma RestartContinuesNumbering(e1: seq<Epoch>, e2: seq<Epoch>, size: nat)
    requires size > 0
    requires FirstError(e1) == None
    ensures SegmentData(e1 + e2, size) == SegmentData(e1, size) + SegmentData(e2, size)
    ensures Numbered(SegmentData(e1 + e2, size), 0)
      == Numbered(SegmentData(e1, size), 0) + Numbered(SegmentData(e2, size), |SegmentData(e1, size)|)
  {
    SegmentDataAppend(e1, e2, size);
    var d1, d2 := SegmentData(e1, size), SegmentData(e2, size);
    NumberedConcat(d1, d2);
    NumberedWraps(d2, |d1|);
  }

  lemma {:induction false} SegmentDataAppend(e1: seq<Epoch>, e2: seq<Epoch>, size: nat)
    requires size > 0
    requires FirstError(e1) == None
    ensures SegmentData(e1 + e2, size) == SegmentData(e1, size) + SegmentData(e2, size)
    decreases |e1|
  {
    if e1 == [] {
      assert e1 + e2 == e2;
    } else {
      assert (e1 + e2)[1..] == e1[1..] + e2;
      assert (e1 + e2)[0] == e1[0];
      SegmentDataAppend(e1[1..], e2, size);
    }
  }

  /** Only the counter modulo 2^64 matters for the numbers given out. */
  lemma NumberedWraps(d: seq<seq<byte>>, first: nat)
    ensures Numbered(d, first) == Numbered(d, first % UINT_MODULUS)
  {
    forall k | 0 <= k < |d|
      ensures Numbered(d, first)[k].count == Numbered(d, first % UINT_MODULUS)[k].count
    {
      WrapShift(first, k);
    }
  }

  /** A failed read ends segmentation: nothing read after it is ever sent. */
  lemma {:induction false} ReadErrorStopsSegmentation(e1: seq<Epoch>, data: seq<byte>, message: string, e2: seq<Epoch>, size: nat)
    requires size > 0
    requires FirstError(e1) == None
    ensures SegmentData(e1 + [Epoch(data, ReadError(message))] + e2, size) == SegmentData(e1, size) + Chunks(data, size)
    ensures FirstError(e1 + [Epoch(data, ReadError(message))] + e2) == Some(message)
    decreases |e1|
  {
    var all := e1 + [Epoch(data, ReadError(message))] + e2;
    if e1 == [] {
      assert all[0] == Epoch(data, ReadError(message));
    } else {
      assert all[1..] == e1[1..] + [Epoch(data, ReadError(message))] + e2;
      ReadErrorStopsSegmentation(e1[1..], data, message, e2, size);
    }
  }

  /** A small stream with buffers of 4 bytes: 10 bytes give two segments and
      lose their last 2; after the reset, 5 more bytes give segment 2. */
  lemma RestartExample()
    ensures var first := Epoch([1, 2, 3, 4, 5, 6, 7, 8, 9, 10], Eof);
      var second := Epoch([11, 12, 13, 14, 15], Eof);
      Numbered(SegmentData([first, second], 4), 0) == [
        Scanner.Segment(0, [1, 2, 3, 4]),
        Scanner.Segment(1, [5, 6, 7, 8]),
        Scanner.Segment(2, [11, 12, 13, 14])]
  {
    var first := Epoch([1, 2, 3, 4, 5, 6, 7, 8, 9, 10], Eof);
    var second := Epoch([11, 12, 13, 14, 15], Eof);
    assert first.data[..4] == [1, 2, 3, 4] && first.data[4..] == [5, 6, 7, 8, 9, 10];
    assert first.data[4..][..4] == [5, 6, 7, 8] && first.data[4..][4..] == [9, 10];
    assert Chunks([9, 10], 4) == [];
    assert Chunks(first.data[4..], 4) == [[5, 6, 7, 8]] + Chunks([9, 10], 4);
    assert Chunks(first.data, 4) == [[1, 2, 3, 4], [5, 6, 7, 8]];
    assert second.data[..4] == [11, 12, 13, 14] && second.data[4..] == [15];
    assert Chunks([15], 4) == [];
    assert Chunks(second.data, 4) == [[11, 12, 13, 14]];
    assert [first, second][1..] == [second];
    assert [second][1..] == [];
    assert SegmentData([second], 4) == Chunks(second.data, 4) + SegmentData([], 4);
    assert SegmentData([first, second], 4) == Chunks(first.data, 4) + SegmentData([second], 4);
    var datas := SegmentData([first, second], 4);
    assert datas == [[1, 2, 3, 4], [5, 6, 7, 8], [11, 12, 13, 14]];
    var numbered := Numbered(datas, 0);
    assert numbered[0] == Scanner.Segment(0, [1, 2, 3, 4]);
    assert numbered[1] == Scanner.Segment(1, [5, 6, 7, 8]);
    assert numbered[2] == Scanner.Segment(2, [11, 12, 13, 14]);
  }
}
