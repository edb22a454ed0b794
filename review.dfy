/** The review workflow of the Go program (package `review`, file
    `action.go`): open a recording, pick a clip, listen to it, tag it. The
    `Readiness` level (0 to 4) records the last completed step and gates the
    next one. The GUI widgets, images and playback are left out; what stays
    is the state the actions update. */
module Review {
  import opened Base
  import Decimal
  import Ffmpeg

  /** `VideoSegment` without its image: sequence number, the raw PCM bytes
      read from the WAV stream and the one-second WAV clip extracted beside it. */
  datatype VideoSegment = VideoSegment(count: nat, data: seq<byte>, audio: seq<byte>)

  /** What one `io.ReadFull` of a full segment buffer returns: a filled
      buffer, end of stream (`io.EOF` or `io.ErrUnexpectedEOF`), or another
      error together with the bytes read before it. */
  datatype ReadOutcome = Filled(data: seq<byte>) | EndOfStream | ReadFailure(message: string, partial: seq<byte>)

  /** A file written by tagging: its path and its contents. */
  datatype TagFile = TagFile(path: string, data: seq<byte>)

  const STEP_OPEN := "Step #1: Select a video to open for review."
  const STEP_SELECT := "Step #2: Select a recording clip to review."
  const STEP_LISTEN := "Step #3: Carefully listen to this audio clip."
  const STEP_TAG := "Step #4: Save clip using appropriate tag."
  const NO_VIDEO := "ERROR: No video loaded ..."
  const NO_CLIP := "No clip selected."
  const REPLAY_FIRST := "Replay audio at least once."
  const ALREADY_TAGGED := "Already tagged."
  const TAGGED := "Audio segment tagged!"
  const LOAD_FAILED := "Failed to load video!\nError: "
  const READ_FAILED := "Unhandled error: "
  const MKDIR_FAILED := "Error creating directory:\n"
  const WRITE_FAILED := "Error writing file:\n"

  /** The buffers the segment loop of `open_video` keeps: every filled one,
      and after a failed read the buffer as it stands (the bytes read, then
      zeros), until end of stream drops the partial buffer and stops. */
  function ReadData(outcomes: seq<ReadOutcome>): seq<seq<byte>>
    decreases |outcomes|
  {
    if outcomes == [] || outcomes[0].EndOfStream? then []
    else [Buffer(outcomes[0])] + ReadData(outcomes[1..])
  }

  /** The buffer one read leaves behind: the filled one, or after a failure
      the bytes read followed by the zeros of the fresh buffer. */
  function Buffer(o: ReadOutcome): seq<byte>
    requires !o.EndOfStream?
  {
    match o
    case Filled(data) => data
    case ReadFailure(_, partial) => FitLength(partial, Ffmpeg.BYTES_PER_SECOND, 0)
  }

  /** The buffers from the `i`-th read on: that read's buffer, then the rest. */
  lemma ReadDataStep(outcomes: seq<ReadOutcome>, i: nat)
    requires i < |outcomes| && !outcomes[i].EndOfStream?
    ensures ReadData(outcomes[i..]) == [Buffer(outcomes[i])] + ReadData(outcomes[i + 1..])
  {
    assert outcomes[i..][1..] == outcomes[i + 1..];
  }

  /** The status the last failed read before end of stream leaves, if any:
      each failure resets the session again. */
  function LastFailure(outcomes: seq<ReadOutcome>): Option<string>
    decreases |outcomes|
  {
    if outcomes == [] || outcomes[0].EndOfStream? then None
    else
      var later := LastFailure(outcomes[1..]);
      if later.Some? then later
      else if outcomes[0].ReadFailure? then Some(READ_FAILED + outcomes[0].message)
      else None
  }

  /** `b` when it holds a value, `a` otherwise. */
  function Latest(a: Option<string>, b: Option<string>): Option<string>
  {
    if b.Some? then b else a
  }

  /** The failures from the `i`-th read on: that read's, overridden by later ones. */
  lemma LastFailureStep(outcomes: seq<ReadOutcome>, i: nat)
    requires i < |outcomes| && !outcomes[i].EndOfStream?
    ensures LastFailure(outcomes[i..]) == Latest(
      if outcomes[i].ReadFailure? then Some(READ_FAILED + outcomes[i].message) else None,
      LastFailure(outcomes[i + 1..]))
  {
    assert outcomes[i..][1..] == outcomes[i + 1..];
  }

  /** The outcomes `io.ReadFull` can deliver: a filled buffer is full, and a
      failure comes before the buffer is. */
  predicate WellFormedReads(outcomes: seq<ReadOutcome>)
  {
    forall k :: 0 <= k < |outcomes| ==>
      (outcomes[k].Filled? ==> |outcomes[k].data| == Ffmpeg.BYTES_PER_SECOND)
      && (outcomes[k].ReadFailure? ==> |outcomes[k].partial| < Ffmpeg.BYTES_PER_SECOND)
  }

  /** Every buffer kept holds one second of audio. */
  lemma {:induction false} ReadDataIsFull(outcomes: seq<ReadOutcome>)
    requires WellFormedReads(outcomes)
    ensures forall k :: 0 <= k < |ReadData(outcomes)| ==> |ReadData(outcomes)[k]| == Ffmpeg.BYTES_PER_SECOND
    decreases |outcomes|
  {
    if outcomes != [] && !outcomes[0].EndOfStream? {
      assert WellFormedReads(outcomes[1..]) by {
        forall k | 0 <= k < |outcomes[1..]|
          ensures (outcomes[1..][k].Filled? ==> |outcomes[1..][k].data| == Ffmpeg.BYTES_PER_SECOND)
            && (outcomes[1..][k].ReadFailure? ==> |outcomes[1..][k].partial| < Ffmpeg.BYTES_PER_SECOND)
        {
          assert outcomes[1..][k] == outcomes[k + 1];
        }
      }
      ReadDataIsFull(outcomes[1..]);
    }
  }

  /** `strconv.FormatUint` of every segment id, in reading order. */
  function Ids(n: nat): seq<string>
  {
    seq(n, i requires 0 <= i < n => Decimal.Digits(i))
  }

  /** The selectable clips: every id but the last, whose clip has no next
      frame to play. With no segment at all the list is empty. */
  function Selection(ids: seq<string>): seq<string>
  {
    ids[..Max(|ids| - 1, 0)]
  }

  /** `idList[:len(idList)-1]` as written; `None` is the slice-bounds panic. */
  function SelectionAsWritten(ids: seq<string>): Option<seq<string>>
  {
    if |ids| == 0 then None else Some(ids[..|ids| - 1])
  }

  /** Every selectable clip is followed by another, so playing or tagging it
      can read the next segment; and only the last clip is left out. */
  lemma SelectableClipsHaveSuccessor(n: nat)
    ensures |Selection(Ids(n))| == Max(n - 1, 0)
    ensures forall k :: 0 <= k < |Selection(Ids(n))| ==> Selection(Ids(n))[k] == Decimal.Digits(k) && k + 1 < n
  {
  }

  /** The correction only changes the case the slice panics on. */
  lemma SelectionAgreesWhenNonEmpty(ids: seq<string>)
    ensures |ids| > 0 <==> SelectionAsWritten(ids).Some?
    ensures |ids| > 0 ==> SelectionAsWritten(ids) == Some(Selection(ids))
  {
  }

  /** A recording shorter than one second ends the stream at the first
      read, so there is no segment id: as written, `open_video` panics on the
      slice; corrected, it offers no clip. */
  lemma ShortRecordingPanics(outcomes: seq<ReadOutcome>)
    requires outcomes != [] && outcomes[0].EndOfStream?
    ensures SelectionAsWritten(Ids(|ReadData(outcomes)|)) == None
    ensures Selection(Ids(|ReadData(outcomes)|)) == []
  {
  }

  /** The loaded video: each buffer with its id and its extracted clip. */
  function Loaded(datas: seq<seq<byte>>, clips: seq<Option<seq<byte>>>): seq<VideoSegment>
    requires AllLoaded(clips, |datas|)
  {
    seq(|datas|, k requires 0 <= k < |datas| => VideoSegment(k, datas[k], clips[k].value))
  }

  /** The image and the WAV clip of every segment could be opened and decoded. */
  predicate AllLoaded(clips: seq<Option<seq<byte>>>, n: nat)
  {
    n <= |clips| && forall k :: 0 <= k < n ==> clips[k].Some?
  }

  /** The file `tag_clip` writes: `<workspace>/tags/<tag>/`, then
      `/<filename>:<frame>.dat` (the separator is doubled as written). */
  function TagPath(workspace: string, tag: string, filename: string, frame: nat): string
  {
    workspace + "/tags/" + tag + "/" + "/" + filename + ":" + Decimal.Digits(frame) + ".dat"
  }

  /** The tag file sits in the tag's directory and its name ends with the
      frame number, so each clip of a recording gets its own file. */
  lemma TagPathLayout(workspace: string, tag: string, filename: string, frame: nat)
    ensures var p := TagPath(workspace, tag, filename, frame);
      var dir := workspace + "/tags/" + tag + "/";
      var suffix := ":" + Decimal.Digits(frame) + ".dat";
      && p[..|dir|] == dir
      && p[|p| - |suffix|..] == suffix
      && p == dir + "/" + filename + suffix
  {
    var dir := workspace + "/tags/" + tag + "/";
    var suffix := ":" + Decimal.Digits(frame) + ".dat";
    var p := TagPath(workspace, tag, filename, frame);
    assert p == dir + ("/" + filename) + suffix;
  }

  lemma TagPathsDistinctFrames(workspace: string, tag: string, filename: string, f1: nat, f2: nat)
    requires f1 != f2
    ensures TagPath(workspace, tag, filename, f1) != TagPath(workspace, tag, filename, f2)
  {
    var prefix := workspace + "/tags/" + tag + "/" + "/" + filename + ":";
    var p1, p2 := TagPath(workspace, tag, filename, f1), TagPath(workspace, tag, filename, f2);
    assert p1 == prefix + (Decimal.Digits(f1) + ".dat");
    assert p2 == prefix + (Decimal.Digits(f2) + ".dat");
    Decimal.ValueOfDigits(f1);
    Decimal.ValueOfDigits(f2);
    if p1 == p2 {
      DigitsBeforeDat(prefix, Decimal.Digits(f1), Decimal.Digits(f2));
    }
  }

  /** A file name ending in `<digits>.dat` after a common prefix gives the digits back. */
  lemma DigitsBeforeDat(prefix: string, a: string, b: string)
    requires prefix + (a + ".dat") == prefix + (b + ".dat")
    ensures a == b
  {
    var x, y := prefix + (a + ".dat"), prefix + (b + ".dat");
    assert x[|prefix|..|prefix| + |a|] == a;
    assert y[|prefix|..|prefix| + |b|] == b;
  }

  /** The segments as the read loop leaves them, before their clips are loaded. */
  function Unloaded(datas: seq<seq<byte>>): seq<VideoSegment>
  {
    seq(|datas|, k requires 0 <= k < |datas| => VideoSegment(k, datas[k], []))
  }

  /** One more buffer read extends the segments by one entry. */
  lemma UnloadedSnoc(done: seq<seq<byte>>, data: seq<byte>)
    ensures Unloaded(done + [data]) == Unloaded(done) + [VideoSegment(|done|, data, [])]
  {
    var after, expected := Unloaded(done + [data]), Unloaded(done) + [VideoSegment(|done|, data, [])];
    forall k | 0 <= k < |after|
      ensures after[k] == expected[k]
    {
      if k < |done| {
        assert (done + [data])[k] == done[k];
      }
    }
  }

  /** ... and the ids by the next number. */
  lemma IdsSnoc(n: nat)
    ensures Ids(n + 1) == Ids(n) + [Decimal.Digits(n)]
  {
    var more, expected := Ids(n + 1), Ids(n) + [Decimal.Digits(n)];
    forall k | 0 <= k < n + 1
      ensures more[k] == expected[k]
    {
    }
  }

  /** What the segment loop of `open_video` has built after `i` reads: the
      buffers `done` and the rest still to come make up all of them, the
      segments and ids are those of `done`, and `failed` is the status of
      the last failed read so far. */
  ghost predicate ReadProgress(outcomes: seq<ReadOutcome>, i: nat, done: seq<seq<byte>>,
                               mkvData: seq<VideoSegment>, idList: seq<string>, failed: Option<string>)
  {
    && i <= |outcomes|
    && ReadData(outcomes) == done + ReadData(outcomes[i..])
    && mkvData == Unloaded(done)
    && idList == Ids(|done|)
    && LastFailure(outcomes) == Latest(failed, LastFailure(outcomes[i..]))
  }

  lemma ReadProgressStart(outcomes: seq<ReadOutcome>)
    ensures ReadProgress(outcomes, 0, [], [], [], None)
  {
    assert outcomes[0..] == outcomes;
  }

  /** One more read that is not the end of the stream. */
  lemma ReadProgressStep(outcomes: seq<ReadOutcome>, i: nat, done: seq<seq<byte>>,
                         mkvData: seq<VideoSegment>, idList: seq<string>, failed: Option<string>)
    requires ReadProgress(outcomes, i, done, mkvData, idList, failed)
    requires i < |outcomes| && !outcomes[i].EndOfStream?
    ensures ReadProgress(outcomes, i + 1, done + [Buffer(outcomes[i])],
      mkvData + [VideoSegment(|done|, Buffer(outcomes[i]), [])], idList + [Decimal.Digits(|done|)],
      if outcomes[i].ReadFailure? then Some(READ_FAILED + outcomes[i].message) else failed)
  {
    var data := Buffer(outcomes[i]);
    ReadDataSnoc(outcomes, i, done);
    UnloadedSnoc(done, data);
    IdsSnoc(|done|);
    LastFailureSnoc(outcomes, i, failed);
  }

  lemma ReadDataSnoc(outcomes: seq<ReadOutcome>, i: nat, done: seq<seq<byte>>)
    requires i < |outcomes| && !outcomes[i].EndOfStream?
    requires ReadData(outcomes) == done + ReadData(outcomes[i..])
    ensures ReadData(outcomes) == done + [Buffer(outcomes[i])] + ReadData(outcomes[i + 1..])
  {
    ReadDataStep(outcomes, i);
    var data, rest := Buffer(outcomes[i]), ReadData(outcomes[i + 1..]);
    assert done + ([data] + rest) == done + [data] + rest;
  }

  lemma LastFailureSnoc(outcomes: seq<ReadOutcome>, i: nat, failed: Option<string>)
    requires i < |outcomes| && !outcomes[i].EndOfStream?
    requires LastFailure(outcomes) == Latest(failed, LastFailure(outcomes[i..]))
    ensures LastFailure(outcomes) == Latest(
      if outcomes[i].ReadFailure? then Some(READ_FAILED + outcomes[i].message) else failed,
      LastFailure(outcomes[i + 1..]))
  {
    LastFailureStep(outcomes, i);
  }

  /** At end of stream (or of the outcomes) everything has been read. */
  lemma ReadProgressEnd(outcomes: seq<ReadOutcome>, i: nat, done: seq<seq<byte>>,
                        mkvData: seq<VideoSegment>, idList: seq<string>, failed: Option<string>)
    requires ReadProgress(outcomes, i, done, mkvData, idList, failed)
    requires i == |outcomes| || outcomes[i].EndOfStream?
    ensures done == ReadData(outcomes) && mkvData == Unloaded(ReadData(outcomes))
    ensures idList == Ids(|ReadData(outcomes)|) && LastFailure(outcomes) == failed
  {
    assert ReadData(outcomes[i..]) == [] && LastFailure(outcomes[i..]) == None;
    assert done + [] == done;
  }

  /** The loading loop of `open_video`: each segment gets its extracted clip;
      the first one that cannot be opened or decoded is fatal. */
  method AttachClips(mkvData: seq<VideoSegment>, clips: seq<Option<seq<byte>>>) returns (loaded: seq<VideoSegment>, died: bool)
    ensures died <==> !AllLoaded(clips, |mkvData|)
    ensures !died ==>
      |loaded| == |mkvData| && forall k :: 0 <= k < |mkvData| ==> loaded[k] == mkvData[k].(audio := clips[k].value)
  {
    loaded := mkvData;
    died := false;
    for j := 0 to |mkvData|
      invariant |loaded| == |mkvData|
      invariant forall k :: 0 <= k < j ==>
        k < |clips| && clips[k].Some? && loaded[k] == mkvData[k].(audio := clips[k].value)
      invariant forall k :: j <= k < |mkvData| ==> loaded[k] == mkvData[k]
      invariant j <= |clips|
    {
      if j >= |clips| || clips[j].None? {
        assert !AllLoaded(clips, |mkvData|);
        died := true;
        return;
      }
      loaded := loaded[j := loaded[j].(audio := clips[j].value)];
    }
  }

  /** The review globals of `review.go` and the actions that update them. */
  class Session {
    var readiness: int
    var segments: seq<string>
    var frame: int
    var filename: string
    var video: seq<VideoSegment>
    var status: string

    /** What the steps establish: nothing is loaded at level 0; from level 1
        the selectable list is every segment id but the last; from level 2 a
        clip with a following segment is selected. */
    ghost predicate Valid()
      reads this
    {
      && 0 <= readiness <= 4
      && (readiness == 0 ==> video == [] && segments == [])
      && (readiness >= 1 ==> segments == Selection(Ids(|video|)))
      && (forall k :: 0 <= k < |video| ==> video[k].count == k && |video[k].data| == Ffmpeg.BYTES_PER_SECOND)
      && (readiness >= 2 ==> 0 <= frame && frame + 1 < |video|)
    }

    /** `Launch`: Go's zero values, then `reset_environment`. */
    constructor ()
      ensures Valid()
      ensures readiness == 0 && video == [] && segments == [] && status == STEP_OPEN
      ensures frame == 0 && filename == ""
    {
      readiness := 0;
      segments := [];
      frame := 0;
      filename := "";
      video := [];
      status := STEP_OPEN;
    }

    /** `reset_environment`. */
    method ResetEnvironment()
      modifies this
      ensures Valid()
      ensures readiness == 0 && video == [] && segments == [] && status == STEP_OPEN
      ensures frame == old(frame) && filename == old(filename)
    {
      ResetBrokenEnvironment(STEP_OPEN);
    }

    /** `reset_broken_environment`: the same reset with a custom status. */
    method ResetBrokenEnvironment(message: string)
      modifies this
      ensures Valid()
      ensures readiness == 0 && video == [] && segments == [] && status == message
      ensures frame == old(frame) && filename == old(filename)
    {
      status := message;
      segments := [];
      video := [];
      readiness := 0;
    }

    /** `open_video` on a recording named `name`: `cancelled` when no file
        was chosen, `tempDirError` when the extraction directory cannot be
        made, `outcomes` the WAV stream as the reads see it and `clips` the
        extracted image/clip pair of each segment (`None` when opening or
        decoding one fails, which is fatal). As written, a recording without
        one full second is fatal too: the selectable list is sliced with -1. */
    method OpenVideo(cancelled: bool, tempDirError: Option<string>, outcomes: seq<ReadOutcome>,
                     clips: seq<Option<seq<byte>>>, name: string) returns (died: bool)
      requires Valid() && WellFormedReads(outcomes)
      modifies this
      ensures !died ==> Valid()
      ensures cancelled ==> !died && unchanged(this)
      ensures !cancelled && tempDirError.Some? ==>
        !died && readiness == 0 && video == [] && segments == [] && status == LOAD_FAILED + tempDirError.value
      ensures !cancelled && tempDirError.None? ==>
        (died <==> !AllLoaded(clips, |ReadData(outcomes)|) || |ReadData(outcomes)| == 0)
      ensures !cancelled && tempDirError.None? && !died ==>
        && video == Loaded(ReadData(outcomes), clips)
        && SelectionAsWritten(Ids(|ReadData(outcomes)|)) == Some(segments)
        && readiness == 1 && status == STEP_SELECT && filename == name && frame == old(frame)
    {
      died := false;
      if cancelled {
        return;
      }
      if tempDirError.Some? {
        ResetBrokenEnvironment(LOAD_FAILED + tempDirError.value);
        return;
      }
      var mkvData, idList := ReadSegments(outcomes);
      ReadDataIsFull(outcomes);
      mkvData, died := AttachClips(mkvData, clips);
      if died {
        return;
      }
      video := mkvData;
      filename := name;
      var selection := SelectionAsWritten(idList);
      if selection.None? {
        died := true;
        return;
      }
      SelectionAgreesWhenNonEmpty(idList);
      segments := selection.value;
      readiness := 1;
      status := STEP_SELECT;
    }

    /** The segment loop of `open_video`: one buffer per read, numbered from
        0, until end of stream. A failed read resets the session with the
        error (the last one shows) and its buffer is kept all the same. The
        source does not leave the loop after a failure and a failed pipe
        repeats its error, so there it never returns; here the outcomes are
        a finite trace. */
    method ReadSegments(outcomes: seq<ReadOutcome>) returns (mkvData: seq<VideoSegment>, idList: seq<string>)
      requires Valid()
      modifies this
      ensures Valid() && frame == old(frame) && filename == old(filename)
      ensures mkvData == Unloaded(ReadData(outcomes))
      ensures idList == Ids(|ReadData(outcomes)|)
      ensures LastFailure(outcomes).Some? ==>
        readiness == 0 && video == [] && segments == [] && status == LastFailure(outcomes).value
      ensures LastFailure(outcomes).None? ==>
        readiness == old(readiness) && video == old(video) && segments == old(segments) && status == old(status)
    {
      ghost var failed: Option<string> := None;
      ghost var done: seq<seq<byte>> := [];
      mkvData, idList := [], [];
      ReadProgressStart(outcomes);
      var segmentId: nat := 0;
      var i := 0;
      while i < |outcomes| && !outcomes[i].EndOfStream?
        invariant ReadProgress(outcomes, i, done, mkvData, idList, failed)
        invariant segmentId == |done|
        invariant frame == old(frame) && filename == old(filename)
        invariant failed.Some? ==> readiness == 0 && video == [] && segments == [] && status == failed.value
        invariant failed.None? ==>
          readiness == old(readiness) && video == old(video) && segments == old(segments) && status == old(status)
        decreases |outcomes| - i
      {
        ReadProgressStep(outcomes, i, done, mkvData, idList, failed);
        ReportFailure(outcomes[i]);
        if outcomes[i].ReadFailure? {
          failed := Some(READ_FAILED + outcomes[i].message);
        }
        var segmentData := Buffer(outcomes[i]);
        idList := idList + [Decimal.Digits(segmentId)];
        mkvData := mkvData + [VideoSegment(segmentId, segmentData, [])];
        done := done + [segmentData];
        segmentId := segmentId + 1;
        i := i + 1;
      }
      ReadProgressEnd(outcomes, i, done, mkvData, idList, failed);
    }

    /** The error branch of one read: a failure resets the session with its
        message; any other outcome leaves it alone. */
    method ReportFailure(o: ReadOutcome)
      modifies this
      ensures frame == old(frame) && filename == old(filename)
      ensures o.ReadFailure? ==> readiness == 0 && video == [] && segments == [] && status == READ_FAILED + o.message
      ensures !o.ReadFailure? ==>
        readiness == old(readiness) && video == old(video) && segments == old(segments) && status == old(status)
    {
      if o.ReadFailure? {
        ResetBrokenEnvironment(READ_FAILED + o.message);
      }
    }

    /** `load_clip` for the `id`-th entry of the selectable list. */
    method LoadClip(id: int)
      requires Valid()
      requires readiness >= 1 ==> 0 <= id < |segments|
      modifies this
      ensures Valid()
      ensures video == old(video) && segments == old(segments) && filename == old(filename)
      ensures old(readiness) < 1 ==> status == NO_VIDEO && readiness == old(readiness) && frame == old(frame)
      ensures old(readiness) >= 1 && id <= Decimal.INT64_MAX ==>
        frame == id && readiness == 2 && status == STEP_LISTEN
      ensures old(readiness) >= 1 && id > Decimal.INT64_MAX ==>
        status == LoadClipError(Decimal.Digits(id)) && readiness == old(readiness) && frame == old(frame)
    {
      if readiness < 1 {
        status := NO_VIDEO;
        return;
      }
      SelectableClipsHaveSuccessor(|video|);
      var text := segments[id];
      assert text == Decimal.Digits(id);
      var start := Decimal.Atoi(text);
      if id <= Decimal.INT64_MAX {
        Decimal.AtoiOfDigits(id);
      } else {
        Decimal.AtoiRefusesOverflow(id);
      }
      match start {
        case None =>
          status := LoadClipError(text);
        case Some(n) =>
          frame := n;
          status := STEP_LISTEN;
          readiness := 2;
      }
    }

    /** `play_selected`: the clips it plays, or the popup it shows. */
    method PlaySelected() returns (popup: Option<string>, played: seq<seq<byte>>)
      requires Valid()
      ensures readiness < 2 ==> popup == Some(NO_CLIP) && played == []
      ensures readiness >= 2 ==> popup == None && played == [video[frame].audio, video[frame + 1].audio]
    {
      if readiness < 2 {
        return Some(NO_CLIP), [];
      }
      popup := None;
      played := [video[frame].audio, video[frame + 1].audio];
    }

    /** `replay_segment`, corrected: it only moves on to the tagging step
        when a clip is selected. */
    method ReplaySegment() returns (popup: Option<string>, played: seq<seq<byte>>)
      requires Valid()
      modifies this
      ensures Valid()
      ensures video == old(video) && segments == old(segments) && frame == old(frame) && filename == old(filename)
      ensures old(readiness) < 2 ==> popup == Some(NO_CLIP) && played == [] && readiness == old(readiness) && status == old(status)
      ensures old(readiness) >= 2 ==>
        popup == None && played == [video[frame].audio, video[frame + 1].audio]
        && readiness == 3 && status == STEP_TAG
    {
      popup, played := PlaySelected();
      if popup.Some? {
        return;
      }
      status := STEP_TAG;
      readiness := 3;
    }

    /** `replay_segment` as written: `Readiness` becomes 3 whether or not a
        clip was selected. */
    method ReplaySegmentAsWritten() returns (popup: Option<string>, played: seq<seq<byte>>)
      requires Valid()
      modifies this
      ensures video == old(video) && segments == old(segments) && frame == old(frame) && filename == old(filename)
      ensures readiness == 3 && status == STEP_TAG
      ensures old(readiness) < 2 ==> popup == Some(NO_CLIP) && played == []
    {
      popup, played := PlaySelected();
      status := STEP_TAG;
      readiness := 3;
    }

    /** `tag_clip(tag)` with `Runtime.Workspace` = `workspace`; the two
        errors are those of `os.MkdirAll` and `os.WriteFile`. */
    method TagClip(tag: string, workspace: string, mkdirError: Option<string>, writeError: Option<string>)
      returns (popup: Option<string>, written: Option<TagFile>)
      requires Valid()
      modifies this
      ensures Valid()
      ensures video == old(video) && segments == old(segments) && frame == old(frame) && filename == old(filename)
      ensures old(readiness) != 3 ==> written == None && readiness == old(readiness) && status == old(status)
      ensures old(readiness) < 2 ==> popup == Some(NO_CLIP)
      ensures old(readiness) == 2 ==> popup == Some(REPLAY_FIRST)
      ensures old(readiness) >= 4 ==> popup == Some(ALREADY_TAGGED)
      ensures old(readiness) == 3 ==> popup == None
      ensures old(readiness) == 3 && mkdirError.Some? ==>
        written == None && readiness == 3 && status == MKDIR_FAILED + mkdirError.value
      ensures old(readiness) == 3 && mkdirError.None? && writeError.Some? ==>
        written == None && readiness == 3 && status == WRITE_FAILED + writeError.value
      ensures old(readiness) == 3 && mkdirError.None? && writeError.None? ==>
        && written == Some(TagFile(TagPath(workspace, tag, filename, frame), video[frame].data + video[frame + 1].data))
        && readiness == 4 && status == TAGGED
    {
      written := None;
      if readiness < 2 {
        return Some(NO_CLIP), None;
      } else if readiness == 2 {
        return Some(REPLAY_FIRST), None;
      } else if readiness >= 4 {
        return Some(ALREADY_TAGGED), None;
      }
      popup := None;
      var tagDir := workspace + "/tags/" + tag + "/";
      var tagFile := tagDir + "/" + filename + ":" + Decimal.Digits(frame) + ".dat";
      if mkdirError.Some? {
        status := MKDIR_FAILED + mkdirError.value;
        return;
      }
      var data := video[frame].data + video[frame + 1].data;
      if writeError.Some? {
        status := WRITE_FAILED + writeError.value;
        return;
      }
      written := Some(TagFile(tagFile, data));
      status := TAGGED;
      readiness := 4;
    }
  }

  /** The status `load_clip` shows when `strconv.Atoi` refuses the entry. */
  function LoadClipError(text: string): string
  {
    "Error loading clip: strconv.Atoi: parsing \"" + text + "\": "
    + (if |text| > 0 && Decimal.AllDigits(text) then "value out of range" else "invalid syntax")
  }

  /** A tag file holds two consecutive one-second segments, the selected one first. */
  lemma TagDataIsTwoSeconds(video: seq<VideoSegment>, frame: nat)
    requires frame + 1 < |video|
    requires forall k :: 0 <= k < |video| ==> |video[k].data| == Ffmpeg.BYTES_PER_SECOND
    ensures var data := video[frame].data + video[frame + 1].data;
      && |data| == 2 * Ffmpeg.BYTES_PER_SECOND
      && data[..Ffmpeg.BYTES_PER_SECOND] == video[frame].data
      && data[Ffmpeg.BYTES_PER_SECOND..] == video[frame + 1].data
  {
  }

  /** Replaying before any clip is selected, as written: right after launch
      the session reaches level 3, so `tag_clip` passes its guard and then
      indexes `Loaded_Video[Current_Frame]` in an empty video. */
  method ReplayBeforeLoadAsWritten() returns (readiness: int, frame: int, loaded: int)
    ensures readiness == 3 && frame >= loaded
  {
    var session := new Session();
    var _, _ := session.ReplaySegmentAsWritten();
    readiness, frame, loaded := session.readiness, session.frame, |session.video|;
  }

  /** The same sequence with the corrected `replay_segment`: the session
      stays at level 0 and `tag_clip` refuses. */
  method ReplayBeforeLoad() returns (readiness: int, popup: Option<string>)
    ensures readiness == 0 && popup == Some(NO_CLIP)
  {
    var session := new Session();
    var _, _ := session.ReplaySegment();
    var tagPopup, _ := session.TagClip("empty", "_workspace", None, None);
    readiness, popup := session.readiness, tagPopup;
  }
}
