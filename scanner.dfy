/** The per-model segment scanner of the Go daemon (`scan_segments`): a
    one-segment lookback that turns the arrivals on its queue into
    (previous, current) windows. */
module Scanner {
  import opened Base

  /** `audio_segment`: its sequence number and its PCM bytes. */
  datatype Segment = Segment(count: nat, data: seq<byte>)

  /** The two consecutive segments one scan step covers. */
  datatype Window = Window(previous: Segment, current: Segment)

  /** What a scanner worker remembers between receives: the stored segment
      (`last_segment`, empty until the first arrival) and the scan steps taken. */
  datatype Lookback = Lookback(last: Option<Segment>, scans: seq<Window>)

  const START: Lookback := Lookback(None, [])

  /** One receive: the first segment is only stored; every later one is
      scanned together with the stored one and then replaces it. */
  function Receive(l: Lookback, incoming: Segment): (r: Lookback)
    ensures r.last == Some(incoming)
    ensures l.last.None? ==> r.scans == l.scans
    ensures l.last.Some? ==> r.scans == l.scans + [Window(l.last.value, incoming)]
  {
    match l.last
    case None => Lookback(Some(incoming), l.scans)
    case Some(previous) => Lookback(Some(incoming), l.scans + [Window(previous, incoming)])
  }

  /** Receiving `arrivals` one after the other. */
  function Feed(l: Lookback, arrivals: seq<Segment>): Lookback
    decreases |arrivals|
  {
    if arrivals == [] then l else Feed(Receive(l, arrivals[0]), arrivals[1..])
  }

  /** The windows of a sequence of arrivals: each one with its successor. */
  predicate IsWindowsOf(scans: seq<Window>, arrivals: seq<Segment>)
  {
    |scans| == Max(|arrivals| - 1, 0)
    && forall k :: 0 <= k < |scans| ==> scans[k] == Window(arrivals[k], arrivals[k + 1])
  }

  /** `scan_segments` on a queue that delivers `arrivals` and is then closed:
      the scan steps taken, the segment still stored when the worker warns
      and returns, and that warning. */
  method ScanSegments(name: string, arrivals: seq<Segment>) returns (scans: seq<Window>, last: Option<Segment>, warning: string)
    ensures IsWindowsOf(scans, arrivals)
    ensures last == if arrivals == [] then None else Some(arrivals[|arrivals| - 1])
    ensures warning == "Scanner unexpectedly closed: " + name
  {
    scans := [];
    last := None;
    for i := 0 to |arrivals|
      invariant last == if i == 0 then None else Some(arrivals[i - 1])
      invariant IsWindowsOf(scans, arrivals[..i])
    {
      var incoming := arrivals[i];
      if last.None? {
        last := Some(incoming);
        continue;
      }
      scans := scans + [Window(last.value, incoming)];
      last := Some(incoming);
    }
    assert arrivals[..|arrivals|] == arrivals;
    warning := "Scanner unexpectedly closed: " + name;
  }

  /** Feeding a worker that has already received `seen` extends its windows
      to those of all the arrivals together. */
  lemma {:induction false} FeedExtends(seen: seq<Segment>, arrivals: seq<Segment>, l: Lookback)
    requires IsWindowsOf(l.scans, seen)
    requires l.last == if seen == [] then None else Some(seen[|seen| - 1])
    ensures IsWindowsOf(Feed(l, arrivals).scans, seen + arrivals)
    ensures Feed(l, arrivals).last == if seen + arrivals == [] then None else Some((seen + arrivals)[|seen + arrivals| - 1])
    decreases |arrivals|
  {
    if arrivals != [] {
      var next := seen + [arrivals[0]];
      assert next + arrivals[1..] == seen + arrivals;
      FeedExtends(next, arrivals[1..], Receive(l, arrivals[0]));
    } else {
      assert seen + arrivals == seen;
    }
  }

  /** A fresh worker's scan steps are exactly the windows of its arrivals,
      whatever way the arrivals are split into turns. */
  lemma FeedFromStart(arrivals: seq<Segment>)
    ensures IsWindowsOf(Feed(START, arrivals).scans, arrivals)
    ensures Feed(START, arrivals).last == if arrivals == [] then None else Some(arrivals[|arrivals| - 1])
  {
    var none: seq<Segment> := [];
    assert none + arrivals == arrivals;
    FeedExtends(none, arrivals, START);
  }

  /** The stored segment is never scanned on its own: with n arrivals there
      are n - 1 scans, and the last arrival only appears as a current segment. */
  lemma LastArrivalNeverPrevious(scans: seq<Window>, arrivals: seq<Segment>)
    requires IsWindowsOf(scans, arrivals)
    requires forall i, j :: 0 <= i < j < |arrivals| ==> arrivals[i].count != arrivals[j].count
    ensures forall k :: 0 <= k < |scans| ==> scans[k].previous.count != arrivals[|arrivals| - 1].count
  {
    forall k | 0 <= k < |scans|
      ensures scans[k].previous.count != arrivals[|arrivals| - 1].count
    {
      assert scans[k] == Window(arrivals[k], arrivals[k + 1]);
      assert k < |arrivals| - 1;
    }
  }
}
