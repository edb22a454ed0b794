/** `start_scanners` of the Go daemon: one bounded queue per model, each
    new segment offered to every queue without blocking, and the scanner
    workers taking segments off their queues. Goroutines are modelled by a
    sequential interleaving of deliveries and worker turns. */
module Fanout {
  import opened Base
  import Scanner

  /** A buffered Go channel of segments with capacity `Record_Inspect_Backlog`. */
  datatype Queue = Queue(capacity: nat, buffered: seq<Scanner.Segment>)

  predicate HasRoom(q: Queue)
  {
    |q.buffered| < q.capacity
  }

  /** The buffered half of `select { case scanner <- segment: default: }`:
      a full queue keeps what it holds and the new segment is lost for it. */
  function TryEnqueue(q: Queue, s: Scanner.Segment): (r: Queue)
    ensures r.capacity == q.capacity
  {
    if HasRoom(q) then Queue(q.capacity, q.buffered + [s]) else q
  }

  /** Offering several segments in turn to one queue. */
  function OfferAll(q: Queue, segments: seq<Scanner.Segment>): Queue
    decreases |segments|
  {
    if segments == [] then q else OfferAll(TryEnqueue(q, segments[0]), segments[1..])
  }

  /** A queue whose worker is busy and takes nothing keeps the first
      segments offered, as many as fit, in order; every later one is dropped. */
  lemma {:induction false} OffersToUndrained(q: Queue, segments: seq<Scanner.Segment>)
    requires |q.buffered| <= q.capacity
    ensures OfferAll(q, segments).capacity == q.capacity
    ensures OfferAll(q, segments).buffered
      == q.buffered + segments[..Min(|segments|, q.capacity - |q.buffered|)]
    decreases |segments|
  {
    if segments != [] {
      var q' := TryEnqueue(q, segments[0]);
      OffersToUndrained(q', segments[1..]);
      if HasRoom(q) {
        assert segments[..Min(|segments|, q.capacity - |q.buffered|)]
          == [segments[0]] + segments[1..][..Min(|segments| - 1, q'.capacity - |q'.buffered|)];
      }
    }
  }

  /** Segments 0..4 offered to undrained queues: capacity 1 keeps segment 0
      only; capacity 10 keeps all five. */
  lemma OldestKeptExample(segments: seq<Scanner.Segment>)
    requires |segments| == 5
    ensures OfferAll(Queue(1, []), segments).buffered == [segments[0]]
    ensures OfferAll(Queue(10, []), segments).buffered == segments
  {
    OffersToUndrained(Queue(1, []), segments);
    OffersToUndrained(Queue(10, []), segments);
    assert segments[..5] == segments;
  }

  /** The fatal message of `make(chan, n)` with a negative size. */
  const MAKECHAN_PANIC: string := "makechan: size out of range"

  /** The queue-creation loop: one empty queue per model name (a repeated
      name replaces the earlier queue), or a panic when the backlog is
      negative and there is a queue to make. */
  method StartQueues(models: seq<string>, backlog: int) returns (scanners: map<string, Queue>, panic: Option<string>)
    ensures panic.Some? <==> backlog < 0 && |models| > 0
    ensures panic.Some? ==> panic.value == MAKECHAN_PANIC
    ensures panic.None? ==> scanners.Keys == set m | m in models
    ensures panic.None? ==> forall m :: m in scanners ==> scanners[m] == Queue(backlog as nat, [])
  {
    scanners := map[];
    for i := 0 to |models|
      invariant scanners.Keys == set m | m in models[..i]
      invariant i > 0 ==> backlog >= 0
      invariant forall m :: m in scanners ==> backlog >= 0 && scanners[m] == Queue(backlog as nat, [])
    {
      if backlog < 0 {
        return scanners, Some(MAKECHAN_PANIC);
      }
      scanners := scanners[models[i] := Queue(backlog as nat, [])];
      assert models[..i + 1] == models[..i] + [models[i]];
    }
    assert models[..|models|] == models;
    panic := None;
  }

  /** A model's worker: its queue, its scanning lookback, and whether it is
      blocked in its receive (`waiting`), ready to take a segment straight
      from the sender. */
  datatype Worker = Worker(queue: Queue, lookback: Scanner.Lookback, waiting: bool)

  /** Whether `scanner <- segment` succeeds without blocking: the worker is
      waiting on an empty channel, which Go's send serves directly and
      which is the only way an unbuffered channel (backlog 0) takes a
      segment, or the buffer has room. */
  predicate Accepts(w: Worker)
  {
    (w.waiting && w.queue.buffered == []) || HasRoom(w.queue)
  }

  /** The send with `default` to one worker: a waiting worker receives the
      segment at once, otherwise it is buffered when there is room and lost
      when there is none. */
  function Offer(w: Worker, s: Scanner.Segment): (r: Worker)
    ensures r.queue.capacity == w.queue.capacity
    ensures !Accepts(w) ==> r == w
  {
    if w.waiting && w.queue.buffered == [] then Worker(w.queue, Scanner.Receive(w.lookback, s), false)
    else Worker(TryEnqueue(w.queue, s), w.lookback, w.waiting)
  }

  /** An unbuffered channel hands the segment to a worker blocked in its
      receive, and loses it while the worker is busy. */
  lemma UnbufferedHandoff(l: Scanner.Lookback, s: Scanner.Segment)
    ensures Offer(Worker(Queue(0, []), l, true), s) == Worker(Queue(0, []), Scanner.Receive(l, s), false)
    ensures !Accepts(Worker(Queue(0, []), l, false))
  {
  }

  /** With a backlog of 0, a worker that is back at its receive before each
      delivery gets every segment and scans them as a window; a worker that
      is not gets none. */
  lemma ZeroBacklogExample(n: string, a: Scanner.Segment, b: Scanner.Segment)
    ensures var ws := map[n := Worker(Queue(0, []), Scanner.START, false)];
      && Interleaving(ws, [Turn(n), Deliver(a), Turn(n), Deliver(b)])[n].lookback.scans == [Scanner.Window(a, b)]
      && Interleaving(ws, [Deliver(a), Deliver(b)])[n].lookback == Scanner.START
  {
    var ws := map[n := Worker(Queue(0, []), Scanner.START, false)];
    var steps := [Turn(n), Deliver(a), Turn(n), Deliver(b)];
    var w1 := StepWorkers(ws, Turn(n));
    var w2 := StepWorkers(w1, Deliver(a));
    var w3 := StepWorkers(w2, Turn(n));
    var w4 := StepWorkers(w3, Deliver(b));
    assert w4[n].lookback == Scanner.Lookback(Some(b), [Scanner.Window(a, b)]);
    assert steps[1..][1..][1..][1..] == [];
    assert Interleaving(ws, steps) == Interleaving(w1, steps[1..]);
    assert Interleaving(w1, steps[1..]) == Interleaving(w2, steps[1..][1..]);
    assert Interleaving(w2, steps[1..][1..]) == Interleaving(w3, steps[1..][1..][1..]);
    assert Interleaving(w3, steps[1..][1..][1..]) == w4;
    var idle := [Deliver(a), Deliver(b)];
    assert idle[1..][1..] == [];
    assert Interleaving(ws, idle) == Interleaving(StepWorkers(ws, Deliver(a)), idle[1..]);
    assert StepWorkers(StepWorkers(ws, Deliver(a)), Deliver(b)) == ws;
  }

  /** The distribution loop body for one segment: every worker is offered
      the segment independently (the map's iteration order is unspecified),
      and the names of those that refuse it are reported as blocked. */
  method Distribute(scanners: map<string, Worker>, s: Scanner.Segment) returns (r: map<string, Worker>, blocked: set<string>)
    ensures r.Keys == scanners.Keys
    ensures forall n :: n in scanners ==> r[n] == Offer(scanners[n], s)
    ensures blocked == set n | n in scanners && !Accepts(scanners[n])
  {
    r := scanners;
    blocked := {};
    var pending := scanners.Keys;
    while pending != {}
      invariant pending <= scanners.Keys && r.Keys == scanners.Keys
      invariant forall n :: n in pending ==> r[n] == scanners[n]
      invariant forall n :: n in scanners && n !in pending ==> r[n] == Offer(scanners[n], s)
      invariant blocked == set n | n in scanners && n !in pending && !Accepts(scanners[n])
      decreases pending
    {
      var name :| name in pending;
      if Accepts(r[name]) {
        r := r[name := Offer(r[name], s)];
      } else {
        blocked := blocked + {name};
      }
      pending := pending - {name};
    }
  }

  /** One step of the interleaving: the stream converter hands a segment to
      the distributor, or the named worker goes to its receive: it takes the
      oldest buffered segment, or on an empty queue blocks there waiting. */
  datatype Step = Deliver(segment: Scanner.Segment) | Turn(name: string)

  function StepWorkers(ws: map<string, Worker>, step: Step): (r: map<string, Worker>)
    ensures r.Keys == ws.Keys
  {
    match step
    case Deliver(s) => map n | n in ws :: Offer(ws[n], s)
    case Turn(name) =>
      if name !in ws then ws
      else
        var w := ws[name];
        if w.queue.buffered != [] then
          ws[name := Worker(Queue(w.queue.capacity, w.queue.buffered[1..]), Scanner.Receive(w.lookback, w.queue.buffered[0]), false)]
        else ws[name := w.(waiting := true)]
  }

  function Interleaving(ws: map<string, Worker>, steps: seq<Step>): (r: map<string, Worker>)
    ensures r.Keys == ws.Keys
    decreases |steps|
  {
    if steps == [] then ws else Interleaving(StepWorkers(ws, steps[0]), steps[1..])
  }

  /** The segment worker `w` accepts in one step, if any. */
  function AcceptedNow(w: Worker, step: Step): seq<Scanner.Segment>
  {
    if step.Deliver? && Accepts(w) then [step.segment] else []
  }

  /** The segments worker `n` accepted during `steps`, in order. */
  function Accepted(ws: map<string, Worker>, steps: seq<Step>, n: string): seq<Scanner.Segment>
    requires n in ws
    decreases |steps|
  {
    if steps == [] then []
    else AcceptedNow(ws[n], steps[0]) + Accepted(StepWorkers(ws, steps[0]), steps[1..], n)
  }

  /** The schedule executed step by step: deliveries go through `Distribute`. */
  method Interleave(ws: map<string, Worker>, steps: seq<Step>) returns (r: map<string, Worker>)
    ensures r == Interleaving(ws, steps)
  {
    r := ws;
    for i := 0 to |steps|
      invariant Interleaving(ws, steps) == Interleaving(r, steps[i..])
    {
      assert steps[i..][0] == steps[i] && steps[i..][1..] == steps[i + 1..];
      ghost var before := r;
      match steps[i] {
        case Deliver(s) =>
          var full;
          r, full := Distribute(r, s);
          assert r == StepWorkers(before, steps[i]) by {
            forall n | n in r ensures r[n] == StepWorkers(before, steps[i])[n] {
            }
          }
        case Turn(name) =>
          if name in r {
            var w := r[name];
            if w.queue.buffered != [] {
              r := r[name := Worker(Queue(w.queue.capacity, w.queue.buffered[1..]), Scanner.Receive(w.lookback, w.queue.buffered[0]), false)];
            } else {
              r := r[name := w.(waiting := true)];
            }
          }
      }
    }
  }

  /** A worker is in step with the segments its queue accepted when it has
      received a prefix of them and still buffers the rest. */
  predicate Tracks(w: Worker, accepted: seq<Scanner.Segment>)
  {
    exists k :: 0 <= k <= |accepted|
      && w.queue.buffered == accepted[k..]
      && w.lookback == Scanner.Feed(Scanner.START, accepted[..k])
  }

  lemma {:induction false} FeedSnoc(l: Scanner.Lookback, xs: seq<Scanner.Segment>, x: Scanner.Segment)
    ensures Scanner.Feed(l, xs + [x]) == Scanner.Receive(Scanner.Feed(l, xs), x)
    decreases |xs|
  {
    if xs == [] {
      assert [x][1..] == [];
    } else {
      assert (xs + [x])[1..] == xs[1..] + [x];
      FeedSnoc(Scanner.Receive(l, xs[0]), xs[1..], x);
    }
  }

  /** One step keeps every worker in step with what its queue accepted. */
  lemma StepTracks(ws: map<string, Worker>, step: Step, n: string, acc: seq<Scanner.Segment>)
    requires n in ws && Tracks(ws[n], acc)
    ensures Tracks(StepWorkers(ws, step)[n], acc + AcceptedNow(ws[n], step))
  {
    var k :| 0 <= k <= |acc| && ws[n].queue.buffered == acc[k..] && ws[n].lookback == Scanner.Feed(Scanner.START, acc[..k]);
    if step.Deliver? {
      DeliverTracks(ws, step.segment, n, acc, k);
    } else {
      assert acc + [] == acc;
      if step.name == n && ws[n].queue.buffered != [] {
        TurnTracks(ws, n, acc, k);
      } else {
        var w' := StepWorkers(ws, step)[n];
        assert w'.queue == ws[n].queue && w'.lookback == ws[n].lookback;
      }
    }
  }

  lemma DeliverTracks(ws: map<string, Worker>, s: Scanner.Segment, n: string, acc: seq<Scanner.Segment>, k: nat)
    requires n in ws && k <= |acc|
    requires ws[n].queue.buffered == acc[k..] && ws[n].lookback == Scanner.Feed(Scanner.START, acc[..k])
    ensures Tracks(StepWorkers(ws, Deliver(s))[n], acc + if Accepts(ws[n]) then [s] else [])
  {
    var w' := StepWorkers(ws, Deliver(s))[n];
    var acc' := acc + [s];
    if ws[n].waiting && ws[n].queue.buffered == [] {
      assert k == |acc| && acc[..k] == acc && acc'[..|acc'|] == acc + [s];
      FeedSnoc(Scanner.START, acc, s);
      assert w'.queue.buffered == acc'[|acc'|..];
    } else if HasRoom(ws[n].queue) {
      assert acc'[k..] == acc[k..] + [s] && acc'[..k] == acc[..k];
      assert w'.queue.buffered == acc'[k..];
    } else {
      assert acc + [] == acc;
      assert w' == ws[n];
    }
  }

  lemma TurnTracks(ws: map<string, Worker>, n: string, acc: seq<Scanner.Segment>, k: nat)
    requires n in ws && k <= |acc| && ws[n].queue.buffered != []
    requires ws[n].queue.buffered == acc[k..] && ws[n].lookback == Scanner.Feed(Scanner.START, acc[..k])
    ensures Tracks(StepWorkers(ws, Turn(n))[n], acc)
  {
    var w' := StepWorkers(ws, Turn(n))[n];
    assert acc[..k + 1] == acc[..k] + [acc[k]];
    FeedSnoc(Scanner.START, acc[..k], acc[k]);
    assert w'.queue.buffered == acc[k + 1..];
    assert w'.lookback == Scanner.Feed(Scanner.START, acc[..k + 1]);
  }

  /** Over any schedule, each worker has received a prefix of the segments its
      queue accepted and buffers the rest. */
  lemma {:induction false} InterleavingTracks(ws: map<string, Worker>, steps: seq<Step>, n: string, acc: seq<Scanner.Segment>)
    requires n in ws && Tracks(ws[n], acc)
    ensures Tracks(Interleaving(ws, steps)[n], acc + Accepted(ws, steps, n))
    decreases |steps|
  {
    if steps == [] {
      assert acc + [] == acc;
    } else {
      var now := AcceptedNow(ws[n], steps[0]);
      var next := StepWorkers(ws, steps[0]);
      StepTracks(ws, steps[0], n, acc);
      InterleavingTracks(next, steps[1..], n, acc + now);
      var later := Accepted(next, steps[1..], n);
      var w := Interleaving(next, steps[1..])[n];
      assert Interleaving(ws, steps)[n] == w;
      assert acc + Accepted(ws, steps, n) == acc + now + later by {
        assert Accepted(ws, steps, n) == now + later;
        assert acc + (now + later) == acc + now + later;
      }
    }
  }

  /** Fresh workers: every scan step any worker has taken covers two
      consecutive segments among those its own queue accepted, and the
      segments still queued are the newest accepted ones. */
  lemma ScansFollowAcceptedOrder(ws: map<string, Worker>, steps: seq<Step>, n: string)
    requires n in ws && ws[n].queue.buffered == [] && ws[n].lookback == Scanner.START
    ensures var acc := Accepted(ws, steps, n);
      var w := Interleaving(ws, steps)[n];
      exists k :: 0 <= k <= |acc| && w.queue.buffered == acc[k..] && Scanner.IsWindowsOf(w.lookback.scans, acc[..k])
  {
    var none: seq<Scanner.Segment> := [];
    assert Tracks(ws[n], none) by {
      assert ws[n].queue.buffered == none[0..] && ws[n].lookback == Scanner.Feed(Scanner.START, none[..0]);
    }
    InterleavingTracks(ws, steps, n, none);
    assert none + Accepted(ws, steps, n) == Accepted(ws, steps, n);
    TracksGivesWindows(Interleaving(ws, steps)[n], Accepted(ws, steps, n));
  }

  lemma TracksGivesWindows(w: Worker, acc: seq<Scanner.Segment>)
    requires Tracks(w, acc)
    ensures exists k :: 0 <= k <= |acc| && w.queue.buffered == acc[k..] && Scanner.IsWindowsOf(w.lookback.scans, acc[..k])
  {
    var k :| 0 <= k <= |acc| && w.queue.buffered == acc[k..] && w.lookback == Scanner.Feed(Scanner.START, acc[..k]);
    Scanner.FeedFromStart(acc[..k]);
  }

  /** Whether one worker accepts or not makes no difference to what the
      other workers receive. */
  lemma DeliveryIsolated(ws: map<string, Worker>, s: Scanner.Segment, n: string, x: Worker, m: string)
    requires n in ws && m in ws && n != m
    ensures StepWorkers(ws[n := x], Deliver(s))[m] == StepWorkers(ws, Deliver(s))[m]
    ensures StepWorkers(ws, Deliver(s))[m] == Offer(ws[m], s)
  {
  }
}
