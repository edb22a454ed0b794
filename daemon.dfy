/** `Run` of the Go daemon: the recording loop and its two-stage Ctrl+C
    shutdown. Each capture cycle (make the directory, run ffmpeg, pause) is
    an opaque step reported by its outcome; interrupts and cycle completions
    arrive as one sequential schedule of events. */
module Daemon {
  import opened Base
  import Config
  import Ffmpeg
  import Fanout
  import Segmenter

  /** The signal goroutine's progress: no Ctrl+C yet, one (`stop_recording`
      is set), or a second one (the process dies). */
  datatype Shutdown = Running | StopRequested | Terminated

  function OnInterrupt(s: Shutdown): Shutdown
  {
    match s
    case Running => StopRequested
    case StopRequested => Terminated
    case Terminated => Terminated
  }

  /** How one capture cycle went: the stamp `time.Now().Format(SaveName)`
      gave, whether `os.MkdirAll` succeeded, whether ffmpeg started, whether
      it exited without error, and the audio it wrote to the pipe. */
  datatype Capture = Capture(stamp: string, dirMade: bool, started: bool, exitedCleanly: bool, audio: seq<byte>)

  /** The loop test `for !stop_recording` (which starts a cycle or ends the
      loop), a Ctrl+C, or the end of the cycle in flight. */
  datatype Event = LoopTest | Interrupt | CycleEnd(capture: Capture)

  /** Still in the loop, returned from `Run`, or dead through `log.Die`. */
  datatype Status = Recording | Returned | Died(message: string)

  datatype RunState = RunState(
    shutdown: Shutdown,
    status: Status,
    inFlight: bool,
    recordings: seq<string>,
    audio: seq<seq<byte>>,
    pausesMs: seq<nat>)

  const SECOND_INTERRUPT: string := "Second Ctrl+C received. Terminating immediately."
  const START_FAILED: string := "Failed to intialize ffmpeg"

  function SavePath(cfg: Config.Config): string
  {
    cfg.workspace + "/recordings/"
  }

  /** The pause after a cycle: 50 ms, plus one second when ffmpeg failed. */
  function PauseMs(c: Capture): nat
  {
    if c.exitedCleanly then 50 else 1050
  }

  /** One event. Once `Run` has returned or the process has died nothing
      more happens. The loop test starts a cycle while no stop was
      requested and otherwise returns; a cycle end completes the cycle in
      flight. An event the loop cannot be at (a loop test during a cycle, a
      cycle end between cycles) changes nothing. */
  function Step(s: RunState, e: Event, savePath: string, hasModels: bool): RunState
  {
    if !s.status.Recording? then s
    else match e
      case Interrupt =>
        var next := OnInterrupt(s.shutdown);
        s.(shutdown := next, status := if next.Terminated? then Died(SECOND_INTERRUPT) else s.status)
      case LoopTest =>
        if s.inFlight then s
        else if s.shutdown.Running? then s.(inFlight := true)
        else s.(status := Returned)
      case CycleEnd(c) =>
        if !s.inFlight then s
        else if !c.dirMade then s.(status := Died("Failed to make output directory: " + savePath))
        else if !c.started then s.(status := Died(START_FAILED))
        else
          s.(inFlight := false,
             recordings := s.recordings + [savePath + c.stamp],
             audio := if hasModels then s.audio + [c.audio] else s.audio,
             pausesMs := s.pausesMs + [PauseMs(c)])
  }

  function Supervise(s: RunState, events: seq<Event>, savePath: string, hasModels: bool): RunState
    decreases |events|
  {
    if events == [] then s else Supervise(Step(s, events[0], savePath, hasModels), events[1..], savePath, hasModels)
  }

  const INITIAL: RunState := RunState(Running, Recording, false, [], [], [])

  /** `Run`: the recorder arguments it builds and where the schedule leaves
      it. With models configured, a negative backlog makes the scanner
      goroutine panic when it makes the queues; as the goroutine's timing
      is not fixed, the model lets the panic end the run before any event. */
  method Run(cfg: Config.Config, events: seq<Event>) returns (recordArgs: seq<string>, s: RunState)
    ensures recordArgs == Ffmpeg.RecorderArgs(cfg)
    ensures cfg.hasModels && cfg.recordInspectBacklog < 0 && |cfg.recordInspectModels| > 0 ==>
      s == INITIAL.(status := Died(Fanout.MAKECHAN_PANIC))
    ensures !(cfg.hasModels && cfg.recordInspectBacklog < 0 && |cfg.recordInspectModels| > 0) ==>
      s == Supervise(INITIAL, events, SavePath(cfg), cfg.hasModels)
  {
    s := INITIAL;
    if cfg.hasModels {
      var scanners, panic := Fanout.StartQueues(cfg.recordInspectModels, cfg.recordInspectBacklog);
      if panic.Some? {
        recordArgs := Ffmpeg.RecorderArguments(cfg);
        s := s.(status := Died(panic.value));
        return;
      }
    }
    recordArgs := Ffmpeg.RecorderArguments(cfg);
    var savePath := cfg.workspace + "/recordings/";
    var stopRecording := false;
    var i := 0;
    while i < |events| && s.status.Recording?
      invariant 0 <= i <= |events|
      invariant Supervise(INITIAL, events, savePath, cfg.hasModels) == Supervise(s, events[i..], savePath, cfg.hasModels)
      invariant stopRecording <==> !s.shutdown.Running?
    {
      assert events[i..][0] == events[i] && events[i..][1..] == events[i + 1..];
      match events[i] {
        case Interrupt =>
          if !stopRecording {
            stopRecording := true;
            s := s.(shutdown := StopRequested);
          } else {
            s := s.(shutdown := Terminated, status := Died(SECOND_INTERRUPT));
          }
        case LoopTest =>
          if !s.inFlight {
            if stopRecording {
              s := s.(status := Returned);
            } else {
              s := s.(inFlight := true);
            }
          }
        case CycleEnd(c) =>
          if s.inFlight {
            if !c.dirMade {
              s := s.(status := Died("Failed to make output directory: " + savePath));
            } else if !c.started {
              s := s.(status := Died(START_FAILED));
            } else {
              s := s.(inFlight := false, recordings := s.recordings + [savePath + c.stamp], pausesMs := s.pausesMs + [PauseMs(c)]);
              if cfg.hasModels {
                s := s.(audio := s.audio + [c.audio]);
              }
            }
          }
      }
      i := i + 1;
    }
    if i < |events| {
      AfterEndNothingHappens(s, events[i..], savePath, cfg.hasModels);
    }
  }

  /** After `Run` returned or the process died, later events change nothing. */
  lemma {:induction false} AfterEndNothingHappens(s: RunState, events: seq<Event>, savePath: string, hasModels: bool)
    requires !s.status.Recording?
    ensures Supervise(s, events, savePath, hasModels) == s
    decreases |events|
  {
    if events != [] {
      AfterEndNothingHappens(s, events[1..], savePath, hasModels);
    }
  }

  /** Loop tests before the first interrupt: the cycles that may start. */
  function StartsBeforeInterrupt(events: seq<Event>): nat
    decreases |events|
  {
    if events == [] || events[0].Interrupt? then 0
    else (if events[0].LoopTest? then 1 else 0) + StartsBeforeInterrupt(events[1..])
  }

  /** The first Ctrl+C lets only the cycle in flight finish: once a stop is
      requested, no loop test starts another cycle. */
  lemma {:induction false} AtMostOneCycleAfterStop(s: RunState, events: seq<Event>, savePath: string, hasModels: bool)
    requires Consistent(s)
    ensures var r := Supervise(s, events, savePath, hasModels);
      |r.recordings| <= |s.recordings| + (
        if !s.status.Recording? then 0
        else (if s.inFlight then 1 else 0) + (if s.shutdown.Running? then StartsBeforeInterrupt(events) else 0))
    decreases |events|
  {
    if events != [] && s.status.Recording? {
      var s' := Step(s, events[0], savePath, hasModels);
      AtMostOneCycleAfterStop(s', events[1..], savePath, hasModels);
    } else if events != [] {
      AfterEndNothingHappens(s, events, savePath, hasModels);
    }
  }

  /** Between cycles, a requested stop ends the loop at the next loop test,
      with no further recording. */
  lemma StopEndsAtLoopTest(s: RunState, rest: seq<Event>, savePath: string, hasModels: bool)
    requires s.status.Recording? && s.shutdown.StopRequested? && !s.inFlight
    ensures var r := Supervise(s, [LoopTest] + rest, savePath, hasModels);
      r.status == Returned && r.recordings == s.recordings
  {
    var t := Step(s, LoopTest, savePath, hasModels);
    assert ([LoopTest] + rest)[1..] == rest;
    AfterEndNothingHappens(t, rest, savePath, hasModels);
  }

  /** A Ctrl+C during the pause after the first cycle: the run returns with
      that one recording, and the capture after it never starts. */
  lemma InterruptInPauseStopsLoop(c: Capture, d: Capture, savePath: string, hasModels: bool)
    requires c.dirMade && c.started
    ensures var r := Supervise(INITIAL, [LoopTest, CycleEnd(c), Interrupt, LoopTest, CycleEnd(d)], savePath, hasModels);
      r.status == Returned && r.recordings == [savePath + c.stamp]
  {
    var events := [LoopTest, CycleEnd(c), Interrupt, LoopTest, CycleEnd(d)];
    var s1 := Step(INITIAL, LoopTest, savePath, hasModels);
    var s2 := Step(s1, CycleEnd(c), savePath, hasModels);
    var s3 := Step(s2, Interrupt, savePath, hasModels);
    assert events[1..][1..][1..] == [LoopTest, CycleEnd(d)];
    assert Supervise(INITIAL, events, savePath, hasModels) == Supervise(s1, events[1..], savePath, hasModels);
    assert Supervise(s1, events[1..], savePath, hasModels) == Supervise(s2, events[1..][1..], savePath, hasModels);
    assert Supervise(s2, events[1..][1..], savePath, hasModels) == Supervise(s3, [LoopTest, CycleEnd(d)], savePath, hasModels);
    StopEndsAtLoopTest(s3, [CycleEnd(d)], savePath, hasModels);
  }

  /** Two Ctrl+C in a row while recording kill the process. */
  lemma SecondInterruptDies(s: RunState, rest: seq<Event>, savePath: string, hasModels: bool)
    requires s.status.Recording? && s.shutdown.Running?
    ensures Supervise(s, [Interrupt, Interrupt] + rest, savePath, hasModels).status == Died(SECOND_INTERRUPT)
  {
    var t := Step(Step(s, Interrupt, savePath, hasModels), Interrupt, savePath, hasModels);
    assert ([Interrupt, Interrupt] + rest)[1..][1..] == rest;
    AfterEndNothingHappens(t, rest, savePath, hasModels);
  }

  /** One Ctrl+C during a cycle, then that cycle completes: its recording
      is kept and the next loop test returns. */
  lemma FirstInterruptFinishesCycle(s: RunState, c: Capture, rest: seq<Event>, savePath: string, hasModels: bool)
    requires s.status.Recording? && s.shutdown.Running? && s.inFlight && c.dirMade && c.started
    ensures var r := Supervise(s, [Interrupt, CycleEnd(c), LoopTest] + rest, savePath, hasModels);
      r.status == Returned && r.recordings == s.recordings + [savePath + c.stamp]
  {
    var t := Step(Step(s, Interrupt, savePath, hasModels), CycleEnd(c), savePath, hasModels);
    assert ([Interrupt, CycleEnd(c), LoopTest] + rest)[1..][1..] == [LoopTest] + rest;
    StopEndsAtLoopTest(t, rest, savePath, hasModels);
  }

  /** Cycles that all made their directory and started ffmpeg, each begun
      by its loop test. */
  function Cycles(cs: seq<Capture>): (r: seq<Event>)
    ensures |r| == 2 * |cs|
    decreases |cs|
  {
    if cs == [] then [] else [LoopTest, CycleEnd(cs[0])] + Cycles(cs[1..])
  }

  /** Without Ctrl+C and with every cycle starting, the loop keeps recording:
      one file per cycle, named after its stamp, each followed by a pause. */
  lemma {:induction false} UninterruptedKeepsRecording(s: RunState, cs: seq<Capture>, savePath: string, hasModels: bool)
    requires s.status.Recording? && s.shutdown.Running? && !s.inFlight
    requires forall i :: 0 <= i < |cs| ==> cs[i].dirMade && cs[i].started
    ensures var r := Supervise(s, Cycles(cs), savePath, hasModels);
      && r.status.Recording? && r.shutdown.Running? && !r.inFlight
      && |r.recordings| == |s.recordings| + |cs|
      && r.recordings[..|s.recordings|] == s.recordings
      && (forall i :: 0 <= i < |cs| ==> r.recordings[|s.recordings| + i] == savePath + cs[i].stamp)
      && |r.pausesMs| == |s.pausesMs| + |cs|
    decreases |cs|
  {
    if cs != [] {
      var s' := Step(Step(s, LoopTest, savePath, hasModels), CycleEnd(cs[0]), savePath, hasModels);
      var events := Cycles(cs);
      assert events[0] == LoopTest && events[1..][0] == CycleEnd(cs[0]) && events[1..][1..] == Cycles(cs[1..]);
      var s1 := Step(s, LoopTest, savePath, hasModels);
      assert Supervise(s, events, savePath, hasModels) == Supervise(s1, events[1..], savePath, hasModels);
      UninterruptedKeepsRecording(s', cs[1..], savePath, hasModels);
      var r := Supervise(s, Cycles(cs), savePath, hasModels);
      assert r == Supervise(s', Cycles(cs[1..]), savePath, hasModels);
      assert r.recordings[..|s'.recordings|] == s.recordings + [savePath + cs[0].stamp];
      forall i | 0 <= i < |cs|
        ensures r.recordings[|s.recordings| + i] == savePath + cs[i].stamp
      {
        if i > 0 {
          assert cs[1..][i - 1] == cs[i];
        } else {
          assert r.recordings[|s.recordings|] == r.recordings[..|s'.recordings|][|s.recordings|];
        }
      }
      assert r.recordings[..|s.recordings|] == r.recordings[..|s'.recordings|][..|s.recordings|];
    }
  }

  /** The states a run can reach: a second Ctrl+C always comes with death,
      and `Run` returns only after a first one. */
  predicate Consistent(s: RunState)
  {
    (s.shutdown.Terminated? ==> s.status == Died(SECOND_INTERRUPT))
    && (s.status.Returned? ==> s.shutdown.StopRequested?)
  }

  lemma {:induction false} SuperviseConsistent(s: RunState, events: seq<Event>, savePath: string, hasModels: bool)
    requires Consistent(s)
    ensures Consistent(Supervise(s, events, savePath, hasModels))
    decreases |events|
  {
    if events != [] {
      SuperviseConsistent(Step(s, events[0], savePath, hasModels), events[1..], savePath, hasModels);
    }
  }

  /** Without models no audio reaches a segmenter at all. */
  lemma {:induction false} NoModelsNoAudio(s: RunState, events: seq<Event>, savePath: string)
    ensures Supervise(s, events, savePath, false).audio == s.audio
    decreases |events|
  {
    if events != [] {
      NoModelsNoAudio(Step(s, events[0], savePath, false), events[1..], savePath);
    }
  }
}
