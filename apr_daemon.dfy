/** The recorder of the legacy Python monitor (`apr/monitor/daemon.py`): the
    ffmpeg command it builds from configuration and the loop that records
    one file after another until `SIGTERM` is set. */
module AprDaemon {
  import opened AprSignals
  import Ffmpeg

  /** The configuration keys the command reads. `recordCam` is the camera
      device; the empty string stands for an unset (false) value. */
  datatype RecordConfig = RecordConfig(
    recordCam: string,
    camOptions: seq<string>,
    camTimestamp: seq<string>,
    recordMic: string,
    compression: string,
    duration: string)

  predicate HasCamera(cfg: RecordConfig)
  {
    cfg.recordCam != ""
  }

  const BASE_COMMAND: seq<string> := ["ffmpeg", "-y", "-loglevel", "error", "-nostdin", "-nostats"]

  function CameraInput(cfg: RecordConfig): seq<string>
  {
    ["-f", "v4l2"] + cfg.camOptions + ["-thread_queue_size", "1024", "-i", cfg.recordCam]
  }

  function MicInput(cfg: RecordConfig): seq<string>
  {
    ["-f", "alsa", "-thread_queue_size", "1024", "-i", cfg.recordMic]
  }

  function Ending(cfg: RecordConfig): seq<string>
  {
    ["-preset", cfg.compression, "-t", cfg.duration]
  }

  /** The command, block by block; the destination file is not part of it. */
  function FfmpegCommand(cfg: RecordConfig): seq<string>
  {
    BASE_COMMAND
    + (if HasCamera(cfg) then CameraInput(cfg) else [])
    + MicInput(cfg)
    + (if HasCamera(cfg) then cfg.camTimestamp else [])
    + Ending(cfg)
  }

  /** `build_ffmpeg_command`, extending the list block by block. */
  method BuildFfmpegCommand(cfg: RecordConfig) returns (command: seq<string>)
    ensures command == FfmpegCommand(cfg)
  {
    command := BASE_COMMAND;
    if HasCamera(cfg) {
      command := command + ["-f", "v4l2"];
      command := command + cfg.camOptions;
      command := command + ["-thread_queue_size", "1024", "-i", cfg.recordCam];
      assert command == BASE_COMMAND + CameraInput(cfg);
    }
    command := command + MicInput(cfg);
    if HasCamera(cfg) {
      command := command + cfg.camTimestamp;
    }
    command := command + ["-preset", cfg.compression, "-t", cfg.duration];
  }

  /** Without a camera the command is the fixed head, the microphone and the
      ending: sixteen arguments. */
  lemma CommandWithoutCamera(cfg: RecordConfig)
    requires !HasCamera(cfg)
    ensures var command := FfmpegCommand(cfg);
      && |command| == 16
      && command[..6] == BASE_COMMAND
      && command[6..12] == ["-f", "alsa", "-thread_queue_size", "1024", "-i", cfg.recordMic]
      && command[12..] == ["-preset", cfg.compression, "-t", cfg.duration]
  {
    var command := FfmpegCommand(cfg);
    assert command == BASE_COMMAND + MicInput(cfg) + Ending(cfg);
    assert command[6..12] == MicInput(cfg);
  }

  /** With a camera its input block comes right after the head and before the
      microphone, its options verbatim; the timestamp options follow the
      microphone; the ending is last. */
  lemma CommandWithCamera(cfg: RecordConfig)
    requires HasCamera(cfg)
    ensures var command := FfmpegCommand(cfg);
      var c := 12 + |cfg.camOptions|;
      var m := c + 6;
      && |command| == m + |cfg.camTimestamp| + 4
      && command[..6] == BASE_COMMAND
      && command[6..c] == ["-f", "v4l2"] + cfg.camOptions + ["-thread_queue_size", "1024", "-i", cfg.recordCam]
      && command[c..m] == ["-f", "alsa", "-thread_queue_size", "1024", "-i", cfg.recordMic]
      && command[m..m + |cfg.camTimestamp|] == cfg.camTimestamp
      && command[|command| - 4..] == ["-preset", cfg.compression, "-t", cfg.duration]
  {
    var command := FfmpegCommand(cfg);
    var head := BASE_COMMAND + CameraInput(cfg);
    var inputs := head + MicInput(cfg);
    var body := inputs + cfg.camTimestamp;
    assert command == body + Ending(cfg);
    assert head[6..] == CameraInput(cfg);
    assert inputs[|head|..] == MicInput(cfg);
    assert body[|inputs|..] == cfg.camTimestamp;
  }

  /** Whatever the camera, the microphone options and the ending are the same. */
  lemma CameraOnlyAddsBlocks(cfg: RecordConfig, cam: string)
    requires cam != ""
    ensures var with := cfg.(recordCam := cam);
      FfmpegCommand(with) == BASE_COMMAND + CameraInput(with) + MicInput(cfg) + cfg.camTimestamp + Ending(cfg)
    ensures FfmpegCommand(cfg.(recordCam := "")) == BASE_COMMAND + MicInput(cfg.(recordCam := "")) + Ending(cfg)
  {
  }

  /** A clock reading `datetime.now()` can return. */
  type Instant = t: Ffmpeg.DateTime | Ffmpeg.ValidDateTime(t) witness Ffmpeg.DateTime(2000, 1, 1, 0, 0, 0)

  /** `strftime("%F_%H:%M:%S")`. */
  function Stamp(t: Instant): string
  {
    Ffmpeg.FixedWidth(t.year, 4) + "-" + Ffmpeg.FixedWidth(t.month, 2) + "-" + Ffmpeg.FixedWidth(t.day, 2)
    + "_" + Ffmpeg.FixedWidth(t.hour, 2) + ":" + Ffmpeg.FixedWidth(t.minute, 2) + ":" + Ffmpeg.FixedWidth(t.second, 2)
  }

  /** The file a recording started at `t` goes to: `<workspace>/rotating/<stamp>.mkv`. */
  function RecordingFile(workspace: string, t: Instant): string
  {
    workspace + "/rotating/" + Stamp(t) + ".mkv"
  }

  lemma StampLayout(y: string, mo: string, d: string, h: string, mi: string, s: string)
    requires |y| == 4 && |mo| == 2 && |d| == 2 && |h| == 2 && |mi| == 2 && |s| == 2
    ensures var stamp := y + "-" + mo + "-" + d + "_" + h + ":" + mi + ":" + s;
      && |stamp| == 19
      && stamp[..4] == y && stamp[5..7] == mo && stamp[8..10] == d
      && stamp[11..13] == h && stamp[14..16] == mi && stamp[17..] == s
  {
    var stamp := y + "-" + mo + "-" + d + "_" + h + ":" + mi + ":" + s;
    var date := y + "-" + mo + "-" + d;
    var clock := h + ":" + mi + ":" + s;
    assert stamp == date + "_" + clock;
    assert stamp[..10] == date && stamp[11..] == clock;
    assert date[..4] == y && date[5..7] == mo && date[8..] == d;
    assert clock[..2] == h && clock[3..5] == mi && clock[6..] == s;
  }

  /** The stamp determines the instant. */
  lemma StampInjective(t: Instant, u: Instant)
    requires Stamp(t) == Stamp(u)
    ensures t == u
  {
    StampLayout(Ffmpeg.FixedWidth(t.year, 4), Ffmpeg.FixedWidth(t.month, 2), Ffmpeg.FixedWidth(t.day, 2),
                Ffmpeg.FixedWidth(t.hour, 2), Ffmpeg.FixedWidth(t.minute, 2), Ffmpeg.FixedWidth(t.second, 2));
    StampLayout(Ffmpeg.FixedWidth(u.year, 4), Ffmpeg.FixedWidth(u.month, 2), Ffmpeg.FixedWidth(u.day, 2),
                Ffmpeg.FixedWidth(u.hour, 2), Ffmpeg.FixedWidth(u.minute, 2), Ffmpeg.FixedWidth(u.second, 2));
  }

  /** Recordings started in different seconds go to different files: the
      file name determines the start. */
  lemma RecordingFileInjective(workspace: string, t: Instant, u: Instant)
    requires RecordingFile(workspace, t) == RecordingFile(workspace, u)
    ensures t == u
  {
    var prefix := workspace + "/rotating/";
    var a, b := Stamp(t), Stamp(u);
    var x := RecordingFile(workspace, t);
    StampLayout(Ffmpeg.FixedWidth(t.year, 4), Ffmpeg.FixedWidth(t.month, 2), Ffmpeg.FixedWidth(t.day, 2),
                Ffmpeg.FixedWidth(t.hour, 2), Ffmpeg.FixedWidth(t.minute, 2), Ffmpeg.FixedWidth(t.second, 2));
    StampLayout(Ffmpeg.FixedWidth(u.year, 4), Ffmpeg.FixedWidth(u.month, 2), Ffmpeg.FixedWidth(u.day, 2),
                Ffmpeg.FixedWidth(u.hour, 2), Ffmpeg.FixedWidth(u.minute, 2), Ffmpeg.FixedWidth(u.second, 2));
    assert x == prefix + a + ".mkv" && x == prefix + b + ".mkv";
    assert x[|prefix|..|prefix| + 19] == a;
    assert x[|prefix|..|prefix| + 19] == b;
    StampInjective(t, u);
  }

  /** The text checked for ffmpeg errors after a recording, as written:
      standard error twice, so output on standard out is never reported. */
  function ErrorLogAsWritten(stdout: string, stderr: string): string
  {
    stderr + stderr
  }

  /** As written, what ffmpeg prints on standard out never shows: the text
      is empty exactly when standard error is, whatever standard out held. */
  lemma StdoutNeverLogged(stdout: string, stderr: string)
    ensures ErrorLogAsWritten(stdout, stderr) == "" <==> stderr == ""
    ensures ErrorLogAsWritten(stdout, stderr) == ErrorLogAsWritten("", stderr)
    ensures stdout != "" && stderr == "" ==> ErrorLogAsWritten(stdout, stderr) != ErrorLog(stdout, stderr)
  {
  }

  /** The text evidently meant: standard out, then standard error. */
  function ErrorLog(stdout: string, stderr: string): string
  {
    stdout + stderr
  }

  /** Something is logged exactly when ffmpeg printed anything, and what it
      printed is what is logged. */
  lemma ErrorLogReportsOutput(stdout: string, stderr: string)
    ensures ErrorLog(stdout, stderr) == "" <==> stdout == "" && stderr == ""
    ensures ErrorLog(stdout, stderr)[..|stdout|] == stdout && ErrorLog(stdout, stderr)[|stdout|..] == stderr
  {
  }

  /** One pass of the recording loop as the environment supplies it: the
      clock reading at the start, what ffmpeg printed, and the signals that
      arrived while it ran. */
  datatype Pass = Pass(start: Instant, stdout: string, stderr: string, signals: seq<int>)

  /** How many recordings the loop starts from flags `f`: one per pass until
      `SIGTERM` is seen at the top of the loop (or the passes run out). */
  function Recordings(f: Flags, passes: seq<Pass>): (n: nat)
    ensures n <= |passes|
    decreases |passes|
  {
    if f.sigterm || passes == [] then 0
    else 1 + Recordings(HandledAll(f, passes[0].signals), passes[1..])
  }

  /** The flags after the first `n` passes were handled. */
  function FlagsAfter(f: Flags, passes: seq<Pass>, n: nat): Flags
    requires n <= |passes|
    decreases n
  {
    if n == 0 then f else HandledAll(FlagsAfter(f, passes, n - 1), passes[n - 1].signals)
  }

  /** The messages logged for the first `n` passes, from the text as written. */
  function Logged(passes: seq<Pass>, n: nat): seq<string>
    requires n <= |passes|
    decreases n
  {
    if n == 0 then []
    else
      Logged(passes, n - 1) + LogEntry(ErrorLogAsWritten(passes[n - 1].stdout, passes[n - 1].stderr))
  }

  /** `logging.error` is called only for a non-empty text. */
  function LogEntry(text: string): seq<string>
  {
    if text == "" then [] else [text]
  }

  /** Nothing is recorded once `SIGTERM` is set, a stop request ends the
      loop after the recording during which it arrived, and without one every
      pass records. */
  lemma {:induction false} RecordingsStop(f: Flags, passes: seq<Pass>, k: nat)
    requires k < |passes|
    ensures f.sigterm ==> Recordings(f, passes) == 0
    ensures SIGUSR1 in passes[k].signals || SIGUSR2 in passes[k].signals ==> Recordings(f, passes) <= k + 1
    decreases k
  {
    if !f.sigterm {
      var next := HandledAll(f, passes[0].signals);
      HandledAllFlags(f, passes[0].signals);
      if k > 0 {
        RecordingsStop(next, passes[1..], k - 1);
        assert passes[1..][k - 1] == passes[k];
      } else if SIGUSR1 in passes[0].signals || SIGUSR2 in passes[0].signals {
        assert Recordings(next, passes[1..]) == 0;
      }
    }
  }

  lemma {:induction false} RecordingsWithoutStop(f: Flags, passes: seq<Pass>)
    requires !f.sigterm
    requires forall k :: 0 <= k < |passes| ==> SIGUSR1 !in passes[k].signals && SIGUSR2 !in passes[k].signals
    ensures Recordings(f, passes) == |passes|
    decreases |passes|
  {
    if passes != [] {
      HandledAllFlags(f, passes[0].signals);
      RecordingsWithoutStop(HandledAll(f, passes[0].signals), passes[1..]);
    }
  }

  /** `recording_loop`: while `SIGTERM` is clear, run the command with the
      next file name, log ffmpeg's error text (as written: standard error
      twice), and let the signals that arrived meanwhile reach the handler.
      The loop also ends when the supplied passes run out. */
  method RecordingLoop(m: Monitor, cfg: RecordConfig, workspace: string, passes: seq<Pass>)
    returns (runs: seq<seq<string>>, logged: seq<string>)
    modifies m
    ensures |runs| <= |passes|
    ensures |runs| == Recordings(old(m.State()), passes)
    ensures forall k :: 0 <= k < |runs| ==> runs[k] == Run(FfmpegCommand(cfg), workspace, passes[k].start)
    ensures logged == Logged(passes, |runs|)
    ensures m.State() == FlagsAfter(old(m.State()), passes, |runs|)
  {
    var command := BuildFfmpegCommand(cfg);
    ghost var start := m.State();
    runs, logged := [], [];
    var i := 0;
    while !m.sigterm && i < |passes|
      invariant 0 <= i <= |passes|
      invariant m.State() == FlagsAfter(start, passes, i)
      invariant Recordings(start, passes) == i + Recordings(m.State(), passes[i..])
      invariant |runs| == i
      invariant forall k :: 0 <= k < i ==> runs[k] == Run(command, workspace, passes[k].start)
      invariant logged == Logged(passes, i)
    {
      RecordingsStep(m.State(), passes, i);
      var run, entry := RecordPass(m, command, workspace, passes[i]);
      RunsExtend(runs, run, command, workspace, passes, i);
      runs := runs + [run];
      logged := logged + entry;
      i := i + 1;
    }
    if i == |passes| {
      assert passes[i..] == [];
    }
  }

  /** The command line of one recording: the command, then the file name. */
  function Run(command: seq<string>, workspace: string, t: Instant): seq<string>
  {
    command + [RecordingFile(workspace, t)]
  }

  /** The body of the loop: run the recording, log its error text, and
      handle the signals that arrived meanwhile. */
  method RecordPass(m: Monitor, command: seq<string>, workspace: string, pass: Pass)
    returns (run: seq<string>, entry: seq<string>)
    modifies m
    ensures run == Run(command, workspace, pass.start)
    ensures entry == LogEntry(ErrorLogAsWritten(pass.stdout, pass.stderr))
    ensures m.State() == HandledAll(old(m.State()), pass.signals)
  {
    run := command + [RecordingFile(workspace, pass.start)];
    var text := pass.stderr + pass.stderr;
    entry := if text == "" then [] else [text];
    DeliverSignals(m, pass.signals);
  }

  lemma RunsExtend(runs: seq<seq<string>>, run: seq<string>, command: seq<string>, workspace: string, passes: seq<Pass>, i: nat)
    requires |runs| == i < |passes|
    requires forall k :: 0 <= k < i ==> runs[k] == Run(command, workspace, passes[k].start)
    requires run == Run(command, workspace, passes[i].start)
    ensures forall k :: 0 <= k < i + 1 ==> (runs + [run])[k] == Run(command, workspace, passes[k].start)
  {
  }

  /** One pass of the loop starts one recording and hands on the flags. */
  lemma RecordingsStep(f: Flags, passes: seq<Pass>, i: nat)
    requires i < |passes| && !f.sigterm
    ensures Recordings(f, passes[i..]) == 1 + Recordings(HandledAll(f, passes[i].signals), passes[i + 1..])
  {
    assert passes[i..][0] == passes[i] && passes[i..][1..] == passes[i + 1..];
  }

  /** The handler runs once per arriving signal, in order. */
  method DeliverSignals(m: Monitor, signals: seq<int>)
    modifies m
    ensures m.State() == HandledAll(old(m.State()), signals)
  {
    ghost var start := m.State();
    for j := 0 to |signals|
      invariant m.State() == HandledAll(start, signals[..j])
    {
      m.HandleSignal(signals[j]);
      HandledAllAppend(start, signals[..j], [signals[j]]);
      assert signals[..j + 1] == signals[..j] + [signals[j]];
    }
    assert signals[..|signals|] == signals;
  }
}
