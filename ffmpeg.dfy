/** Package `ffmpeg` of the Go program: the PCM segment size, the recording
    file name layout and the recorder's argument list. */
module Ffmpeg {
  import opened Base
  import Decimal
  import Config

  /** The audio the recorder writes to stdout: 48 kHz, one channel, 16-bit samples. */
  const SAMPLE_RATE: nat := 48000
  const CHANNELS: nat := 1
  const BITS_PER_SAMPLE: nat := 16

  /** `BytesPerSecond`: the size of one audio segment. */
  const BYTES_PER_SECOND: nat := 96000

  lemma BytesPerSecondIsOneSecond()
    ensures BYTES_PER_SECOND == SAMPLE_RATE * CHANNELS * (BITS_PER_SAMPLE / 8)
  {
  }

  /** A wall-clock instant at one-second resolution, as `time.Now()` supplies it. */
  datatype DateTime = DateTime(year: nat, month: nat, day: nat, hour: nat, minute: nat, second: nat)

  /** The instants the layout can print with fixed-width fields. */
  predicate ValidDateTime(t: DateTime)
  {
    t.year <= 9999 && 1 <= t.month <= 12 && 1 <= t.day <= 31
    && t.hour < 24 && t.minute < 60 && t.second < 60
  }

  /** `time.Format(SaveName)` with layout "2006-01-02_150405.mkv". */
  function SaveName(t: DateTime): (name: string)
    requires ValidDateTime(t)
    ensures |name| == 21
  {
    FixedWidth(t.year, 4) + "-" + FixedWidth(t.month, 2) + "-" + FixedWidth(t.day, 2) + "_"
    + FixedWidth(t.hour, 2) + FixedWidth(t.minute, 2) + FixedWidth(t.second, 2) + ".mkv"
  }

  /** A zero-padded field of exactly `width` digits. */
  function FixedWidth(n: nat, width: nat): (s: string)
    requires 1 <= width && n < Decimal.Pow10(width)
    ensures |s| == width && Decimal.AllDigits(s) && Decimal.Value(s) == n
  {
    Decimal.DigitsLength(n, width);
    Decimal.ValueOfZeroPad(n, width);
    Decimal.ZeroPad(n, width)
  }

  /** Reads the instant back from a recording's file name. */
  function ParseSaveName(name: string): Option<DateTime>
  {
    if |name| != 21 || name[4] != '-' || name[7] != '-' || name[10] != '_' || name[17..] != ".mkv" then None
    else if !Decimal.AllDigits(name[..4]) || !Decimal.AllDigits(name[5..7]) || !Decimal.AllDigits(name[8..10])
      || !Decimal.AllDigits(name[11..13]) || !Decimal.AllDigits(name[13..15]) || !Decimal.AllDigits(name[15..17]) then None
    else
      Some(DateTime(Decimal.Value(name[..4]), Decimal.Value(name[5..7]), Decimal.Value(name[8..10]),
                    Decimal.Value(name[11..13]), Decimal.Value(name[13..15]), Decimal.Value(name[15..17])))
  }

  /** The file name determines the instant, so recordings started in
      different seconds never share a file name. */
  lemma ParseSaveNameRoundTrip(t: DateTime)
    requires ValidDateTime(t)
    ensures ParseSaveName(SaveName(t)) == Some(t)
  {
    SaveNameFields(t);
  }

  /** Where each field of the instant sits in the file name. */
  lemma SaveNameFields(t: DateTime)
    requires ValidDateTime(t)
    ensures var name := SaveName(t);
      && name[..4] == FixedWidth(t.year, 4) && name[4] == '-'
      && name[5..7] == FixedWidth(t.month, 2) && name[7] == '-'
      && name[8..10] == FixedWidth(t.day, 2) && name[10] == '_'
      && name[11..13] == FixedWidth(t.hour, 2)
      && name[13..15] == FixedWidth(t.minute, 2)
      && name[15..17] == FixedWidth(t.second, 2)
      && name[17..] == ".mkv"
  {
    NameLayout(FixedWidth(t.year, 4), FixedWidth(t.month, 2), FixedWidth(t.day, 2),
               FixedWidth(t.hour, 2), FixedWidth(t.minute, 2), FixedWidth(t.second, 2));
  }

  lemma NameLayout(y: string, mo: string, d: string, h: string, mi: string, s: string)
    requires |y| == 4 && |mo| == 2 && |d| == 2 && |h| == 2 && |mi| == 2 && |s| == 2
    ensures var name := y + "-" + mo + "-" + d + "_" + h + mi + s + ".mkv";
      && name[..4] == y && name[4] == '-' && name[5..7] == mo && name[7] == '-'
      && name[8..10] == d && name[10] == '_' && name[11..13] == h
      && name[13..15] == mi && name[15..17] == s && name[17..] == ".mkv"
  {
    var name := y + "-" + mo + "-" + d + "_" + h + mi + s + ".mkv";
    var date := y + "-" + mo + "-" + d;
    var clock := "_" + h + mi + s;
    assert name == date + clock + ".mkv";
    assert name[..10] == date;
    assert name[10..17] == clock;
  }

  lemma SaveNameInjective(t: DateTime, u: DateTime)
    requires ValidDateTime(t) && ValidDateTime(u) && t != u
    ensures SaveName(t) != SaveName(u)
  {
    ParseSaveNameRoundTrip(t);
    ParseSaveNameRoundTrip(u);
  }

  const BASIC_OPTIONS: seq<string> := ["-y", "-loglevel", "fatal", "-nostdin", "-nostats"]

  /** The second output: the microphone as raw WAV on stdout, for the scanners. */
  const WAV_TO_STDOUT: seq<string> :=
    ["-map", "0:a", "-c:a", "pcm_s16le", "-ar", "48000", "-ac", "1", "-f", "wav", "-"]

  /** The recording output up to the compression preset; the file name follows later. */
  const MKV_OUTPUT: seq<string> :=
    ["-map", "0:a", "-map", "[dtstamp]", "-c:a", "pcm_s16le",
     "-ar", "48000", "-ac", "1", "-c:v", "libx264", "-preset"]

  /** The capacity `Recorder_Arguments` reserves, from the counts in its comment. */
  function ArgCount(cfg: Config.Config): int
  {
    38 + |cfg.recordAudioOptions| + |cfg.recordVideoOptions| + |cfg.recordVideoAdvanced|
    - (if cfg.hasModels then 0 else 11)
  }

  /** The argument list, block by block: basic options, audio input, video
      input, the optional WAV-to-stdout output and the MKV output. */
  function RecorderArgs(cfg: Config.Config): seq<string>
  {
    BASIC_OPTIONS
    + AudioInput(cfg)
    + VideoInput(cfg)
    + (if cfg.hasModels then WAV_TO_STDOUT else [])
    + cfg.recordVideoAdvanced + MKV_OUTPUT + [cfg.recordCompression]
  }

  function AudioInput(cfg: Config.Config): seq<string>
  {
    ["-t", cfg.recordDuration] + cfg.recordAudioOptions + ["-i", cfg.recordAudioDevice]
  }

  function VideoInput(cfg: Config.Config): seq<string>
  {
    ["-t", cfg.recordDuration] + cfg.recordVideoOptions + ["-i", cfg.recordVideoDevice]
  }

  /** `Recorder_Arguments`, appending block by block. */
  method RecorderArguments(cfg: Config.Config) returns (args: seq<string>)
    ensures args == RecorderArgs(cfg)
  {
    args := [];
    args := args + BASIC_OPTIONS;
    args := args + ["-t", cfg.recordDuration];
    args := args + cfg.recordAudioOptions;
    args := args + ["-i", cfg.recordAudioDevice];
    assert args == BASIC_OPTIONS + AudioInput(cfg);
    args := args + ["-t", cfg.recordDuration];
    args := args + cfg.recordVideoOptions;
    args := args + ["-i", cfg.recordVideoDevice];
    assert args == BASIC_OPTIONS + AudioInput(cfg) + VideoInput(cfg);
    if cfg.hasModels {
      args := args + WAV_TO_STDOUT;
    }
    args := args + cfg.recordVideoAdvanced;
    args := args + MKV_OUTPUT + [cfg.recordCompression];
  }

  /** The reserved capacity is exactly the number of arguments produced, so
      the caller's `append` of the file name copies instead of aliasing. */
  lemma ArgCountExact(cfg: Config.Config)
    ensures |RecorderArgs(cfg)| == ArgCount(cfg)
  {
  }

  /** Where the inputs sit: the basic options, then the audio input block
      and the video input block (`InputBlock` gives the layout of each). */
  lemma RecorderArgsInputs(cfg: Config.Config)
    ensures var args := RecorderArgs(cfg);
      var a := 7 + |cfg.recordAudioOptions|;
      var v := a + 6 + |cfg.recordVideoOptions|;
      && |args| > v
      && args[..5] == ["-y", "-loglevel", "fatal", "-nostdin", "-nostats"]
      && args[5..a + 2] == ["-t", cfg.recordDuration] + cfg.recordAudioOptions + ["-i", cfg.recordAudioDevice]
      && args[a + 2..v] == ["-t", cfg.recordDuration] + cfg.recordVideoOptions + ["-i", cfg.recordVideoDevice]
  {
    var args := RecorderArgs(cfg);
    var audio, video := AudioInput(cfg), VideoInput(cfg);
    var tail := (if cfg.hasModels then WAV_TO_STDOUT else []) + cfg.recordVideoAdvanced + MKV_OUTPUT + [cfg.recordCompression];
    assert args == BASIC_OPTIONS + audio + video + tail;
    assert args[..5] == BASIC_OPTIONS;
    assert args[5..|BASIC_OPTIONS + audio|] == audio;
    assert args[|BASIC_OPTIONS + audio|..|BASIC_OPTIONS + audio + video|] == video;
  }

  /** One `-t duration <options> -i device` input block: the configured
      options appear verbatim and in order between duration and device. */
  lemma InputBlock(duration: string, options: seq<string>, device: string)
    ensures var b := ["-t", duration] + options + ["-i", device];
      && |b| == |options| + 4
      && b[..2] == ["-t", duration]
      && b[2..|options| + 2] == options
      && b[|options| + 2..] == ["-i", device]
  {
    var b := ["-t", duration] + options + ["-i", device];
    assert b[..2] == ["-t", duration];
    assert b[2..|options| + 2] == options;
  }

  /** Where the outputs sit: the WAV block when models are configured, then
      the advanced video options verbatim and the preset last. */
  lemma RecorderArgsOutputs(cfg: Config.Config)
    ensures var args := RecorderArgs(cfg);
      var v := 13 + |cfg.recordAudioOptions| + |cfg.recordVideoOptions|;
      var w := v + (if cfg.hasModels then 11 else 0);
      && |args| == w + |cfg.recordVideoAdvanced| + 14
      && (cfg.hasModels ==> args[v..w] == WAV_TO_STDOUT)
      && args[w..w + |cfg.recordVideoAdvanced|] == cfg.recordVideoAdvanced
      && args[|args| - 2..] == ["-preset", cfg.recordCompression]
  {
    var args := RecorderArgs(cfg);
    var wav := if cfg.hasModels then WAV_TO_STDOUT else [];
    var inputs := BASIC_OPTIONS + AudioInput(cfg) + VideoInput(cfg);
    var head := inputs + wav;
    var tail := MKV_OUTPUT + [cfg.recordCompression];
    assert args == head + cfg.recordVideoAdvanced + tail;
    assert head[|inputs|..] == wav;
    assert (head + cfg.recordVideoAdvanced)[|head|..] == cfg.recordVideoAdvanced;
  }

  /** Configuring models only inserts the WAV-to-stdout block; everything
      else is the same list. */
  lemma WavBlockOnlyWithModels(cfg: Config.Config)
    ensures var prefix := BASIC_OPTIONS + AudioInput(cfg) + VideoInput(cfg);
      var suffix := cfg.recordVideoAdvanced + MKV_OUTPUT + [cfg.recordCompression];
      && RecorderArgs(cfg.(hasModels := true)) == prefix + WAV_TO_STDOUT + suffix
      && RecorderArgs(cfg.(hasModels := false)) == prefix + suffix
  {
  }
}
