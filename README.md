# DTrack disturbance tracker — verified model of its core

DTrack records a camera and a microphone with ffmpeg into rotating MKV files.
At the same time it cuts the microphone's PCM stream into one-second segments.
It hands each segment to one bounded queue per trained model, where a scanner
worker looks at consecutive pairs of segments. A review GUI lets a person open
a recording, pick a one-second clip, listen to it and save it under a tag as
training data. A Python side trains the models and prepares audio, and an
older Python prototype (APR) records with its own ffmpeg command and is
stopped by signals.

This project models the deterministic core of that system in Dafny and
proves what it promises. One module per source file:

- `Segmenter` — `stream_to_segment` in `src/daemon/daemon.go`:
  - the stream becomes full 96000-byte buffers;
  - end of stream drops the partial buffer and reading starts over;
  - the `uint` counter numbers segments across restarts;
  - any other read error is fatal.
- `Fanout` — `start_scanners` in `src/daemon/daemon.go`:
  - one queue per model name;
  - a non-blocking send that drops the segment only when the queue is full
    (or, unbuffered, when its worker is not waiting);
  - the scanner workers, as a sequential interleaving of deliveries and worker turns.
- `Scanner` — `scan_segments` in `src/daemon/scanner.go`: the one-segment lookback.
- `Daemon` — `Run` in `src/daemon/daemon.go`:
  - the recording loop and its two-stage Ctrl+C shutdown;
  - each capture cycle is an opaque outcome.
- `Ffmpeg` — `src/ffmpeg/ffmpeg.go`:
  - the segment size;
  - the file-name layout of recordings;
  - `Recorder_Arguments` and its exact length formula.
- `Config` — `Load_Configuration` in `src/state/config.go`:
  - defaults, then the JSON document, then `DTRACK_*` variables;
  - per-type coercion and the fatal errors.
- `Common` (`In_List`) and `Flags` (`parse_flags`) — `src/common/utils.go` and `src/flags.go`.
- `Review` — `src/review/action.go`:
  - the review globals as a class;
  - the `Readiness` levels 0–4 gate loading, replaying and tagging.
- `Model` — the integer parts of `src/model/model.go`:
  - pad/truncate and little-endian int16 decoding;
  - the frame and bin counts, the zeroed columns and the channel stacking;
  - the labels path and the result map.
- `AprSignals` and `AprDaemon` — `apr/monitor/signals.py` and `apr/monitor/daemon.py`.
- `AiOptions`, `AiModel` and `AiTime` — `ai/options.py`, `pad_audio` in `ai/model.py`, and `format_time` in `ai/__init__.py`.
- `Base` and `Decimal` — shared vocabulary:
  - `Option`, bytes and pad-or-truncate;
  - decimal digits, zero padding and Go's `strconv.Atoi`.

Where the code changes state step by step, the model does too. Review's
globals and the APR signal flags are classes, and loops are methods with
invariants, proved against specification functions. Pure code is functions
and lemmas.

Go's `select { case q <- s: default: }` keeps what a full queue already
holds and loses the new segment (`Fanout.OffersToUndrained`,
`Fanout.OldestKeptExample`). With capacity 1 and segments 0..4 offered while
the worker is busy, the queue holds segment 0, not segment 4. With a backlog
of 0 the queue is unbuffered: the send succeeds only when the worker is
already waiting in its receive, and the segment goes straight to it
(`Fanout.UnbufferedHandoff`, `Fanout.ZeroBacklogExample`).

`pad_audio` in `ai/model.py` pads to `SAMPLE_SIZE` = 96000 bytes, which is
one second of 16-bit audio. The Go `Prepare` pads to 192000 bytes. Both are
modelled as written (`AiModel.GoSegmentIsCut` states the difference).

## Model

| member | source | states |
|---|---|---|
| Base.FitLength | src/model/model.go:70-76 | the result has exactly n elements; a shorter input is its prefix followed by the fill value, a longer one is cut to its first n |
| Base.FitLengthIdempotent | ai/model.py:176-181 | bringing an input to its length a second time changes nothing |
| Base.FitLengthExact | ai/model.py:176-181 | an input that already has the length is returned unchanged |
| Decimal.Digits | src/review/action.go:97 | `strconv.FormatUint(n, 10)`: at least one character, all decimal digits, no leading zero, a single digit exactly below 10 |
| Decimal.ZeroPad | ai/__init__.py:17 | a zero-padded field is all digits and as wide as the larger of the width and the number's own digits |
| Decimal.Atoi | src/state/config.go:148 | every value `strconv.Atoi` accepts lies in Go's 64-bit `int` range |
| Decimal.ValueOfDigits | src/review/action.go:97 | the digits written for n read back as n |
| Decimal.ValueOfZeroPad | ai/__init__.py:17 | leading zeros do not change the value read back |
| Decimal.DigitsLength | src/ffmpeg/ffmpeg.go:21 | a number below 10^k needs at most k digits, so a width-k field is exactly k wide |
| Decimal.AtoiOfDigits | src/review/action.go:157 | a segment id written by `FormatUint` parses back to itself with `Atoi` when it fits an `int` |
| Decimal.AtoiOfNegative | src/state/config.go:148 | a minus sign before the digits gives the negated value, down to the smallest `int` |
| Decimal.AtoiRefusesOverflow | src/state/config.go:148-152 | well-formed digits beyond the `int` range are refused |
| Common.InList | src/common/utils.go:18-28 | the linear search answers true exactly when an element equals the needle (empty list, case sensitivity and single elements follow) |
| Common.InListDependsOnlyOnElements | src/common/utils.go:20-27 | two lists with the same elements give the same answer, whatever their order and repetitions |
| Flags.ParseFlags | src/flags.go:31-41 | exactly "monitor", "review", "train" and "record" proceed, unchanged; anything else, "<none>" included, shows help and dies with "Unexpected Action: " and the action |
| Config.Set | src/state/config.go:138-167 | assigning a field gives it the value and leaves every other field and `Has_Models` alone |
| Config.ApplyOverrides | src/state/config.go:130 | after decoding, a field named in the document holds the document's value and every other field keeps its previous value |
| Config.Coerce | src/state/config.go:144-167 | a coerced environment value always has the field's type |
| Config.LoadConfiguration | src/state/config.go:92-176 | no file gives exactly the defaults; an unreadable or undecodable file dies with its message; otherwise the outcome is EnvOutcome; `Has_Models` holds exactly when the model list is non-empty |
| Config.ApplyEnvironment | src/state/config.go:135-172 | the environment loop succeeds exactly when no set variable is refused; every field then holds environment over document over default, and otherwise the message names a refused variable |
| Config.EnvStart | src/state/config.go:130-135 | before the loop every field holds the document's value or the default |
| Config.EnvStep | src/state/config.go:136-168 | an empty variable leaves its field alone, an accepted one sets it; either way the field now holds its effective value |
| Config.EnvFinished | src/state/config.go:169-172 | after the loop every field holds its effective value and no variable was refused |
| Config.AllFieldsListed | src/state/config.go:46-61 | every settable field is mapped to an environment variable |
| Config.FloatEnvNeedsIntegerText | src/state/config.go:153-158 | float fields are parsed with `Atoi`: "0.5" is refused, "2" gives 2.0 |
| Config.ListEnvIsFatal | src/state/config.go:165-166 | setting DTRACK_RECORD_AUDIO_OPTIONS always makes the load fail |
| Ffmpeg.BytesPerSecondIsOneSecond | src/ffmpeg/ffmpeg.go:15-18 | 96000 = 48000 samples × 1 channel × 16/8 bytes |
| Ffmpeg.SaveName | src/ffmpeg/ffmpeg.go:20-21 | every recording file name has 21 characters |
| Ffmpeg.FixedWidth | src/ffmpeg/ffmpeg.go:21 | a layout field has exactly its width, is all digits and reads back as the number |
| Ffmpeg.ParseSaveNameRoundTrip | src/ffmpeg/ffmpeg.go:20-21 | the instant can be read back from the file name |
| Ffmpeg.SaveNameFields | src/ffmpeg/ffmpeg.go:21 | where year, month, day, hour, minute and second sit in the name, and the separators between them |
| Ffmpeg.SaveNameInjective | src/ffmpeg/ffmpeg.go:20-21 | recordings started in different seconds get different file names |
| Ffmpeg.RecorderArguments | src/ffmpeg/ffmpeg.go:51-93 | the appends build exactly the block-by-block argument list RecorderArgs |
| Ffmpeg.ArgCountExact | src/ffmpeg/ffmpeg.go:52-61 | the length is 38 plus the three configured option lists, minus 11 without models |
| Ffmpeg.RecorderArgsInputs | src/ffmpeg/ffmpeg.go:63-76 | the list starts with `-y -loglevel fatal -nostdin -nostats`, then the audio input block, then the video input block |
| Ffmpeg.InputBlock | src/ffmpeg/ffmpeg.go:66-76 | an input block is `-t duration`, the options verbatim and in order, then `-i device` |
| Ffmpeg.RecorderArgsOutputs | src/ffmpeg/ffmpeg.go:78-89 | the WAV-to-stdout block follows when models are configured, then the advanced options verbatim; the list ends with `-preset` and the compression, with no file name |
| Ffmpeg.WavBlockOnlyWithModels | src/ffmpeg/ffmpeg.go:78-83 | configuring models only inserts the 11-argument WAV block; the rest of the list is the same |
| Scanner.Receive | src/daemon/scanner.go:27-39 | the first segment is only stored; each later one adds one window (stored, incoming) and becomes the stored segment |
| Scanner.ScanSegments | src/daemon/scanner.go:16-42 | the receive loop takes exactly the windows of consecutive arrivals (n−1 for n arrivals), keeps the last arrival, and warns with the worker's name when the queue closes |
| Scanner.FeedExtends | src/daemon/scanner.go:18-40 | receiving more arrivals extends the windows to those of all arrivals together |
| Scanner.FeedFromStart | src/daemon/scanner.go:28-39 | a fresh worker's windows are exactly the windows of its arrivals, however they are split into turns |
| Scanner.LastArrivalNeverPrevious | src/daemon/scanner.go:22-25 | with distinct numbers the last arrival is never scanned as a previous segment |
| Segmenter.ChunksCount | src/daemon/daemon.go:121-131 | as many buffers are filled as fit; less than one buffer is left over |
| Segmenter.ChunksDropOnlyTail | src/daemon/daemon.go:126-131 | the buffers together are a prefix of the stream, shorter by less than one buffer |
| Segmenter.Numbered | src/daemon/daemon.go:138-142 | the k-th segment sent carries number (first + k) mod 2^64 and the k-th buffer |
| Segmenter.StreamToSegment | src/daemon/daemon.go:116-143 | the segments sent are the buffers of all epochs up to the first failed read, numbered from 0; it dies with "Unhandled stream read error: " and that read's message |
| Segmenter.ErrorEpochStep | src/daemon/daemon.go:132-134 | an epoch ending in a failed read is the last whose buffers are sent |
| Segmenter.EofEpochStep | src/daemon/daemon.go:127-131 | after an end of stream, reading goes on with the next epoch |
| Segmenter.FillBuffers | src/daemon/daemon.go:121-142 | one epoch sends its full buffers numbered on from the counter, and the counter advances by their number mod 2^64 |
| Segmenter.NumberedExtend | src/daemon/daemon.go:138-142 | the segments of one more epoch continue the numbering, and the counter stays in step |
| Segmenter.NumberedConcat | src/daemon/daemon.go:138-142 | numbering two runs of buffers in turn is numbering them together |
| Segmenter.ChunksAreFull | src/daemon/daemon.go:123-126 | every filled buffer holds exactly the buffer size |
| Segmenter.SegmentsAreFull | src/daemon/daemon.go:123-141 | every segment sent holds exactly one buffer's worth of bytes |
| Segmenter.CountsIncrease | src/daemon/daemon.go:118-142 | below 2^64 segments, segment k carries number k, so numbers strictly increase and never repeat |
| Segmenter.RestartContinuesNumbering | src/daemon/daemon.go:127-131 | after an end of stream the numbering continues where the earlier epochs stopped |
| Segmenter.SegmentDataAppend | src/daemon/daemon.go:127-131 | without a failed read, the buffers of two runs of epochs are those of each, in turn |
| Segmenter.NumberedWraps | src/daemon/daemon.go:118 | only the counter modulo 2^64 matters for the numbers given out |
| Segmenter.ReadErrorStopsSegmentation | src/daemon/daemon.go:132-134 | nothing read after a failed read is ever sent, and that read's message is the fatal one |
| Segmenter.RestartExample | src/daemon/daemon.go:121-143 | 10 bytes, end of stream, then 5 bytes, with 4-byte buffers, give segments 0, 1 and 2, and the tails are lost |
| Fanout.TryEnqueue | src/daemon/daemon.go:104-109 | the buffered half of the send never changes a queue's capacity; it appends when there is room and otherwise drops the segment |
| Fanout.Offer | src/daemon/daemon.go:104-109 | the send with `default` never changes a capacity, and a worker that is neither waiting on an empty channel nor has room is left exactly as it was: the segment is lost |
| Fanout.OffersToUndrained | src/daemon/daemon.go:104-109 | an undrained queue keeps the first segments offered, as many as fit, in order; later ones are dropped |
| Fanout.OldestKeptExample | src/daemon/daemon.go:104-109 | five segments offered: capacity 1 keeps segment 0 only, capacity 10 keeps all five |
| Fanout.UnbufferedHandoff | src/daemon/daemon.go:104-109 | with backlog 0 a waiting worker receives the segment directly; a busy one accepts nothing |
| Fanout.ZeroBacklogExample | src/daemon/daemon.go:82-109 | with backlog 0 a worker back at its receive before each of two deliveries scans them as one window; one that never waits receives nothing |
| Fanout.StartQueues | src/daemon/daemon.go:82-88 | one empty queue of capacity `Record_Inspect_Backlog` per model name, or the `makechan` panic when the backlog is negative and there is a model |
| Fanout.Distribute | src/daemon/daemon.go:103-110 | every worker gets the non-blocking send of the segment independently, and exactly those that neither wait on an empty channel nor have room are reported blocked |
| Fanout.StepWorkers | src/daemon/daemon.go:94-110 | no step adds or removes a worker |
| Fanout.Interleave | src/daemon/daemon.go:94-112 | the distribution loop executed step by step reaches the state of the interleaving |
| Fanout.StepTracks | src/daemon/daemon.go:103-110 | one step keeps each worker in step with the segments its queue accepted |
| Fanout.DeliverTracks | src/daemon/daemon.go:104-109 | a delivery is accepted exactly when the worker waits on an empty channel (handed over at once) or the buffer has room (appended); otherwise the worker is unchanged |
| Fanout.TurnTracks | src/daemon/scanner.go:21-39 | a worker's turn moves the oldest buffered segment into its lookback |
| Fanout.FeedSnoc | src/daemon/scanner.go:39 | receiving one more segment is one more step of the lookback |
| Fanout.InterleavingTracks | src/daemon/daemon.go:94-112 | over any schedule each worker has received a prefix of what its queue accepted and buffers the rest |
| Fanout.ScansFollowAcceptedOrder | src/daemon/scanner.go:28-39 | for fresh workers every window covers two consecutive segments accepted by that worker's own queue, and the queued ones are the newest accepted |
| Fanout.TracksGivesWindows | src/daemon/scanner.go:28-39 | a worker in step with its accepted segments has scanned exactly the windows of the received prefix |
| Fanout.DeliveryIsolated | src/daemon/daemon.go:103-110 | whether one queue is full makes no difference to what any other queue receives |
| Daemon.Run | src/daemon/daemon.go:22-67 | it builds the recorder arguments; a negative backlog with models panics when the queues are made; otherwise the loop reaches exactly Supervise of the loop tests, cycle ends and Ctrl+C events |
| Daemon.AfterEndNothingHappens | src/daemon/daemon.go:36 | after a return or death, later events change nothing |
| Daemon.AtMostOneCycleAfterStop | src/daemon/daemon.go:53-67 | recordings grow by at most the cycle in flight plus one per loop test before the first Ctrl+C; after a Ctrl+C no cycle starts |
| Daemon.SecondInterruptDies | src/daemon/daemon.go:34-36 | two Ctrl+C while recording kill the process with "Second Ctrl+C received. Terminating immediately." |
| Daemon.FirstInterruptFinishesCycle | src/daemon/daemon.go:30-53 | one Ctrl+C during a cycle, then that cycle completes: its recording is kept and the next loop test returns |
| Daemon.StopEndsAtLoopTest | src/daemon/daemon.go:53 | with a stop requested between cycles, the next loop test returns and nothing more is recorded |
| Daemon.InterruptInPauseStopsLoop | src/daemon/daemon.go:53-67 | a Ctrl+C during the pause after the first cycle returns with that one recording; the next capture never starts |
| Daemon.UninterruptedKeepsRecording | src/daemon/daemon.go:53-67 | without Ctrl+C and with every cycle starting, each loop test and cycle end add one recording named save path + stamp, in order, each followed by a pause |
| Daemon.SuperviseConsistent | src/daemon/daemon.go:29-37 | a second Ctrl+C always comes with death, and `Run` returns only after a first one |
| Daemon.NoModelsNoAudio | src/daemon/daemon.go:40-46 | without models no audio reaches a segmenter |
| Review.ReadDataIsFull | src/review/action.go:83-86 | every buffer kept by the reading loop holds one second of audio |
| Review.SelectableClipsHaveSuccessor | src/review/action.go:133-134 | the selectable list is every id but the last, so each listed clip k has a next segment k+1 |
| Review.SelectionAgreesWhenNonEmpty | src/review/action.go:134 | the correction differs from the slice as written only in the case that panics |
| Review.ShortRecordingPanics | src/review/action.go:134 | a recording with no full second: as written the slice panics, corrected the list is empty |
| Review.TagPathLayout | src/review/action.go:202-203 | the tag file lies under `<workspace>/tags/<tag>/` and its name ends in `:<frame>.dat` |
| Review.TagPathsDistinctFrames | src/review/action.go:203 | different frames of one recording get different tag files |
| Review.AttachClips | src/review/action.go:105-128 | the loading loop dies exactly when some segment's clip cannot be loaded; otherwise each segment gets its own clip |
| Review.Session.constructor | src/review/review.go:52-57 | launch starts at level 0 with nothing loaded and the step-1 status |
| Review.Session.ResetEnvironment | src/review/action.go:31-39 | level 0, no video, no selectable clip, the step-1 status |
| Review.Session.ResetBrokenEnvironment | src/review/action.go:42-50 | the same reset with the given status |
| Review.Session.OpenVideo | src/review/action.go:53-142 | cancel changes nothing; a temp-dir error resets with its message; otherwise the process dies exactly when a clip fails to load or no full second was read (the -1 slice), and the session holds the loaded segments, the as-written selection (every id but the last), level 1 and the step-2 status |
| Review.Session.ReadSegments | src/review/action.go:81-102 | one segment per read, numbered from 0, until end of stream; a failed read still keeps its zero-filled buffer; over a supplied finite trace the session is left reset with the last failure's message, or unchanged when no read failed (the source's hang after a failure is under Left out) |
| Review.Session.ReportFailure | src/review/action.go:91-93 | a failed read resets the session with "Unhandled error: " and its message; any other outcome leaves it unchanged |
| Review.Session.LoadClip | src/review/action.go:145-169 | below level 1 only an error status; otherwise the chosen clip becomes the frame at level 2 (or the `Atoi` error status when the id does not fit an `int`) |
| Review.Session.PlaySelected | src/review/action.go:179-187 | below level 2 the popup; otherwise the selected clip and the next one are played |
| Review.Session.ReplaySegment | src/review/action.go:172-176 | corrected: level 3 and the step-4 status only when a clip was selected |
| Review.Session.ReplaySegmentAsWritten | src/review/action.go:172-176 | as written: level 3 whether or not a clip was selected |
| Review.Session.TagClip | src/review/action.go:190-224 | only level 3 proceeds; directory and write errors keep level 3 with their status; success writes the frame's data followed by the next frame's data to TagPath and reaches level 4 |
| Review.TagDataIsTwoSeconds | src/review/action.go:212-214 | a tag file holds two seconds: the selected segment, then the next |
| Review.ReplayBeforeLoadAsWritten | src/review/action.go:172-176 | as written, replaying right after launch reaches level 3 with a frame outside the empty video |
| Review.ReplayBeforeLoad | src/review/action.go:172-176 | corrected, the session stays at level 0 and tagging refuses with "No clip selected." |
| Model.BinsAndShape | src/model/model.go:141-148 | the bins are N_FFT/2+1 = 1025, and the tensor shape holds three copies of the N_MELS × SPECTROGRAM_FRAMES image |
| Model.PadOrTruncateFits | src/model/model.go:69-76 | the input becomes exactly 192000 bytes, with short input kept as prefix and long input cut |
| Model.Int16LE | src/model/model.go:202 | the decoded sample lies in the int16 range |
| Model.Int16RoundTrip | src/model/model.go:202 | decoding and encoding little-endian int16 are inverse in both directions |
| Model.Int16Examples | src/model/model.go:202 | 0xffff is −1, 0x8000 is −32768, 0x7fff is 32767 |
| Model.DecodeSamples | src/model/model.go:198-206 | half as many samples as bytes, sample i decoded from bytes 2i and 2i+1 |
| Model.FramesFitSignal | src/model/model.go:86-108 | from N_FFT samples on, between 1 and 188 frames, every frame's window lies inside the signal, and fewer than 188 only when no further window fits |
| Model.PreparedFrameCount | src/model/model.go:79-89 | a prepared segment has 96000 samples and 184 frames |
| Model.PrepareSamples | src/model/model.go:68-89 | pad/truncate then decode gives 96000 samples and 184 frames |
| Model.ShortSignalFrames | src/model/model.go:86-89 | Go's truncating division: 2000 samples give 1 frame, 1000 give −1 |
| Model.FillSpectrogram | src/model/model.go:94-126 | a 1025 × 188 spectrogram holding the frame power in the computed columns and zero beyond them |
| Model.CopyInto | src/model/model.go:144-146 | `copy` writes the source into its range and nothing else |
| Model.StackChannels | src/model/model.go:141-146 | three identical copies of the image, one after the other |
| Model.Ext | src/model/model.go:50 | `filepath.Ext` is a suffix of the path |
| Model.ExtShape | src/model/model.go:50 | a non-empty extension starts with '.' and has no '/' |
| Model.ExtOfName | src/model/model.go:50 | the extension of `stem.tail` is `.tail` |
| Model.ExtOfPlainName | src/model/model.go:50 | a last path element without a dot has no extension |
| Model.LabelsPathOfName | src/model/model.go:50-51 | the labels file replaces the extension with `_labels.json` |
| Model.LabelsPathOfPlainName | src/model/model.go:50-51 | without an extension `_labels.json` is appended |
| Model.LabelsPathExamples | src/model/model.go:50-51 | `m.onnx`, `a.b.onnx` and `v.2/m` give `m_labels.json`, `a.b_labels.json` and `v.2/m_labels.json` |
| Model.InferResults | src/model/model.go:186-191 | the loop builds exactly the result map Results |
| Model.ResultsKeys | src/model/model.go:186-191 | a label is a key exactly when one of its indices is below both list lengths |
| Model.ResultsOfDistinct | src/model/model.go:186-191 | with distinct labels, label i maps to probability i |
| AprSignals.ReadSignal | apr/monitor/signals.py:21-32 | the urgency is between 0 and 3 |
| AprSignals.ReadSignalIsMostUrgent | apr/monitor/signals.py:26-32 | the most urgent option given wins, and 0 means no option was given |
| AprSignals.PushSignal | apr/monitor/signals.py:35-48 | signals are sent exactly for levels 1 to 3 |
| AprSignals.HandledKeepsFlags | apr/monitor/signals.py:51-63 | SIGUSR1 sets SIGTERM, SIGUSR2 sets both, others nothing; flags are never cleared and halting implies stopping |
| AprSignals.HandledAllFlags | apr/monitor/signals.py:55-63 | over any signal sequence SIGTERM ends set exactly when it was set or a SIGUSR1 or SIGUSR2 arrived, and SIGKILL exactly when it was set or a SIGUSR2 arrived |
| AprSignals.HandledAllAppend | apr/monitor/signals.py:51-63 | handling two batches in turn is handling them together |
| AprSignals.PushedSignalEffect | apr/monitor/signals.py:35-63 | on a monitor running undisturbed, stop, shutdown and halt set SIGTERM; only halt sets SIGKILL |
| AprSignals.Monitor.constructor | apr/monitor/signals.py:16-18 | both flags start cleared |
| AprSignals.Monitor.HandleSignal | apr/monitor/signals.py:51-63 | the handler updates the module flags as Handled |
| AprDaemon.BuildFfmpegCommand | apr/monitor/daemon.py:106-134 | the extends build exactly the block-by-block command |
| AprDaemon.CommandWithoutCamera | apr/monitor/daemon.py:111-131 | without a camera: the fixed head, the alsa input and `-preset … -t …`, 16 arguments |
| AprDaemon.CommandWithCamera | apr/monitor/daemon.py:115-131 | with a camera its v4l2 block precedes the microphone; the timestamp options follow the microphone; the ending is last |
| AprDaemon.CameraOnlyAddsBlocks | apr/monitor/daemon.py:115-127 | a camera only adds its input block and its timestamp options |
| AprDaemon.StampInjective | apr/monitor/daemon.py:92 | the `%F_%H:%M:%S` stamp determines the instant |
| AprDaemon.RecordingFileInjective | apr/monitor/daemon.py:92-94 | recordings started in different seconds go to different files |
| AprDaemon.StdoutNeverLogged | apr/monitor/daemon.py:99 | as written, for every output the logged text ignores stdout: it is empty exactly when stderr is, and output on stdout alone differs from the intended log |
| AprDaemon.ErrorLogReportsOutput | apr/monitor/daemon.py:99-101 | corrected, something is logged exactly when ffmpeg printed anything, stdout then stderr |
| AprDaemon.Recordings | apr/monitor/daemon.py:91 | never more recordings than passes |
| AprDaemon.RecordingsStop | apr/monitor/daemon.py:91 | nothing is recorded once SIGTERM is set; a stop request ends the loop after the recording during which it arrived |
| AprDaemon.RecordingsWithoutStop | apr/monitor/daemon.py:91-96 | without a stop request every pass records |
| AprDaemon.RecordingsStep | apr/monitor/daemon.py:91-96 | one pass starts one recording and hands on the flags |
| AprDaemon.RecordingLoop | apr/monitor/daemon.py:81-101 | it records Recordings many files, each the command plus `<workspace>/rotating/<stamp>.mkv`; it logs the as-written text (stderr twice) of each pass with non-empty stderr, and the flags end as the handled signals leave them |
| AprDaemon.RecordPass | apr/monitor/daemon.py:92-101 | one pass: the run, its log entry of `stderr + stderr` as written, and the handled signals |
| AprDaemon.DeliverSignals | apr/monitor/signals.py:51-63 | the handler runs once per arriving signal, in order |
| AiOptions.Merge | ai/options.py:52 | the keys are the union of the two; the four defaults always win; other keys pass through |
| AiOptions.TrainingSettingsFixed | ai/options.py:10-52 | whatever the file holds, `train_target`, `train_rate`, `train_momentum` and `train_dropout` are 0.95, 0.001, 0.9 and 0.2, and an empty file gives exactly these four keys |
| AiOptions.MergeIdempotent | ai/options.py:52 | merging again changes nothing, and the result is never empty |
| AiOptions.TraceUnknownAsWritten | ai/options.py:36-42 | `-V` names a level `logging` does not know; `-v` and no flag give DEBUG and INFO |
| AiOptions.VerbosityLowersLevel | ai/options.py:36-41 | with TRACE registered every choice is known, more verbosity never raises the threshold, and TRACE exactly for `-V` |
| AiOptions.Options.constructor | ai/options.py:17-18 | nothing loaded, logging not configured |
| AiOptions.Options.BootstrapAsWritten | ai/options.py:30-42 | the configuration is stored; setting the level fails exactly for `-V`, leaving the logger unchanged |
| AiOptions.Options.Bootstrap | ai/options.py:30-42 | corrected: the configuration is stored and the chosen level set |
| AiOptions.Options.Get | ai/options.py:21-42 | it bootstraps only when nothing is loaded and never reloads; the first `get` with `-V` stores the configuration and then raises, leaving the level unset; otherwise it answers the stored value (a missing key gives None) |
| AiOptions.GetTwice | ai/options.py:21-27 | a second `get` answers from the first load, whatever file it is handed |
| AiOptions.TraceFailsOnlyFirstGet | ai/options.py:21-42 | with `-V` only the first `get` raises; the second answers from the stored configuration (defaults first, then the file) and the level stays unset |
| AiModel.SampleSizeIsOneSecondOfBytes | ai/model.py:16-22 | SAMPLE_SIZE = 48000 × 2 = 96000 = BYTES_PER_SECOND, half of Go's AUDIO_LENGTH_BYTES |
| AiModel.PadAudioFits | ai/model.py:171-181 | the result has SAMPLE_SIZE bytes; short input is followed by zeros; long input keeps its first SAMPLE_SIZE bytes |
| AiModel.PadAudioIdempotent | ai/model.py:171-181 | it is the shared pad-or-cut, exact-size input is unchanged, and padding twice is padding once |
| AiModel.GoSegmentIsCut | ai/model.py:171-181 | a segment prepared for the Go model loses its second half here |
| AiTime.Field | ai/__init__.py:17 | every field has at least two characters |
| AiTime.FormatTimeFields | ai/__init__.py:15-17 | for non-negative input, minutes and seconds are below 60, hours are uncapped, h×3600+m×60+s = int(total), and each field is zero-padded |
| AiTime.FormatTimeRoundTrip | ai/__init__.py:15-17 | the text reads back as the whole seconds of the duration |
| AiTime.FormatTimeTruncates | ai/__init__.py:15 | fractions of a second are dropped |
| AiTime.FieldOfSmall | ai/__init__.py:17 | below 10 a leading zero, from 10 to 99 the two digits |
| AiTime.FormatWhole | ai/__init__.py:15-17 | a whole number of seconds is formatted from its `divmod` fields |
| AiTime.FormatOneHourOneMinuteOneSecond | ai/__init__.py:11-17 | 3661 gives "01:01:01" |
| AiTime.FormatHundredHours | ai/__init__.py:11-17 | 360000 gives "100:00:00" |
| AiTime.FormatNegativeSecond | ai/__init__.py:15-17 | −1 gives "-1:59:59", following `divmod`'s flooring |

## Left out

- Processes and pipes. These are outcomes supplied to the model:
  - `ffmpeg.ReadStdin` starting and waiting on ffmpeg (`src/ffmpeg/ffmpeg.go:24-43`), `io.Pipe` and `Pipe2DevNull`;
  - `os.MkdirAll`, `os.MkdirTemp`, `os.WriteFile`, `time.Now` and `time.Sleep`;
  - Python's `subprocess.run`, `os.kill`, `time.sleep`, `lsof` and `fasteners`.
- Goroutines, channels and `select`. These are a sequential interleaving of deliveries and worker turns; real concurrency is not modelled.
- Floating-point work: the FFT and Hann window, `powerToDb`, `minMaxNormalize`, the flattening and `resizeRowsAvg`, `softmax`, and the division by 32768 in `normalizeAudio`. The configuration's float fields are reals too: neither the rounding of `float64(intVal)` above 2^53 (`Config.Coerce`) nor that of JSON numbers read as doubles (`Config.ApplyOverrides`) is modelled.
- ONNX loading and inference, and the fatal errors for unreadable model or labels files, in `src/model/model.go`.
- The GUI:
  - images, icons, popup windows and list widgets;
  - audio playback, and the `go play_selected()` that `load_clip` starts;
  - `Extract_Arguments`, and whether the temporary directory is kept.
- Logging output. Only fatal messages, status texts and the warnings a member returns are modelled.
- Map iteration order over the scanners. It only affects the order of "Scanner Blocked" warnings, so `Fanout.Distribute` reports the set of blocked names.
- Daemon.Run: `daemon_stream`, the pipe's writer, is never closed, so in the running daemon the segmenter reads one continuous stream across capture cycles, and a cycle's last partial second is joined to the next cycle's first bytes. `Run` collects each cycle's audio in order but does not feed it to `Segmenter`; the segmenter's end-of-stream reset is modelled as `stream_to_segment` is written.
- The "Stream converter disappeared" branch. `stream_to_segment` only closes its channel when the process is already dying.
- Cross-revision calls. `daemon.go:63` and `action.go:80` call `ReadStdin` with three arguments, and `Workspace_Keep_Temp` is undeclared. For `Daemon.Run` the two-argument `ReadStdin` is modelled: it dies when ffmpeg cannot start and pauses one more second after an ffmpeg error.
- `json.Unmarshal` and `reflect` mechanics:
  - the document is a map of field overrides;
  - the malformed `json:train_momentum"` tag is not modelled separately, because Go then matches the key by field name, case-insensitively;
  - the "Invalid field" and `reflect.Bool` branches cannot be reached, because every mapped field exists and none is boolean.
- `Show_Help` and `show_help` texts, and `flag.Parse`. The help text shows `[0:v]` where the default filter uses `[1:v]`, and lists a DTRACK_RECORD_INSPECT_SEGMENT that is never read.
- The scanners' model call, which is a TODO in `scan_segments`. Only the windows it would get are modelled.
- Review.Session.LoadClip: requires the id to be an index of the displayed list, as the list widget guarantees. In Go an out-of-range id would panic on `segments[id]`.
- Review.Session.LoadClip: the `Current_Segments.Get()` error branch is left out, because the binding never fails for a list it holds.
- Review.Session.OpenVideo: the third argument `true` of `ReadStdin` at `action.go:80` is taken to close the pipe's writer when ffmpeg ends, so the reads end in end of stream. The two-argument `ReadStdin` never closes it, and the read loop would then block forever. A failed ffmpeg start dies inside the goroutine, and that is not one of `OpenVideo`'s inputs.
- Review.Session.ReadSegments: the read outcomes are any finite trace ending at end of stream. A pipe cannot produce a failure followed by other outcomes: once the writer closes it with an error, every later read returns that error. Because the loop has no `break` after `reset_broken_environment` (`action.go:91-93`), a failed read makes the source loop forever, appending zero-filled 96000-byte buffers. That hang is not modelled. For a trace with a failure, the contract describes where those reads would leave the session, a return the source never makes.
- Review.Session.ReadSegments: the `uint` segment id is not wrapped. A recording would need 2^64 seconds to wrap it.
- Review.AttachClips: a failed image open or decode and a failed WAV read are one `None` per segment. The messages of `log.Die` are not modelled.
- Model.FillSpectrogram: the frame powers are a parameter, because the FFT is floating point.
- Model.DecodeSamples: gives the int16 values before the division by 32768.
- AprDaemon.RecordingLoop:
  - the loop also ends when the supplied passes run out, which bounds an otherwise endless loop;
  - `.strip()` of the logged text and byte decoding are not modelled;
  - a pathlib join is string concatenation with "/";
  - the SIGKILL that follows a halt ends the process, which is not modelled;
  - Ctrl+C raises `KeyboardInterrupt` inside `subprocess.run` and ends the loop early; `main` catches it and releases the lock (`apr/monitor/daemon.py:63-68`). That early exit is not one of a pass's events.
- AprDaemon.RecordConfig: an unset camera is the empty string, standing for any falsy value. `apr/config.py` is not part of this model.
- AiOptions.Options.Get: Python's `KeyError` for a missing key is `None`. `read_arguments`, the errors of `open` and `json.load`, and the log formatter are left out.
- AiTime.FormatTime: Python floats are 64-bit doubles; the model takes the duration as a real, so rounding is not modelled. `int()` truncation is exact, and its `OverflowError`/`ValueError` on infinity or NaN is not modelled.
- The Python model, training and inspection code (`ai/nnet.py`, the spectrogram code of `ai/model.py`, `ai/inspect.py` and `ai/train.py`). It is numeric and uses torch and librosa.

## Findings

| source | as written | input that shows it | evidently intended | confidence | as-written member | corrected member |
|---|---|---|---|---|---|---|
| src/review/action.go:134 | `idList[:len(idList)-1]` slices with −1 when no full segment was read | a recording shorter than one second: the first read ends the stream | an empty selectable list | high (not executed) | Review.SelectionAsWritten, Review.ShortRecordingPanics | Review.Selection, Review.SelectableClipsHaveSuccessor |
| src/review/action.go:172-176 | `replay_segment` sets `Readiness = 3` even when `play_selected` refused | launch, then replay before opening a video; `tag_clip` then passes its guard and indexes `Loaded_Video[0]` in an empty slice | move to level 3 only when a clip is selected | high (not executed) | Review.Session.ReplaySegmentAsWritten, Review.ReplayBeforeLoadAsWritten | Review.Session.ReplaySegment, Review.ReplayBeforeLoad |
| apr/monitor/daemon.py:99 | the log text is `stderr + stderr` | ffmpeg printing "x" on stdout and nothing on stderr: nothing is logged | stdout followed by stderr | medium (not executed) | AprDaemon.ErrorLogAsWritten, AprDaemon.StdoutNeverLogged | AprDaemon.ErrorLog, AprDaemon.ErrorLogReportsOutput |
| ai/options.py:36-37 | `-V` selects the level name 'TRACE', unknown to `logging`, so `setLevel` raises | running with `-V` | a TRACE level registered below DEBUG, as the Go side has it | high (not executed) | AiOptions.Options.BootstrapAsWritten, AiOptions.TraceUnknownAsWritten | AiOptions.Options.Bootstrap, AiOptions.VerbosityLowersLevel |
