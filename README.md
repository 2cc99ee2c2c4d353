# ExpressRecorder: shipment-code detection and recording, modelled in Dafny

ExpressRecorder is a Windows desktop tool for packing stations. It watches a
camera and decodes barcodes from the frames. When a decoded text looks like a
shipment code of a known carrier (顺丰, 中通, 圆通, 申通, 韵达, 京东, 邮政,
极兔), it asks the operator to confirm the code and carrier, then records the
camera to an MP4 file through an `ffmpeg` child process. The file is named
after the date, the time, the code and the carrier.

This project models the decision logic of the program's main form
(`Program.cs`, class `MainForm`) and proves properties of it:

- `regex.dfy` (module `Regex`): the small fragment of regular expressions the
  program uses. A pattern is either `.*` or an anchored
  `^P1…Pk C{min,max}$`. There is a matcher, `IsMatch`, and its declarative
  meaning, `Denotes`.
- `text.dfy` (module `Text`): the .NET string operations the core relies on.
  These are `String.Trim()` with the exact `char.IsWhiteSpace` set,
  `StartsWith`, ordinal `Contains`, and decimal rendering, both plain and
  zero-padded as the `yyyy`/`MM`/`HH` format specifiers do it.
- `carriers.dfy` (module `Carriers`): the ordered carrier rule table
  `expressRules`, the plausibility filter `IsLikelyExpressCode`, and the
  classifier `IdentifyExpressCompany`. The classifier is a pure-digit
  pre-check followed by a first-match scan of the table.
- `formatting.dfy` (module `Formatting`): the recording's file name and
  path, the `ffmpeg` argument line, the elapsed-time overlay text and the
  barcode-label truncation. The argument line is built by a method that
  appends with `+=`, as the source does.
- `recorder.dfy` (module `Recorder`): the form's state. A `FormState` value
  holds the fields the core reads and writes. The pure step functions
  (`DetectStep`, `DialogStep`, `StartRecordingStep`, `StartFFmpegStep`,
  `StopStep`) say what each operation does to that state. The class
  `MainForm` has the same fields as mutable state, and its methods
  (`VideoSourceNewFrame`, `DetectBarcode`, `ConfirmDetection`,
  `StartRecording`, `StartFFmpegRecording`, `StopRecording`) update them in
  the order the source does. Each method is proved to produce exactly the
  step function's result, and the lemmas reason about the step functions.

What the model cannot observe is passed in as a value:

- the clock, as a `Moment`: a tick count for intervals and calendar fields
  for file names;
- the decoder's optional text;
- the operator's answer to the confirmation dialog;
- how launching the encoder went, as a `LaunchOutcome`: launched, failed
  before the process object existed, or failed in `Process.Start`.

Three behaviours of the code that are easy to assume otherwise:

- Only an accepted, plausible code restarts the two-second debounce by
  moving `lastBarcodeTime` (Program.cs:374). A failed or implausible decode
  is retried on the very next frame.
- `StartRecording` does not check whether a recording is already active
  (Program.cs:665-681). In the model, where events do not overlap, the
  gate's `!isRecording` test keeps that from happening on the detection
  path (`StartIgnoresActiveRecording`, `GateClosedChangesNothing`); in the
  program a Start click can slip in after the gate, see "Left out".
- After a failed `Process.Start` a stop throws; a second stop changes
  nothing more but throws again, until a later start launches the encoder;
  see Findings.

## Model

| member | source | states |
|---|---|---|
| `Regex.IsMatch` | Program.cs:656-660 | The matcher accepts a string exactly when the string has the pattern's prefix classes at the front and its repeated class, within the count bounds, for the rest. |
| `Text.TrimIsCore` | Program.cs:365 | `Trim` returns a contiguous slice of its input. Every character cut from either end is whitespace, and the result neither starts nor ends with whitespace. |
| `Text.TrimIdempotent` | Program.cs:365 | Trimming twice gives the same result as trimming once. |
| `Text.NatToDecimalRoundTrip` | Program.cs:700-701 | The decimal rendering of a non-negative integer reads back as that integer. It never has a superfluous leading zero, and its length is the number's digit count. |
| `Text.PadDigitsRoundTrip` | Program.cs:670 | A zero-padded field reads back as the number. It has exactly `width` characters whenever the number fits in `width` digits. |
| `Carriers.Companies` | Program.cs:50-61 | The label list offered to the dialog is the table's keys in table order, one per rule. No label occurs twice and the catch-all `其他` is last. |
| `Carriers.RuleTableWellFormed` | Program.cs:50-61 | No label occurs twice in the table, and the last rule is the catch-all `其他 → .*`. |
| `Carriers.IsLikelyExpressCode` | Program.cs:438-460 | The filter accepts exactly the strings of length 10 to 20 that contain only `[A-Za-z0-9]`. The eight carrier-format checks never change the answer. |
| `Carriers.ExampleTooShort` | Program.cs:441-442 | `random123` (length 9) is rejected. |
| `Carriers.FirstMatch` | Program.cs:656-660 | The scan returns the index of a rule that matches, with no earlier rule matching. When it returns nothing, no rule matches. |
| `Carriers.LetterPrefixBranchesUnreachable` | Program.cs:642-652 | For an all-digit code the pre-check never answers 顺丰, 圆通, 京东 or 极兔, because those branches test for a letter prefix. |
| `Carriers.ZhongTongAgrees` | Program.cs:646 | The pre-check's 14-digit `78` branch gives the same carrier as scanning the table. |
| `Carriers.ShenTongAgrees` | Program.cs:648 | The pre-check's 15-digit `77` branch gives the same carrier as scanning the table. |
| `Carriers.YunDaAgrees` | Program.cs:649 | The pre-check's 15-digit `3`/`4` branch gives the same carrier as scanning the table. |
| `Carriers.YouZhengAgrees` | Program.cs:651 | The pre-check's 13-digit `9` branch gives the same carrier as scanning the table. |
| `Carriers.PreCheckAgreesWithScan` | Program.cs:639-663 | For every input, the classifier gives the same answer as the first-match scan alone: the pure-digit pre-check never changes the result. |
| `Carriers.IdentifyIsFirstMatch` | Program.cs:639-663 | The classifier's answer is the label of a matching rule with no earlier rule matching, so it is always a key of the table. |
| `Carriers.EarliestMatchingRuleWins` | Program.cs:656-660 | A rule that matches is the answer if and only if no earlier rule matches. |
| `Carriers.CarrierPatternWins` | Program.cs:50-61 | A code matching carrier pattern `i` is classified as carrier `i`: no earlier carrier pattern of the table matches it. |
| `Carriers.CarrierPatternsDisjoint` | Program.cs:50-61 | No code matches two different carrier patterns of the table. |
| `Carriers.OtherOnlyWhenNoCarrierMatches` | Program.cs:60 | The answer is `其他` if and only if none of the eight carrier patterns matches. |
| `Carriers.ExampleShunFeng` | Program.cs:52 | `SF1234567890123` is classified as 顺丰. |
| `Carriers.ExampleYouZheng` | Program.cs:651 | `9123456789012` is classified as 邮政. |
| `Formatting.DatePartLayout` | Program.cs:670 | `yyyy-MM-dd` is ten characters with dashes at 4 and 7, and its fields read back as the year, month and day. |
| `Formatting.TimePartLayout` | Program.cs:670 | `HH-mm-ss` is eight characters, and its fields read back as the hour, minute and second. |
| `Formatting.FileNameLayout` | Program.cs:670 | The file name is the date, time, code, company and `.mp4`, separated by `_`, each at a fixed position; its length is 25 plus the code's and company's lengths. |
| `Formatting.FileNameDeterminesStamp` | Program.cs:670 | Two recordings get the same file name only when they were started in the same second. |
| `Formatting.RecordingPathUnderDirectory` | Program.cs:671 | The file name is never a rooted path. The full path is therefore the file name for an empty save directory, the directory followed by the name when the directory ends in `\`, `/` or `:`, and otherwise the directory, a `\` and the name. |
| `Formatting.ElapsedTextWhileRecording` | Program.cs:470-471 | While recording, the overlay's time has the form `hh:mm:ss` with hours below 24 and minutes and seconds below 60. Read back, it is the elapsed whole seconds modulo one day. |
| `Formatting.ElapsedTextWhenIdle` | Program.cs:470-471 | When not recording, the overlay's time is `00:00:00`. |
| `Formatting.TruncateLabelShape` | Program.cs:564-568 | A label of at most 20 characters is shown unchanged. A longer one is cut to its first 20 characters followed by `...`, so a label never exceeds 23 characters. |
| `Formatting.TruncateLabelIdempotent` | Program.cs:564-568 | Truncating an already truncated label changes nothing. |
| `Formatting.BuildFfmpegArguments` | Program.cs:700-721 | The `+=` builder produces the argument line, which is the input part, one rate-control suffix and the quoted file name. The line starts with the raw-video header and ends with the quoted output path. |
| `Formatting.RateControlSelection` | Program.cs:704-719 | Exactly one of the four suffixes is appended. Which one is decided by the first substring test that succeeds, in the order `nvenc`, `amf`, `qsv`, else libx264. |
| `Formatting.FfmpegArgumentsParts` | Program.cs:700-721 | The argument line splits at known offsets into the input part (header, size, rate, encoder), the rate-control suffix and the quoted path. |
| `Recorder.MainForm.constructor` | Program.cs:20-44 | A new form is idle: not recording, no process, no writer, no detection pending, and the last detection at `DateTime.MinValue`. |
| `Recorder.MainForm.StartFFmpegRecording` | Program.cs:689-755 | The new state is `StartFFmpegStep`. If setup fails, only `isRecording` is cleared. If `Process.Start` fails, the unstarted process object stays in the slot and `isRecording` is cleared. On success, the process slot and the writer are set. |
| `Recorder.MainForm.StartRecording` | Program.cs:665-686 | The new state is `StartRecordingStep`: nothing happens without a running camera; otherwise the encoder is launched for the path under the save directory and the form is marked as recording since the given time. |
| `Recorder.MainForm.StopRecording` | Program.cs:757-782 | The new state and the exception flag are `StopStep`. |
| `Recorder.MainForm.DetectBarcode` | Program.cs:341-380 | The new state and the dialog prompt are `DetectStep`. |
| `Recorder.MainForm.ConfirmDetection` | Program.cs:381-392 | The new state is `DialogStep`: a confirmation stores the edited code and company, starts a recording and clears the stored result; in every case the processing flag is lowered. |
| `Recorder.MainForm.VideoSourceNewFrame` | Program.cs:341-403 | The new state is `NewFrameStep`. The returned prompt is the one the dialog was opened with. A frame is written exactly when the form ends the callback recording with a writer. |
| `Recorder.StartWithoutVideoChangesNothing` | Program.cs:667 | A start without a running camera leaves the whole state unchanged. |
| `Recorder.StartMarksRecording` | Program.cs:665-681 | With the camera running, every start ends with `isRecording` true and the start time set, even when the launch failed. A launched encoder writes frames and receives an argument line that starts with the raw-video header and ends with the quoted recording path. |
| `Recorder.FailedLaunchWritesNoFrames` | Program.cs:403 | After a start whose launch fails, frames are written only when a writer from an earlier recording is still open. From a form without a writer, a failed launch never writes a frame. |
| `Recorder.StartIgnoresActiveRecording` | Program.cs:665-681 | A start gives the same result whether or not a recording is already active. A successful launch replaces whatever process the slot held. |
| `Recorder.OverlayShowsTimeSinceStart` | Program.cs:470-471 | After a start at `at`, the overlay's time reads back as the whole seconds since `at`, modulo one day. After the following stop it shows `00:00:00`. |
| `Recorder.StopEffect` | Program.cs:757-777 | A stop always clears `isRecording` and the writer. It throws exactly when the slot holds a never-started process, which then stays in the slot; otherwise the slot is released. No other field changes. |
| `Recorder.StopIdempotent` | Program.cs:757-777 | A second stop ends exactly like the first. A stop with nothing started changes nothing and does not throw. |
| `Recorder.StartThenStop` | Program.cs:665-777 | Starting and then stopping from an idle form returns to idle, leaving only the start time behind. The stop throws if and only if `Process.Start` had failed. |
| `Recorder.StopAfterFailedSpawnThrows` | Program.cs:734-776 | As written: after a start whose `Process.Start` fails, the form is recording with an unstarted process object, and every later stop throws with that object still in the slot, until a later start launches the encoder and replaces it. |
| `Recorder.StopCorrectedReleases` | Program.cs:757-777 | The intended stop always leaves the form idle and agrees with the stop as written whenever that one does not throw. A second call changes nothing. |
| `Recorder.StopCorrectedAfterFailedSpawn` | Program.cs:734-776 | With the intended stop, a start whose `Process.Start` failed can be stopped back to idle. |
| `Recorder.GateClosedChangesNothing` | Program.cs:341 | Unless the form is not recording, no detection is pending and more than two seconds have passed since the last detection, a frame changes nothing and opens no dialog. |
| `Recorder.DetectOutcomes` | Program.cs:363-399 | Inside the gate there are three cases. A failed or empty decode only clears the stored result. An implausible code changes nothing. A plausible code is stored with the current time, and the processing flag is raised exactly when a dialog is opened. |
| `Recorder.PromptOnlyForKnownCarrier` | Program.cs:368-384 | The dialog is opened if and only if a plausible code of a carrier other than `其他` is decoded inside the gate. It shows the trimmed code and its classification, which is a key of the table. |
| `Recorder.LastDetectionMovesOnlyOnPlausibleCode` | Program.cs:363-398 | `lastBarcodeTime` moves only when a plausible code is decoded inside the gate, and then to the current time. The stored result takes a new value only in that case, and then it is the decoded text. |
| `Recorder.DialogKeepsDetection` | Program.cs:381-392 | The dialog's answer leaves the detection time alone, either keeps or clears the stored result, and lowers the processing flag. |
| `Recorder.DebounceAfterDetection` | Program.cs:341-374 | Once a code has been accepted at time `now`, no decode is attempted at any time up to two seconds later. |
| `Recorder.DialogOutcome` | Program.cs:381-392 | The processing flag is down when the callback returns. A cancellation only lowers it. A confirmation stores the edited code and company, clears the stored result and, with the camera running, starts a recording, which closes the gate for every later frame until a stop. |
| `Recorder.RunKeepsConsistent` | Program.cs:341-403 | Along any sequence of frames, start clicks (Program.cs:216-227) and stops (Program.cs:230-233, 789-792), a writer is open only while recording and the processing flag is down between events, events being modelled as not overlapping. |
| `Recorder.FailedDetectionLaunchWritesNoFrames` | Program.cs:381-403 | In a `Consistent` state (a writer is open only while recording, and the processing flag is down) with the detection gate open, a frame that reaches the decoder and whose confirmed start fails to launch the encoder is not written. |
| `Recorder.ReachableFailedDetectionLaunchWritesNoFrames` | Program.cs:381-403 | In every state reached from a freshly constructed form, the processing flag is down, and a detection whose start fails to launch writes no frame. |

## Left out

- User interface: layout, combo boxes, buttons (Program.cs:75-244) and the `ExpressDialog` form (Program.cs:817-853). The dialog's answer is a parameter. The Start and Stop buttons appear only as the `ManualStart` and `Stop` events of `Run`; the Start button's empty-text check and the enabling and disabling of the buttons are not modelled, so `Run` allows more event sequences than the form does.
- Opening and closing the camera preview. `videoRunning` is fixed per form; the consistency invariant does not depend on it.
- Camera enumeration and capability parsing (Program.cs:158-200, 247-271). These are device I/O; the frame size and rate are fields set at construction.
- Encoder probing by file-system checks (Program.cs:274-320). The encoder id is a field.
- Barcode decoding with ZXing (Program.cs:344-361). This is a foreign library; its result is an optional text. The result's corner points, and the polygon drawn from them, are not modelled.
- The frame lock, the display timer and the `Invoke` hand-off to the UI thread (Program.cs:327-338, 491-594, 381). The model runs the dialog block synchronously inside the frame callback, as `Invoke` does.
- The camera callback and the UI-thread handlers are modelled as events that do not overlap. In the program they run on different threads and nothing guards `isRecording` or `isProcessingBarcode`. A Start click handled between the gate test (Program.cs:341) and the dialog (Program.cs:377-388) starts a recording, and the confirmed dialog then starts a second one, which replaces `ffmpegProcess` (Program.cs:734) and `ffmpegWriter` (Program.cs:744) without closing the first encoder. Likewise a Stop click can be handled while the processing flag is raised (between Program.cs:379 and the end of the `Invoke` block). `RunKeepsConsistent` and the gate-based guarantees hold only for non-overlapping events.
- Bitmap cloning, `LockBits`, `Marshal.Copy` and the `BinaryWriter` write (Program.cs:408-428). `VideoSourceNewFrame` returns whether a write is attempted; write errors are caught and change no state.
- Process I/O: `Process.Start`, `WaitForExit(5000)`, `Close`, and the stderr forwarding. Launch results are the `LaunchOutcome` parameter, and the process slot keeps only its argument line and whether it started. Closing a writer whose pipe is already broken can also throw; that case is not modelled.
- Floating-point code: contrast colour, image scaling and the bounding-box extent (Program.cs:597-637, 538-560).
- The clock. Each group of `DateTime.Now` reads that the source makes within one operation is one `Moment`. Line 670 reads the clock twice, and a second boundary between the two reads is not modelled.
- The overlay's current-time line and the rest of `AddWatermarkToFrame`. These are drawing code; only the elapsed-time text and the label truncation are modelled.
- `Path.Combine`'s checks for invalid path characters and its exceptions. `CombinePath` models the Windows joining rules only.
- .NET regular-expression details: `\d` also matching non-ASCII decimal digits, and `$` also matching before a final newline. `\d` is `[0-9]` and `$` is the end of the string; trimming and the ASCII filter make the difference unobservable on the detection path.
- Culture-sensitive `StartsWith`. The pre-check only compares ASCII letters and digits, where culture does not matter.
- Exceptions outside the modelled ones. One example is `videoSource.VideoResolution` being null in `StartRecording`. An exception escaping the `Invoke` block would leave `isProcessingBarcode` raised.
- `.NET Dictionary` enumeration order. The table is scanned in insertion order, which is what the code relies on.

## Findings

| source | as written | input that shows it | evidently intended | confidence | as-written member | corrected member |
|---|---|---|---|---|---|---|
| Program.cs:734-776 | When `Process.Start()` throws, `ffmpegProcess` already holds the new, never-started `Process` object and `isRecording` ends up true. `StopRecording` then calls `ffmpegProcess.HasExited`, which throws `InvalidOperationException` for a process that was never started. The slot is not released, so every later stop throws too, until a later start launches the encoder and replaces the object. | Start a recording with `ffmpeg` missing from the path, then press Stop. | Stopping releases the process slot whatever it holds and leaves the form idle. | not executed | `Recorder.StopAfterFailedSpawnThrows` | `Recorder.StopCorrectedReleases` |
