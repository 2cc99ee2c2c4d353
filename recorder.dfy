/** The recording and detection state of the recorder's main form: the
    detection gate run on every camera frame, the confirmation hand-off, the
    start and stop of a recording and the guard on frame writes.

    Each operation is written twice: as a step function on a `FormState`
    value, which the lemmas below reason about, and as a method of the
    `MainForm` class that updates the form's fields in the order the source
    does and promises the step function's result.

    What the model cannot see is passed in: the clock (`Moment`), the
    decoder's text, the user's answer to the confirmation dialog and how
    launching the encoder process went (`LaunchOutcome`). */
module Recorder {
  import opened Wrappers
  import opened Text
  import opened Carriers
  import opened Formatting

  /** One reading of `DateTime.Now`: its tick count (100 ns units since
      0001-01-01), used for intervals, and its calendar fields, used in file
      names. */
  datatype Moment = Moment(ticks: int, stamp: Stamp)

  /** `DateTime.MinValue`, the initial time of the last detection. */
  const MinValueTicks: int := 0

  /** A decode is attempted only strictly more than two seconds after the
      last accepted detection. */
  const DebounceTicks: int := 2 * TicksPerSecond

  /** What `ffmpegProcess` refers to. */
  datatype ProcessSlot =
    | NoProcess
    | Unstarted(arguments: string)   // a Process object whose Start() threw
    | Spawned(arguments: string)     // a running (or exited, not yet closed) encoder

  /** How launching the encoder went. */
  datatype LaunchOutcome =
    | Launched      // the process started and its input stream is wrapped in a writer
    | SetupFailed   // an exception before the process object was created (e.g. creating the directory)
    | SpawnFailed   // Process.Start threw after the process object was stored

  /** The user's answer to the confirmation dialog: the (possibly edited)
      code and company, or a cancellation. */
  datatype DialogResponse = Confirmed(code: string, company: string) | Cancelled

  /** What the confirmation dialog is opened with. */
  datatype Prompt = Prompt(code: string, company: string)

  /** The fields of the form the core reads and writes.  `lastBarcodeResult`
      keeps the decoded text of the stored detection (its corner points are
      not modelled); `hasWriter` stands for `ffmpegWriter != null`. */
  datatype FormState = FormState(
    videoRunning: bool,
    frameWidth: int,
    frameHeight: int,
    frameRate: int,
    saveDirectory: string,
    selectedEncoder: string,
    isRecording: bool,
    isProcessingBarcode: bool,
    lastBarcodeTime: int,
    lastBarcodeResult: Option<string>,
    selectedCode: string,
    selectedCompany: string,
    recordingStartTime: int,
    ffmpegProcess: ProcessSlot,
    hasWriter: bool)

  /** The state of a freshly constructed form whose camera is configured as
      given. */
  function InitialState(saveDirectory: string, selectedEncoder: string, videoRunning: bool,
                        frameWidth: int, frameHeight: int, frameRate: int): FormState
  {
    FormState(videoRunning, frameWidth, frameHeight, frameRate, saveDirectory, selectedEncoder,
              false, false, MinValueTicks, None, "", "", MinValueTicks, NoProcess, false)
  }

  // ---------------------------------------------------------------------
  // Recording session

  /** Launching the encoder for `fileName`. */
  function StartFFmpegStep(s: FormState, fileName: string, width: int, height: int, frameRate: int,
                           launch: LaunchOutcome): FormState
  {
    var arguments := FfmpegArguments(fileName, width, height, frameRate, s.selectedEncoder);
    match launch
    case SetupFailed => s.(isRecording := false)
    case SpawnFailed => s.(ffmpegProcess := Unstarted(arguments), isRecording := false)
    case Launched => s.(ffmpegProcess := Spawned(arguments), hasWriter := true)
  }

  /** The full path a recording started at `at` is written to. */
  function RecordingPath(s: FormState, code: string, company: string, at: Moment): string {
    CombinePath(s.saveDirectory, RecordingFileName(at.stamp, code, company))
  }

  /** Starting a recording: nothing happens unless the camera is running;
      otherwise the encoder is launched and the form is marked as recording
      whatever the launch did. */
  function StartRecordingStep(s: FormState, code: string, company: string, at: Moment,
                              launch: LaunchOutcome): FormState
  {
    if !s.videoRunning then s
    else
      StartFFmpegStep(s, RecordingPath(s, code, company, at), s.frameWidth, s.frameHeight, s.frameRate, launch)
        .(recordingStartTime := at.ticks, isRecording := true)
  }

  /** Stopping a recording, as written.  The second component says whether
      the call ends in an exception: asking `HasExited` of a process object
      whose start failed throws, after the recording flag and the writer
      have been cleared but before the process slot is. */
  function StopStep(s: FormState): (FormState, bool)
  {
    var cleared := s.(isRecording := false, hasWriter := false);
    match s.ffmpegProcess
    case NoProcess => (cleared, false)
    case Unstarted(_) => (cleared, true)
    case Spawned(_) => (cleared.(ffmpegProcess := NoProcess), false)
  }

  /** Stopping a recording as intended: the process slot is released
      whatever it holds. */
  function StopCorrectedStep(s: FormState): FormState
  {
    s.(isRecording := false, hasWriter := false, ffmpegProcess := NoProcess)
  }

  /** A frame is handed to the encoder only while recording with a writer. */
  predicate WritesFrame(s: FormState) {
    s.isRecording && s.hasWriter
  }

  // ---------------------------------------------------------------------
  // Detection

  /** The gate in front of the decoder. */
  predicate DecodeAttempted(s: FormState, now: int) {
    !s.isRecording && !s.isProcessingBarcode && now - s.lastBarcodeTime > DebounceTicks
  }

  /** The detection step up to the confirmation dialog: the new state and
      the prompt the dialog is opened with, if any. */
  function DetectStep(s: FormState, now: int, decoded: Option<string>): (FormState, Option<Prompt>)
  {
    if !DecodeAttempted(s, now) then (s, None)
    else if decoded.None? || decoded.value == "" then (s.(lastBarcodeResult := None), None)
    else
      var code := Trim(decoded.value);
      if !IsLikelyExpressCode(code) then (s, None)
      else
        var company := IdentifyExpressCompany(code);
        var stored := s.(lastBarcodeResult := decoded, lastBarcodeTime := now);
        if company != Other then (stored.(isProcessingBarcode := true), Some(Prompt(code, company)))
        else (stored, None)
  }

  /** What happens when the confirmation dialog returns. */
  function DialogStep(s: FormState, response: DialogResponse, at: Moment, launch: LaunchOutcome): FormState
  {
    match response
    case Cancelled => s.(isProcessingBarcode := false)
    case Confirmed(code, company) =>
      StartRecordingStep(s.(selectedCode := code, selectedCompany := company), code, company, at, launch)
        .(lastBarcodeResult := None, isProcessingBarcode := false)
  }

  /** The non-I/O part of the frame callback: detection and, when a prompt
      was raised, the dialog's answer. */
  function NewFrameStep(s: FormState, now: Moment, decoded: Option<string>, response: DialogResponse,
                        responseAt: Moment, launch: LaunchOutcome): FormState
  {
    var detected := DetectStep(s, now.ticks, decoded);
    if detected.1.Some? then DialogStep(detected.0, response, responseAt, launch) else detected.0
  }

  // ---------------------------------------------------------------------
  // Properties of the recording session

  /** Starting without a running camera changes nothing. */
  lemma StartWithoutVideoChangesNothing(s: FormState, code: string, company: string, at: Moment,
                                        launch: LaunchOutcome)
    requires !s.videoRunning
    ensures StartRecordingStep(s, code, company, at, launch) == s
  {
  }

  /** With the camera running, a start always ends with the form marked as
      recording since `at`, whatever the launch did; a launched encoder is
      fed through a fresh writer, receives the argument line for the
      recording's path. */
  lemma StartMarksRecording(s: FormState, code: string, company: string, at: Moment, launch: LaunchOutcome)
    requires s.videoRunning
    ensures var r := StartRecordingStep(s, code, company, at, launch);
      && r.isRecording && r.recordingStartTime == at.ticks
      && (launch == Launched ==>
            && WritesFrame(r)
            && r.ffmpegProcess.Spawned?
            && StartsWith(r.ffmpegProcess.arguments, RawVideoHeader)
            && EndsWith(r.ffmpegProcess.arguments, Quoted(RecordingPath(s, code, company, at))))
  {
    if launch == Launched {
      var path := RecordingPath(s, code, company, at);
      FfmpegArgumentsParts(path, s.frameWidth, s.frameHeight, s.frameRate, s.selectedEncoder);
    }
  }

  /** A start whose launch fails leaves nothing to write frames to, unless
      a writer from an earlier recording is still open. */
  lemma FailedLaunchWritesNoFrames(s: FormState, code: string, company: string, at: Moment,
                                   launch: LaunchOutcome)
    requires launch != Launched
    ensures !s.hasWriter ==> !WritesFrame(StartRecordingStep(s, code, company, at, launch))
    ensures s.videoRunning && s.hasWriter ==> WritesFrame(StartRecordingStep(s, code, company, at, launch))
  {
  }

  /** A start does not look at whether a recording is already active: with
      the camera running the outcome is the same either way, and a successful launch replaces
      whatever process the slot held. */
  lemma StartIgnoresActiveRecording(s: FormState, code: string, company: string, at: Moment,
                                    launch: LaunchOutcome)
    ensures s.videoRunning ==>
              StartRecordingStep(s.(isRecording := true), code, company, at, launch)
                == StartRecordingStep(s.(isRecording := false), code, company, at, launch)
    ensures s.videoRunning && launch == Launched ==>
              StartRecordingStep(s, code, company, at, launch).ffmpegProcess
                == Spawned(FfmpegArguments(RecordingPath(s, code, company, at), s.frameWidth, s.frameHeight,
                                           s.frameRate, s.selectedEncoder))
  {
  }

  /** The overlay's elapsed-time line after a start reads back as the whole
      seconds since the start (modulo a day), whether or not the launch
      succeeded; after a stop it shows `00:00:00`. */
  lemma OverlayShowsTimeSinceStart(s: FormState, code: string, company: string, at: Moment,
                                   launch: LaunchOutcome, now: int)
    requires s.videoRunning && now >= at.ticks
    ensures var r := StartRecordingStep(s, code, company, at, launch);
      var e := ElapsedText(r.isRecording, now, r.recordingStartTime);
      && |e| == 8 && AllDigits(e[0..2]) && AllDigits(e[3..5]) && AllDigits(e[6..8])
      && DecimalValue(e[0..2]) * 3600 + DecimalValue(e[3..5]) * 60 + DecimalValue(e[6..8])
         == (now - at.ticks) / TicksPerSecond % 86400
      && ElapsedText(StopStep(r).0.isRecording, now, StopStep(r).0.recordingStartTime) == "00:00:00"
  {
    var r := StartRecordingStep(s, code, company, at, launch);
    assert r.isRecording && r.recordingStartTime == at.ticks by {
      StartMarksRecording(s, code, company, at, launch);
    }
    ElapsedTextWhileRecording(now, at.ticks);
    StopEffect(r);
  }

  /** Stopping ends the recording and drops the writer.  It ends in an
      exception exactly when the slot holds a process object that never
      started, and that object then stays in the slot; otherwise the slot
      is released.  No other field changes. */
  lemma StopEffect(s: FormState)
    ensures var (r, thrown) := StopStep(s);
      && !r.isRecording && !r.hasWriter && !WritesFrame(r)
      && (thrown <==> s.ffmpegProcess.Unstarted?)
      && r.ffmpegProcess == (if thrown then s.ffmpegProcess else NoProcess)
      && r == s.(isRecording := false, hasWriter := false, ffmpegProcess := r.ffmpegProcess)
  {
  }

  /** A second stop ends exactly like the first, and a stop with nothing
      started changes nothing. */
  lemma StopIdempotent(s: FormState)
    ensures StopStep(StopStep(s).0) == StopStep(s)
    ensures !s.isRecording && !s.hasWriter && s.ffmpegProcess == NoProcess ==> StopStep(s) == (s, false)
  {
  }

  /** Starting and then stopping a recording from an idle form returns it
      to idle (only the start time is left behind), unless the process
      object was created but could not be started. */
  lemma StartThenStop(s: FormState, code: string, company: string, at: Moment, launch: LaunchOutcome)
    requires s.videoRunning && !s.isRecording && !s.hasWriter && s.ffmpegProcess == NoProcess
    ensures var (r, thrown) := StopStep(StartRecordingStep(s, code, company, at, launch));
      && (thrown <==> launch == SpawnFailed)
      && (!thrown ==> r == s.(recordingStartTime := at.ticks))
  {
  }

  /** As written: a start whose `Process.Start` fails leaves the form
      recording with an unstarted process object, and every stop then ends
      in an exception with that object still in the slot, until a later
      start launches the encoder and replaces it. */
  lemma StopAfterFailedSpawnThrows(s: FormState, code: string, company: string, at: Moment,
                                   code2: string, company2: string, at2: Moment)
    requires s.videoRunning
    ensures var started := StartRecordingStep(s, code, company, at, SpawnFailed);
      var (stopped, thrown) := StopStep(started);
      && started.isRecording && started.ffmpegProcess.Unstarted?
      && thrown && stopped.ffmpegProcess == started.ffmpegProcess
      && StopStep(stopped).1
      && !StopStep(StartRecordingStep(stopped, code2, company2, at2, Launched)).1
  {
  }

  /** The intended stop: it leaves the form idle whatever the slot held,
      agrees with the stop as written whenever that one does not throw, and
      a second call changes nothing. */
  lemma StopCorrectedReleases(s: FormState)
    ensures var r := StopCorrectedStep(s);
      && !r.isRecording && !r.hasWriter && r.ffmpegProcess == NoProcess
      && r == s.(isRecording := false, hasWriter := false, ffmpegProcess := NoProcess)
      && (!StopStep(s).1 ==> StopStep(s).0 == r)
      && StopCorrectedStep(r) == r
  {
  }

  /** With the corrected stop, a failed start is recoverable: stopping it
      returns the form to idle. */
  lemma StopCorrectedAfterFailedSpawn(s: FormState, code: string, company: string, at: Moment)
    requires s.videoRunning && !s.isRecording && !s.hasWriter && s.ffmpegProcess == NoProcess
    ensures StopCorrectedStep(StartRecordingStep(s, code, company, at, SpawnFailed)) == s.(recordingStartTime := at.ticks)
  {
  }

  // ---------------------------------------------------------------------
  // Properties of detection

  /** The decoder produced a non-empty text whose trimmed form passes the
      plausibility filter. */
  predicate PlausibleDecode(decoded: Option<string>) {
    decoded.Some? && decoded.value != "" && IsLikelyExpressCode(Trim(decoded.value))
  }

  /** Outside the gate a frame changes nothing and opens no dialog; in
      particular nothing is detected while recording. */
  lemma GateClosedChangesNothing(s: FormState, now: Moment, decoded: Option<string>, response: DialogResponse,
                                 responseAt: Moment, launch: LaunchOutcome)
    requires !DecodeAttempted(s, now.ticks)
    ensures NewFrameStep(s, now, decoded, response, responseAt, launch) == s
    ensures DetectStep(s, now.ticks, decoded).1 == None
  {
  }

  /** A detection attempt: a failed or empty decode clears the stored result
      and nothing else; an implausible one changes nothing; a plausible one
      is stored with its time, and only it can raise the processing flag. */
  lemma DetectOutcomes(s: FormState, now: int, decoded: Option<string>)
    requires DecodeAttempted(s, now)
    ensures var (r, prompt) := DetectStep(s, now, decoded);
      && (decoded.None? || decoded.value == "" ==> r == s.(lastBarcodeResult := None) && prompt == None)
      && (decoded.Some? && decoded.value != "" && !PlausibleDecode(decoded) ==> r == s && prompt == None)
      && (PlausibleDecode(decoded) ==>
            && r == s.(lastBarcodeResult := decoded, lastBarcodeTime := now, isProcessingBarcode := r.isProcessingBarcode)
            && (r.isProcessingBarcode <==> prompt.Some?))
  {
  }

  /** The dialog is opened exactly for a plausible code of a carrier other
      than 其他, with the trimmed code and a key of the rule table. */
  lemma PromptOnlyForKnownCarrier(s: FormState, now: int, decoded: Option<string>)
    ensures var prompt := DetectStep(s, now, decoded).1;
      && (prompt.Some? <==> DecodeAttempted(s, now) && PlausibleDecode(decoded)
                            && IdentifyExpressCompany(Trim(decoded.value)) != Other)
      && (prompt.Some? ==>
            && prompt.value.code == Trim(decoded.value)
            && IsLikelyExpressCode(prompt.value.code)
            && prompt.value.company == IdentifyExpressCompany(prompt.value.code)
            && prompt.value.company in Companies()
            && prompt.value.company != Other)
  {
    if DetectStep(s, now, decoded).1.Some? {
      IdentifyIsFirstMatch(Trim(decoded.value));
    }
  }

  /** The time of the last detection moves only when a plausible code is
      decoded inside the gate, and then to the current time; the stored
      result becomes a new text only in that case too. */
  lemma LastDetectionMovesOnlyOnPlausibleCode(s: FormState, now: Moment, decoded: Option<string>,
                                             response: DialogResponse, responseAt: Moment, launch: LaunchOutcome)
    ensures var r := NewFrameStep(s, now, decoded, response, responseAt, launch);
      && (r.lastBarcodeTime != s.lastBarcodeTime ==> DecodeAttempted(s, now.ticks) && PlausibleDecode(decoded))
      && (DecodeAttempted(s, now.ticks) && PlausibleDecode(decoded) ==> r.lastBarcodeTime == now.ticks)
      && (r.lastBarcodeResult.Some? && r.lastBarcodeResult != s.lastBarcodeResult ==>
            DecodeAttempted(s, now.ticks) && PlausibleDecode(decoded) && r.lastBarcodeResult == decoded)
  {
    var detected := DetectStep(s, now.ticks, decoded);
    if detected.1.Some? {
      DialogKeepsDetection(detected.0, response, responseAt, launch);
    }
  }

  /** The dialog's answer leaves the time of the last detection alone and
      either keeps or clears the stored result. */
  lemma DialogKeepsDetection(s: FormState, response: DialogResponse, at: Moment, launch: LaunchOutcome)
    ensures var r := DialogStep(s, response, at, launch);
      && r.lastBarcodeTime == s.lastBarcodeTime
      && (r.lastBarcodeResult == s.lastBarcodeResult || r.lastBarcodeResult == None)
      && !r.isProcessingBarcode
  {
  }

  /** Once a code has been accepted, no further decode is attempted for
      the next two seconds. */
  lemma DebounceAfterDetection(s: FormState, now: Moment, decoded: Option<string>, response: DialogResponse,
                               responseAt: Moment, launch: LaunchOutcome, later: int)
    requires DecodeAttempted(s, now.ticks) && PlausibleDecode(decoded)
    requires later - now.ticks <= DebounceTicks
    ensures !DecodeAttempted(NewFrameStep(s, now, decoded, response, responseAt, launch), later)
  {
    LastDetectionMovesOnlyOnPlausibleCode(s, now, decoded, response, responseAt, launch);
  }

  /** The processing flag is down again when the frame callback returns,
      and the dialog's answer decides what follows: a cancellation only
      lowers the flag, a confirmation records the edited code and company,
      clears the stored result and (with the camera running) starts a
      recording, which closes the gate for later frames. */
  lemma DialogOutcome(s: FormState, now: Moment, decoded: Option<string>, response: DialogResponse,
                      responseAt: Moment, launch: LaunchOutcome)
    requires !s.isProcessingBarcode
    ensures var (detected, prompt) := DetectStep(s, now.ticks, decoded);
      var r := NewFrameStep(s, now, decoded, response, responseAt, launch);
      && !r.isProcessingBarcode
      && (prompt.Some? && response.Cancelled? ==> r == detected.(isProcessingBarcode := false))
      && (prompt.Some? && response.Confirmed? ==>
            && r.selectedCode == response.code && r.selectedCompany == response.company
            && r.lastBarcodeResult == None
            && (s.videoRunning ==> r.isRecording && forall t :: !DecodeAttempted(r, t)))
  {
  }

  // ---------------------------------------------------------------------
  // Reachable states

  /** What can happen to the form: a camera frame (with the dialog answer
      and launch outcome it would meet), a click on the start button with
      the text box's code and the selected company, or a stop (the stop
      button or closing the form). */
  datatype Event =
    | Frame(now: Moment, decoded: Option<string>, response: DialogResponse, responseAt: Moment, launch: LaunchOutcome)
    | ManualStart(code: string, company: string, at: Moment, launch: LaunchOutcome)
    | Stop

  function Apply(s: FormState, e: Event): FormState {
    match e
    case Frame(now, decoded, response, responseAt, launch) => NewFrameStep(s, now, decoded, response, responseAt, launch)
    case ManualStart(code, company, at, launch) => StartRecordingStep(s, code, company, at, launch)
    case Stop => StopStep(s).0
  }

  /** The state after the events, in order. */
  function Run(s: FormState, events: seq<Event>): FormState
    decreases |events|
  {
    if events == [] then s else Run(Apply(s, events[0]), events[1..])
  }

  /** What holds between events: a writer is open only while recording,
      and the processing flag is down (it is raised and lowered within one
      frame callback). */
  predicate Consistent(s: FormState) {
    (s.hasWriter ==> s.isRecording) && !s.isProcessingBarcode
  }

  lemma InitialConsistent(saveDirectory: string, selectedEncoder: string, videoRunning: bool,
                          frameWidth: int, frameHeight: int, frameRate: int)
    ensures Consistent(InitialState(saveDirectory, selectedEncoder, videoRunning, frameWidth, frameHeight, frameRate))
  {
  }

  lemma StartKeepsConsistent(s: FormState, code: string, company: string, at: Moment, launch: LaunchOutcome)
    requires Consistent(s)
    ensures Consistent(StartRecordingStep(s, code, company, at, launch))
  {
  }

  lemma StopKeepsConsistent(s: FormState)
    requires Consistent(s)
    ensures Consistent(StopStep(s).0)
  {
  }

  lemma NewFrameKeepsConsistent(s: FormState, now: Moment, decoded: Option<string>, response: DialogResponse,
                                responseAt: Moment, launch: LaunchOutcome)
    requires Consistent(s)
    ensures Consistent(NewFrameStep(s, now, decoded, response, responseAt, launch))
  {
    var detected := DetectStep(s, now.ticks, decoded);
    if detected.1.Some? {
      DialogKeepsDetection(detected.0, response, responseAt, launch);
    }
  }

  /** Every state the form can reach from its initial state is consistent. */
  lemma {:induction false} RunKeepsConsistent(s: FormState, events: seq<Event>)
    requires Consistent(s)
    ensures Consistent(Run(s, events))
    decreases |events|
  {
    if events != [] {
      match events[0] {
        case Frame(now, decoded, response, responseAt, launch) =>
          NewFrameKeepsConsistent(s, now, decoded, response, responseAt, launch);
        case ManualStart(code, company, at, launch) =>
          StartKeepsConsistent(s, code, company, at, launch);
        case Stop =>
          StopKeepsConsistent(s);
      }
      RunKeepsConsistent(Apply(s, events[0]), events[1..]);
    }
  }

  /** In a consistent state a frame that reaches the decoder finds no writer
      open, so if the confirmed start then fails to launch the encoder, the
      frame is not written. */
  lemma FailedDetectionLaunchWritesNoFrames(s: FormState, now: Moment, decoded: Option<string>,
                                            response: DialogResponse, responseAt: Moment, launch: LaunchOutcome)
    requires Consistent(s) && DecodeAttempted(s, now.ticks) && launch != Launched
    ensures !WritesFrame(NewFrameStep(s, now, decoded, response, responseAt, launch))
  {
    var detected := DetectStep(s, now.ticks, decoded);
    assert !detected.0.hasWriter;
    if detected.1.Some? && response.Confirmed? {
      FailedLaunchWritesNoFrames(detected.0.(selectedCode := response.code, selectedCompany := response.company),
                                 response.code, response.company, responseAt, launch);
    }
  }

  /** The same for every state reached from a freshly constructed form; in
      such a state the processing flag is also always down, as the dialog's
      outcome above assumes. */
  lemma ReachableFailedDetectionLaunchWritesNoFrames(
    saveDirectory: string, selectedEncoder: string, videoRunning: bool,
    frameWidth: int, frameHeight: int, frameRate: int, events: seq<Event>,
    now: Moment, decoded: Option<string>, response: DialogResponse, responseAt: Moment, launch: LaunchOutcome)
    requires var s := Run(InitialState(saveDirectory, selectedEncoder, videoRunning, frameWidth, frameHeight, frameRate), events);
      DecodeAttempted(s, now.ticks) && launch != Launched
    ensures var s := Run(InitialState(saveDirectory, selectedEncoder, videoRunning, frameWidth, frameHeight, frameRate), events);
      && !s.isProcessingBarcode
      && !WritesFrame(NewFrameStep(s, now, decoded, response, responseAt, launch))
  {
    var s0 := InitialState(saveDirectory, selectedEncoder, videoRunning, frameWidth, frameHeight, frameRate);
    InitialConsistent(saveDirectory, selectedEncoder, videoRunning, frameWidth, frameHeight, frameRate);
    RunKeepsConsistent(s0, events);
    FailedDetectionLaunchWritesNoFrames(Run(s0, events), now, decoded, response, responseAt, launch);
  }

  // ---------------------------------------------------------------------
  // The form

  class MainForm {
    var videoRunning: bool
    var frameWidth: int
    var frameHeight: int
    var frameRate: int
    var saveDirectory: string
    var selectedEncoder: string
    var isRecording: bool
    var isProcessingBarcode: bool
    var lastBarcodeTime: int
    var lastBarcodeResult: Option<string>
    var selectedCode: string
    var selectedCompany: string
    var recordingStartTime: int
    var ffmpegProcess: ProcessSlot
    var hasWriter: bool

    function State(): FormState
      reads this
    {
      FormState(videoRunning, frameWidth, frameHeight, frameRate, saveDirectory, selectedEncoder,
                isRecording, isProcessingBarcode, lastBarcodeTime, lastBarcodeResult,
                selectedCode, selectedCompany, recordingStartTime, ffmpegProcess, hasWriter)
    }

    constructor (saveDirectory: string, selectedEncoder: string, videoRunning: bool,
                 frameWidth: int, frameHeight: int, frameRate: int)
      ensures State() == InitialState(saveDirectory, selectedEncoder, videoRunning, frameWidth, frameHeight, frameRate)
    {
      this.videoRunning := videoRunning;
      this.frameWidth := frameWidth;
      this.frameHeight := frameHeight;
      this.frameRate := frameRate;
      this.saveDirectory := saveDirectory;
      this.selectedEncoder := selectedEncoder;
      isRecording := false;
      isProcessingBarcode := false;
      lastBarcodeTime := MinValueTicks;
      lastBarcodeResult := None;
      selectedCode := "";
      selectedCompany := "";
      recordingStartTime := MinValueTicks;
      ffmpegProcess := NoProcess;
      hasWriter := false;
    }

    method StartFFmpegRecording(fileName: string, width: int, height: int, frameRate: int, launch: LaunchOutcome)
      modifies this
      ensures State() == StartFFmpegStep(old(State()), fileName, width, height, frameRate, launch)
    {
      if launch == SetupFailed {
        isRecording := false;
        return;
      }
      var arguments := BuildFfmpegArguments(fileName, width, height, frameRate, selectedEncoder);
      ffmpegProcess := Unstarted(arguments);
      if launch == SpawnFailed {
        isRecording := false;
        return;
      }
      ffmpegProcess := Spawned(arguments);
      hasWriter := true;
    }

    method StartRecording(code: string, company: string, at: Moment, launch: LaunchOutcome)
      modifies this
      ensures State() == StartRecordingStep(old(State()), code, company, at, launch)
    {
      if !videoRunning {
        return;
      }
      var fileName := RecordingFileName(at.stamp, code, company);
      var fullPath := CombinePath(saveDirectory, fileName);
      StartFFmpegRecording(fullPath, frameWidth, frameHeight, frameRate, launch);
      recordingStartTime := at.ticks;
      isRecording := true;
    }

    /** Returns whether the call ends in an exception. */
    method StopRecording() returns (thrown: bool)
      modifies this
      ensures (State(), thrown) == StopStep(old(State()))
    {
      isRecording := false;
      if hasWriter {
        hasWriter := false;
      }
      thrown := false;
      if ffmpegProcess != NoProcess {
        if ffmpegProcess.Unstarted? {
          thrown := true;
          return;
        }
        ffmpegProcess := NoProcess;
      }
    }

    /** The block the frame callback runs on the UI thread once a carrier
        code was detected: the confirmation dialog's answer either starts a
        recording or is dropped, and the processing flag is lowered. */
    method ConfirmDetection(response: DialogResponse, at: Moment, launch: LaunchOutcome)
      modifies this
      ensures State() == DialogStep(old(State()), response, at, launch)
    {
      if response.Confirmed? {
        selectedCode := response.code;
        selectedCompany := response.company;
        StartRecording(selectedCode, selectedCompany, at, launch);
        lastBarcodeResult := None;
      }
      isProcessingBarcode := false;
    }

    /** The detection part of the frame callback: the gate, the decode,
        the plausibility filter and the classification.  Returns the prompt
        the confirmation dialog is opened with, if any. */
    method DetectBarcode(now: int, decoded: Option<string>) returns (prompt: Option<Prompt>)
      modifies this
      ensures (State(), prompt) == DetectStep(old(State()), now, decoded)
    {
      prompt := None;
      if !isRecording && !isProcessingBarcode && now - lastBarcodeTime > DebounceTicks {
        if decoded.Some? && decoded.value != "" {
          var code := Trim(decoded.value);
          if IsLikelyExpressCode(code) {
            var company := IdentifyExpressCompany(code);
            lastBarcodeResult := decoded;
            lastBarcodeTime := now;
            if company != Other {
              isProcessingBarcode := true;
              prompt := Some(Prompt(code, company));
            }
          }
        } else {
          lastBarcodeResult := None;
        }
      }
    }

    /** The frame callback.  Returns the prompt the confirmation dialog was
        opened with, if any, and whether the frame was handed to the
        encoder. */
    method VideoSourceNewFrame(now: Moment, decoded: Option<string>, response: DialogResponse,
                               responseAt: Moment, launch: LaunchOutcome)
      returns (prompt: Option<Prompt>, frameWritten: bool)
      modifies this
      ensures State() == NewFrameStep(old(State()), now, decoded, response, responseAt, launch)
      ensures prompt == DetectStep(old(State()), now.ticks, decoded).1
      ensures frameWritten == WritesFrame(State())
    {
      prompt := DetectBarcode(now.ticks, decoded);
      if prompt.Some? {
        ConfirmDetection(response, responseAt, launch);
      }
      frameWritten := isRecording && hasWriter;
    }
  }
}
