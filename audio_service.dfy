/**
 * The mobile client's recorder: a recording handle, a silence timer that
 * stops the recording after a stretch of quiet, a flag that makes stopping
 * re-entrant-safe, and optional callbacks through which it reports. The
 * recorder library, the file system and the upload are parameters: each
 * asynchronous step that can fail is given its outcome.
 */
module AudioService {
  import opened Results
  import opened Strings
  import opened ErrorHandlerProvider

  /** dBFS below which the input counts as silence. */
  const SilenceThreshold: int := -20
  /** How long the silence timer waits before it stops the recording. */
  const SilenceDurationMs: nat := 1000
  const PermissionNeeded: string := "Microphone access is needed"
  const PermissionNeededToRecord: string := "Microphone access is needed to record audio"
  const CouldNotStart: string := "Could not start recording"
  const CouldNotStop: string := "Failed to properly stop recording"
  /** The prefix of the message for a non-Error thrown during setup. */
  const CouldNotSetUp: string := "Could not start recording: "
  const FileMissing: string := "Recording file is missing or invalid"

  /** One key of `AudioServiceCallbacks`: not given, or given with a
      handler or with `undefined`. */
  datatype Slot = Absent | Given(handler: Option<nat>)

  datatype Callbacks = Callbacks(onRecordingStart: Slot, onRecordingStop: Slot, onPermissionStatus: Slot, onError: Slot)

  const NoCallbacks: Callbacks := Callbacks(Absent, Absent, Absent, Absent)

  /** The handler a slot holds, if it holds a callable one. */
  function Active(s: Slot): Option<nat> {
    if s.Given? then s.handler else None
  }

  /** A key of the spread `{ ...this.callbacks, ...callbacks }`: a key the
      new object has wins, even when its value is `undefined`. */
  function MergeSlot(current: Slot, given: Slot): (r: Slot)
    ensures given.Given? ==> r == given
    ensures given.Absent? ==> r == current
  {
    if given.Given? then given else current
  }

  function MergeCallbacks(current: Callbacks, given: Callbacks): Callbacks {
    Callbacks(MergeSlot(current.onRecordingStart, given.onRecordingStart),
              MergeSlot(current.onRecordingStop, given.onRecordingStop),
              MergeSlot(current.onPermissionStatus, given.onPermissionStatus),
              MergeSlot(current.onError, given.onError))
  }

  /** Merging the same callbacks twice is merging them once, and merging
      nothing changes nothing. */
  lemma MergeCallbacksIdempotent(current: Callbacks, given: Callbacks)
    ensures MergeCallbacks(MergeCallbacks(current, given), given) == MergeCallbacks(current, given)
    ensures MergeCallbacks(current, NoCallbacks) == current
  {
  }

  /** A callback invocation, recorded with the handler that ran. */
  datatype Note =
    | Started(handler: nat)
    | Stopped(handler: nat)
    | Permission(handler: nat, granted: bool)
    | ErrorReported(handler: nat, error: Thrown)

  /** The service's fields, plus the record of callback invocations. */
  datatype AudioState = AudioState(hasPermission: bool, recording: bool, silenceTimer: bool, stopping: bool,
                                   callbacks: Callbacks, notes: seq<Note>)

  const Initial: AudioState := AudioState(false, false, false, false, NoCallbacks, [])

  /** `handleError`: the error goes to `onError` when there is one;
      otherwise it is thrown. */
  function HandleError(s: AudioState, e: Thrown): (r: (AudioState, Outcome<()>))
    ensures Active(s.callbacks.onError).Some? ==>
              r == (s.(notes := s.notes + [ErrorReported(Active(s.callbacks.onError).value, e)]), Returned(()))
    ensures Active(s.callbacks.onError).None? ==> r == (s, Threw(e))
  {
    match Active(s.callbacks.onError)
    case Some(h) => (s.(notes := s.notes + [ErrorReported(h, e)]), Returned(()))
    case None => (s, Threw(e))
  }

  /** `error instanceof Error ? error : new Error(fallback)`. */
  function AsError(e: Thrown, fallback: string): (r: Thrown)
    ensures r.NonError? == false
    ensures !e.NonError? ==> r == e
  {
    if e.NonError? then PlainError(fallback) else e
  }

  function NotifyStart(s: AudioState): AudioState {
    match Active(s.callbacks.onRecordingStart)
    case Some(h) => s.(notes := s.notes + [Started(h)])
    case None => s
  }

  function NotifyStop(s: AudioState): AudioState {
    match Active(s.callbacks.onRecordingStop)
    case Some(h) => s.(notes := s.notes + [Stopped(h)])
    case None => s
  }

  /** A value returned after an error was handled, or the thrown error. */
  function AfterError<T>(handled: Outcome<()>, value: T): Outcome<T> {
    if handled.Threw? then Threw(handled.error) else Returned(value)
  }

  /** `setupAudioPermissions`, given the permission request's answer (or
      what it threw) and what setting the audio mode threw, if anything. A
      denied permission is reported as an error; a thrown non-Error gets a
      generic message. */
  function SetupPermissions(s: AudioState, answer: Outcome<bool>, modeFailure: Option<Thrown>): (AudioState, Outcome<bool>) {
    match answer
    case Threw(e) =>
      var (s1, handled) := HandleError(s, AsError(e, CouldNotSetUp));
      (s1, AfterError(handled, false))
    case Returned(granted) =>
      var s1 := s.(hasPermission := granted);
      var s2 := match Active(s1.callbacks.onPermissionStatus)
                case Some(h) => s1.(notes := s1.notes + [Permission(h, granted)])
                case None => s1;
      var failure := if !granted then Some(PlainError(PermissionNeededToRecord)) else modeFailure;
      match failure
      case None => (s2, Returned(granted))
      case Some(e) =>
        var (s3, handled) := HandleError(s2, AsError(e, CouldNotSetUp));
        (s3, AfterError(handled, false))
  }

  /** Setup reports success only when the permission was granted and the
      audio mode was set; the permission flag follows the answer and stays
      as it was when the request itself threw. */
  lemma SetupReportsGrant(s: AudioState, answer: Outcome<bool>, modeFailure: Option<Thrown>)
    ensures var (t, r) := SetupPermissions(s, answer, modeFailure);
      (r == Returned(true) <==> answer == Returned(true) && modeFailure.None?) &&
      (answer.Returned? ==> t.hasPermission == answer.value) &&
      (answer.Threw? ==> t.hasPermission == s.hasPermission) &&
      t.recording == s.recording && t.silenceTimer == s.silenceTimer && t.stopping == s.stopping
  {
  }

  /** `startRecording`; `failure` is what preparing or starting the
      recorder threw, if anything. */
  function StartRecording(s: AudioState, failure: Option<Thrown>): (AudioState, Outcome<bool>) {
    if !s.hasPermission then
      var (s1, handled) := HandleError(s, PlainError(PermissionNeeded));
      (s1, AfterError(handled, false))
    else if s.recording then (s, Returned(false))
    else
      var started := NotifyStart(s).(stopping := false, recording := true);
      match failure
      case None => (started, Returned(true))
      case Some(e) =>
        var cleaned := NotifyStop(started.(recording := false)).(stopping := false, silenceTimer := false);
        var (s1, handled) := HandleError(cleaned, AsError(e, CouldNotStart));
        (s1, AfterError(handled, false))
  }

  /** Without permission, or while a recording exists, nothing starts and
      no recording field changes. */
  lemma StartBlocked(s: AudioState, failure: Option<Thrown>)
    requires !s.hasPermission || s.recording
    ensures var (t, r) := StartRecording(s, failure);
      t.recording == s.recording && t.silenceTimer == s.silenceTimer && t.stopping == s.stopping &&
      r != Returned(true)
  {
  }

  /** A start that fails leaves no recording, no stop in progress and no
      silence timer, reports the error, and never claims success. */
  lemma StartFailureResets(s: AudioState, e: Thrown)
    requires s.hasPermission && !s.recording
    ensures var (t, r) := StartRecording(s, Some(e));
      !t.recording && !t.stopping && !t.silenceTimer && r != Returned(true) &&
      (r.Threw? <==> Active(s.callbacks.onError).None?) &&
      (r.Threw? ==> r.error == AsError(e, CouldNotStart)) &&
      (Active(s.callbacks.onError).Some? ==>
         t.notes[|t.notes| - 1] == ErrorReported(Active(s.callbacks.onError).value, AsError(e, CouldNotStart)))
  {
  }

  /** `onRecordingStatusUpdate` for a status with `isRecording` and an
      optional `metering` in dBFS. */
  function StatusUpdate(s: AudioState, isRecording: bool, metering: Option<int>): AudioState {
    if !isRecording || s.stopping then s
    else if metering.None? then s
    else if metering.value < SilenceThreshold then
      if !s.silenceTimer then s.(silenceTimer := true) else s
    else
      if s.silenceTimer then s.(silenceTimer := false) else s
  }

  /** Status updates touch nothing but the timer; a timer is started only
      on silence when none is pending and the update is processed, and is
      cleared only when sound comes back. */
  lemma SilenceTimerRule(s: AudioState, isRecording: bool, metering: Option<int>)
    ensures var t := StatusUpdate(s, isRecording, metering);
      t == s.(silenceTimer := t.silenceTimer) &&
      (t.silenceTimer && !s.silenceTimer ==> isRecording && !s.stopping && metering.Some? && metering.value < SilenceThreshold) &&
      (!t.silenceTimer && s.silenceTimer ==> isRecording && !s.stopping && metering.Some? && metering.value >= SilenceThreshold) &&
      (!isRecording || s.stopping || metering.None? ==> t == s)
  {
  }

  /** A quiet update followed by more quiet keeps the one pending timer;
      sound then clears it. */
  lemma SilenceThenSound(s: AudioState, quiet: int, loud: int)
    requires !s.stopping && quiet < SilenceThreshold <= loud
    ensures StatusUpdate(StatusUpdate(s, true, Some(quiet)), true, Some(quiet)) == s.(silenceTimer := true)
    ensures !StatusUpdate(StatusUpdate(s, true, Some(quiet)), true, Some(loud)).silenceTimer
  {
  }

  /** The upload error as `sendAudioToBackend` inspects it: `code`,
      `response.status`, whether a request was made, and `message`. */
  datatype UploadError = UploadError(code: Option<string>, responseStatus: Option<int>, request: bool, message: string)

  const TookTooLong: string := "Request took too long. Server might be busy or slow network connection"
  const ServerNotFound: string := "Could not find server. Check server address"
  const ServerRefused: string := "Server refused connection. Make sure server is running"

  /** The message of the Error `sendAudioToBackend` throws, chosen in a
      fixed order of precedence: the three network codes before anything
      else. */
  function UploadErrorMessage(e: UploadError): (r: string)
    ensures e.code == Some("ECONNABORTED") ==> r == TookTooLong
    ensures e.code == Some("ENOTFOUND") ==> r == ServerNotFound
    ensures e.code == Some("ECONNREFUSED") ==> r == ServerRefused
  {
    if e.code == Some("ECONNABORTED") then TookTooLong
    else if e.code == Some("ENOTFOUND") then ServerNotFound
    else if e.code == Some("ECONNREFUSED") then ServerRefused
    else if e.responseStatus.Some? then "Failed to process audio. Status: " + IntToString(e.responseStatus.value)
    else if e.request then "Could not reach server. Check that server is running and you're on the same network"
    else if e.message != "" then UploadFailedPrefix + e.message
    else "Failed to upload audio"
  }

  const UploadFailedPrefix: string := "Failed to upload: "

  /** The file check throws a plain Error, which the catch maps by its
      message. */
  const MissingFileError: UploadError := UploadError(None, None, false, FileMissing)

  lemma MissingFileMessage()
    ensures UploadErrorMessage(MissingFileError) == UploadFailedPrefix + FileMissing
  {
    var e := MissingFileError;
    assert e.code.None? && e.responseStatus.None? && !e.request;
    assert |e.message| > 0;
  }

  /** A response status is reported only when no network code came first,
      and then it is readable from the message. */
  lemma ResponseStatusReported(e: UploadError)
    requires e.code.None? && e.responseStatus.Some? && e.responseStatus.value >= 0
    ensures var r := UploadErrorMessage(e);
      var prefix := "Failed to process audio. Status: ";
      |r| > |prefix| && r[..|prefix|] == prefix && AllDigits(r[|prefix|..]) &&
      ParseNat(r[|prefix|..]) == e.responseStatus.value
  {
    var prefix := "Failed to process audio. Status: ";
    var r := UploadErrorMessage(e);
    assert r == prefix + NatToString(e.responseStatus.value);
    assert r[|prefix|..] == NatToString(e.responseStatus.value);
    ParseNatToString(e.responseStatus.value);
  }

  /** What `sendAudioToBackend` did: sent, or failed with an error. */
  datatype Upload = Uploaded | UploadFailed(error: UploadError)

  /** How the recorder's stop went: it threw, or it stopped (with or
      without a recorded file) and the upload, if any, had this result. */
  datatype StopResult = StopThrew(error: Thrown) | StopDone(hasFile: bool, upload: Upload)

  /** The first, synchronous part of `stopRecording`: the stop is now in
      progress and the silence timer is cleared. */
  function BeginStop(s: AudioState): AudioState {
    s.(stopping := true, silenceTimer := false)
  }

  /** The rest of `stopRecording`, once the recorder has answered. */
  function FinishStop(s: AudioState, sendFile: bool, result: StopResult): (AudioState, Outcome<()>) {
    match result
    case StopThrew(e) =>
      var s1 := NotifyStop(s.(recording := false));
      var (s2, handled) := HandleError(s1, AsError(e, CouldNotStop));
      (s2.(stopping := false), handled)
    case StopDone(hasFile, upload) =>
      var s1 := NotifyStop(s.(recording := false));
      if hasFile && sendFile && upload.UploadFailed? then
        var s2 := NotifyStop(s1.(recording := false));
        var (s3, handled) := HandleError(s2, PlainError(UploadErrorMessage(upload.error)));
        (s3.(stopping := false), handled)
      else (s1.(stopping := false), Returned(()))
  }

  /** `stopRecording`: a no-op without a recording or while a stop is in
      progress; otherwise the whole stop. */
  function StopRecording(s: AudioState, sendFile: bool, result: StopResult): (AudioState, Outcome<()>) {
    if !s.recording || s.stopping then (s, Returned(()))
    else FinishStop(BeginStop(s), sendFile, result)
  }

  /** The synchronous part of `cleanup`: `stopRecording(false)` is called
      and not awaited, so only its first part runs before the timer is
      cleared; the rest of that stop runs later, as `FinishStop`. */
  function Cleanup(s: AudioState): (AudioState, bool) {
    if !s.recording || s.stopping then (s.(silenceTimer := false), false)
    else (BeginStop(s).(silenceTimer := false), true)
  }

  /** After `cleanup` no silence timer is pending, and a stop is in
      progress exactly when a recording exists. */
  lemma CleanupClearsTimer(s: AudioState)
    ensures var (t, begun) := Cleanup(s);
      !t.silenceTimer && t.recording == s.recording && (begun <==> s.recording && !s.stopping) &&
      (t.stopping <==> s.stopping || s.recording)
  {
  }

  /** The re-entrancy guard: a second stop while one is in progress (or
      with nothing recording) changes nothing. */
  lemma StopIsGuarded(s: AudioState, sendFile: bool, result: StopResult)
    ensures !s.recording || s.stopping ==> StopRecording(s, sendFile, result) == (s, Returned(()))
    ensures s.recording && !s.stopping ==> StopRecording(BeginStop(s), sendFile, result) == (BeginStop(s), Returned(()))
  {
  }

  /** However the recorder and the upload behave, a stop leaves no
      recording, no silence timer and no stop in progress. */
  lemma StopAlwaysResets(s: AudioState, sendFile: bool, result: StopResult)
    requires s.recording && !s.stopping
    ensures var (t, _) := StopRecording(s, sendFile, result);
      !t.recording && !t.silenceTimer && !t.stopping && t.hasPermission == s.hasPermission
  {
  }

  /** A failed upload reaches the catch after the stop was already
      reported, so `onRecordingStop` runs twice. */
  lemma FailedUploadReportsStopTwice(s: AudioState, e: UploadError)
    requires s.recording && !s.stopping && Active(s.callbacks.onRecordingStop).Some?
    ensures var (t, _) := StopRecording(s, true, StopDone(true, UploadFailed(e)));
      var h := Active(s.callbacks.onRecordingStop).value;
      |t.notes| >= |s.notes| + 2 && t.notes[|s.notes|] == Stopped(h) && t.notes[|s.notes| + 1] == Stopped(h)
  {
  }

  class Recorder {
    var hasPermission: bool
    var recording: bool
    var silenceTimer: bool
    var stopping: bool
    var callbacks: Callbacks
    var notes: seq<Note>

    function State(): AudioState
      reads this
    {
      AudioState(hasPermission, recording, silenceTimer, stopping, callbacks, notes)
    }

    constructor ()
      ensures State() == Initial
    {
      hasPermission := false;
      recording := false;
      silenceTimer := false;
      stopping := false;
      callbacks := NoCallbacks;
      notes := [];
    }

    /** `isRecording`: whether a recording handle exists. */
    function IsRecording(): (r: bool)
      reads this
      ensures r <==> State().recording
    {
      recording
    }

    method SetCallbacks(given: Callbacks)
      modifies this
      ensures State() == old(State()).(callbacks := MergeCallbacks(old(callbacks), given))
    {
      callbacks := MergeCallbacks(callbacks, given);
    }

    method HandleErrorStep(e: Thrown) returns (r: Outcome<()>)
      modifies this
      ensures (State(), r) == HandleError(old(State()), e)
    {
      match Active(callbacks.onError) {
        case Some(h) =>
          notes := notes + [ErrorReported(h, e)];
          r := Returned(());
        case None =>
          r := Threw(e);
      }
    }

    method NotifyStopStep()
      modifies this
      ensures State() == NotifyStop(old(State()))
    {
      match Active(callbacks.onRecordingStop) {
        case Some(h) => notes := notes + [Stopped(h)];
        case None =>
      }
    }

    method SetupAudioPermissions(answer: Outcome<bool>, modeFailure: Option<Thrown>) returns (r: Outcome<bool>)
      modifies this
      ensures (State(), r) == SetupPermissions(old(State()), answer, modeFailure)
    {
      if answer.Threw? {
        var handled := HandleErrorStep(AsError(answer.error, CouldNotSetUp));
        return AfterError(handled, false);
      }
      hasPermission := answer.value;
      match Active(callbacks.onPermissionStatus) {
        case Some(h) => notes := notes + [Permission(h, hasPermission)];
        case None =>
      }
      var failure := if !answer.value then Some(PlainError(PermissionNeededToRecord)) else modeFailure;
      if failure.None? {
        return Returned(hasPermission);
      }
      var handled := HandleErrorStep(AsError(failure.value, CouldNotSetUp));
      r := AfterError(handled, false);
    }

    /** `hasAudioPermission`. */
    function HasAudioPermission(): (r: bool)
      reads this
      ensures r <==> State().hasPermission
    {
      hasPermission
    }

    method StartRecordingStep(failure: Option<Thrown>) returns (r: Outcome<bool>)
      modifies this
      ensures (State(), r) == StartRecording(old(State()), failure)
    {
      if !hasPermission {
        var handled := HandleErrorStep(PlainError(PermissionNeeded));
        return AfterError(handled, false);
      }
      if recording {
        return Returned(false);
      }
      match Active(callbacks.onRecordingStart) {
        case Some(h) => notes := notes + [Started(h)];
        case None =>
      }
      stopping := false;
      recording := true;
      if failure.None? {
        return Returned(true);
      }
      recording := false;
      NotifyStopStep();
      stopping := false;
      silenceTimer := false;
      var handled := HandleErrorStep(AsError(failure.value, CouldNotStart));
      r := AfterError(handled, false);
    }

    method OnRecordingStatusUpdate(isRecording: bool, metering: Option<int>)
      modifies this
      ensures State() == StatusUpdate(old(State()), isRecording, metering)
    {
      if !isRecording || stopping {
        return;
      }
      if metering.None? {
        return;
      }
      if metering.value < SilenceThreshold {
        if !silenceTimer {
          silenceTimer := true;
        }
      } else {
        if silenceTimer {
          silenceTimer := false;
        }
      }
    }

    /** `stopRecording(sendFile)`, split at its first `await`: this part
        runs at once and tells whether a stop began. */
    method BeginStopStep() returns (begun: bool)
      modifies this
      ensures begun <==> old(recording) && !old(stopping)
      ensures begun ==> State() == BeginStop(old(State()))
      ensures !begun ==> State() == old(State())
    {
      if !recording || stopping {
        return false;
      }
      stopping := true;
      silenceTimer := false;
      return true;
    }

    /** The part of `stopRecording` after the recorder has answered. */
    method FinishStopStep(sendFile: bool, result: StopResult) returns (r: Outcome<()>)
      modifies this
      ensures (State(), r) == FinishStop(old(State()), sendFile, result)
    {
      match result {
        case StopThrew(e) =>
          recording := false;
          NotifyStopStep();
          r := HandleErrorStep(AsError(e, CouldNotStop));
        case StopDone(hasFile, upload) =>
          recording := false;
          NotifyStopStep();
          r := Returned(());
          if hasFile && sendFile && upload.UploadFailed? {
            recording := false;
            NotifyStopStep();
            r := HandleErrorStep(PlainError(UploadErrorMessage(upload.error)));
          }
      }
      stopping := false;
    }

    method StopRecordingStep(sendFile: bool, result: StopResult) returns (r: Outcome<()>)
      modifies this
      ensures (State(), r) == StopRecording(old(State()), sendFile, result)
    {
      var begun := BeginStopStep();
      if !begun {
        return Returned(());
      }
      r := FinishStopStep(sendFile, result);
    }

    /** `cleanup`: the unawaited `stopRecording(false)` begins, then the
        timer is cleared. Whether a stop began is returned so that the
        caller can finish it with `FinishStopStep(false, ...)`. */
    method CleanupStep() returns (begun: bool)
      modifies this
      ensures (State(), begun) == Cleanup(old(State()))
    {
      begun := BeginStopStep();
      silenceTimer := false;
    }
  }
}
