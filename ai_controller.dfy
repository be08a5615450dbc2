/**
 * The older voice-command endpoint (`apis/`): it converts and transcribes
 * the upload, looks up a Vietnamese command text, picks the device and
 * state with a hand-written if-chain, and for a mapped code writes the
 * state unconditionally, broadcasts it and asks the ESP32 to switch. Its
 * replies are written directly: a 400 for a missing file, the
 * `errorHandlerRes` body for any failure, otherwise the command summary.
 */
module AIController {
  import opened Results
  import opened Strings
  import opened DeviceTypes
  import opened DeviceMapping
  import opened DeviceLogRepo
  import opened DeviceRepo
  import opened Events
  import opened ErrorHandlerProvider
  import opened ErrorHandlerService
  import opened ConnectAISocket
  import opened AIService
  import opened Worlds

  /** What conversion and transcription produced: the conversion or the
      transcription failed (each reported by a fixed Error), or a result. */
  datatype AudioOutcome = ConvertFailed | TranscribeFailed | Transcribed(result: Transcript)

  /** The reply: the missing-file 400, an `errorHandlerRes` failure, or the
      `{ command_code, command, success }` summary. */
  datatype TranscribeReply =
    | MissingFile(status: int, error: string)
    | Failed(reply: ErrorReply)
    | Answered(commandCode: int, command: string, success: bool)

  const NoAudioFile: string := "No audio file uploaded"
  const ConvertFailedMessage: string := "Failed to convert audio file"
  const TranscribeFailedMessage: string := "Failed to transcribe audio"
  const ControlTimeoutMs: nat := 3000

  /** This endpoint's own `COMMAND_MAP`, in Vietnamese. */
  const LocalCommandMap: map<int, string> := map[
    1 := "Mở cửa",
    2 := "Đóng cửa",
    3 := "Bật đèn",
    4 := "Tắt đèn",
    5 := "Mở màn",
    6 := "Đóng màn",
    7 := "Bật quạt",
    8 := "Tắt quạt",
    -1 := "Không nhận diện được lệnh"
  ]

  /** `COMMAND_MAP[commandCode] || COMMAND_MAP[-1]`: any code without a
      text gets the "not recognised" text. */
  function LocalCommandText(code: int): (r: string)
    ensures 1 <= code <= 8 || code == -1 ==> r == LocalCommandMap[code]
    ensures !(1 <= code <= 8 || code == -1) ==> r == LocalCommandMap[-1]
    ensures r != ""
  {
    if code in LocalCommandMap && LocalCommandMap[code] != "" then LocalCommandMap[code] else LocalCommandMap[-1]
  }

  /** The two tables have text for exactly the same codes. */
  lemma LocalMapHasSameCodes()
    ensures LocalCommandMap.Keys == CommandMap.Keys
  {
    forall c | c in CommandMap.Keys
      ensures c in LocalCommandMap.Keys
    {
      assert CommandText(c).Some?;
    }
  }

  /** The if-chain: for codes 1..8 it assigns exactly the device and state
      of `COMMAND_DEVICE_MAP`; for every other code both stay unset. */
  method ChainTarget(code: int) returns (deviceId: Option<nat>, status: Option<DeviceState>)
    ensures (deviceId.Some? && status.Some?) <==> CommandTarget(code).Some?
    ensures deviceId.Some? <==> status.Some?
    ensures CommandTarget(code).Some? ==> CommandTarget(code).value == Target(deviceId.value, status.value)
  {
    deviceId, status := None, None;
    if code == 1 {
      deviceId, status := Some(1), Some(On);
    } else if code == 2 {
      deviceId, status := Some(1), Some(Off);
    } else if code == 3 {
      deviceId, status := Some(2), Some(On);
    } else if code == 4 {
      deviceId, status := Some(2), Some(Off);
    } else if code == 5 {
      deviceId, status := Some(3), Some(On);
    } else if code == 6 {
      deviceId, status := Some(3), Some(Off);
    } else if code == 7 {
      deviceId, status := Some(4), Some(On);
    } else if code == 8 {
      deviceId, status := Some(4), Some(Off);
    }
  }

  /** `http://${AXIOS_IOT_URI}/control?id=..&state=..`; an unset variable
      is interpolated as the text 'undefined'. */
  function LegacyControlUrl(iotUri: Option<string>, id: nat, s: DeviceState): string {
    var host := if iotUri.Some? then iotUri.value else "undefined";
    "http://" + host + "/control?id=" + NatToString(id) + "&state=" + StateText(s)
  }

  /** The reply `errorHandlerRes` writes for a failure that went through
      the older `errorHandlerFunc`. */
  function WrappedFailure(e: Thrown): ErrorReply {
    ErrorHandlerRes(LegacyHandlerFunc<()>(Threw(e)).error)
  }

  /** `transcribeAudio` as a function of the world. */
  function TranscribeEffect(w: World, hasFile: bool, audio: AudioOutcome, iotUri: Option<string>,
                            controlFailure: Option<Thrown>, now: int): (World, TranscribeReply)
  {
    if !hasFile then (w, MissingFile(BadRequest, NoAudioFile))
    else
      match audio
      case ConvertFailed => (w, Failed(ErrorHandlerRes(PlainError(ConvertFailedMessage))))
      case TranscribeFailed => (w, Failed(ErrorHandlerRes(PlainError(TranscribeFailedMessage))))
      case Transcribed(t) =>
        match ExtractCode(t)
        case Err(_, message) => (w, Failed(ErrorHandlerRes(PlainError(message))))
        case Ok(code) => CommandEffect(w, code, iotUri, controlFailure, now)
  }

  /** What happens once the code is known. */
  function CommandEffect(w: World, code: int, iotUri: Option<string>, controlFailure: Option<Thrown>, now: int): (World, TranscribeReply)
  {
    var answer := Answered(code, LocalCommandText(code), code != -1);
    match CommandTarget(code)
    case None => (w, answer)
    case Some(target) =>
      match FindById(w.rows, target.deviceId)
      case None => (w, Failed(ErrorHandlerRes(CustomError(NotFound, DeviceNotFound))))
      case Some(_) =>
        var w' := Switched(w, target, iotUri, now);
        if controlFailure.Some? then (w', Failed(WrappedFailure(controlFailure.value))) else (w', answer)
  }

  /** The unconditional write of a mapped command: the state is written,
      logged with no address, broadcast, and sent to the ESP32. */
  function Switched(w: World, target: Target, iotUri: Option<string>, now: int): World
    requires FindById(w.rows, target.deviceId).Some?
  {
    var before := FindById(w.rows, target.deviceId).value;
    World(WithState(w.rows, target.deviceId, target.state), w.nextId,
          w.logs + [LogEntry(w.nextLogId, target.deviceId, ActionFor(target.state), before.state, now, StoredIp(None))],
          w.nextLogId + 1,
          w.events + [DeviceStateChanged(before.(state := target.state)),
                      ControlRequest(LegacyControlUrl(iotUri, target.deviceId, target.state), ControlTimeoutMs)])
  }

  // ---------------------------------------------------------------------
  // Properties

  /** A request without a file gets 400 and nothing else happens. */
  lemma MissingFileIsBadRequest(w: World, audio: AudioOutcome, iotUri: Option<string>, controlFailure: Option<Thrown>, now: int)
    ensures TranscribeEffect(w, false, audio, iotUri, controlFailure, now) == (w, MissingFile(BadRequest, NoAudioFile))
  {
  }

  /** Any code outside 1..8 (9 and 10 included) updates nothing and sends
      nothing; the reply reports success for every code except -1, with the
      fallback text for codes the table does not know (42, say). */
  lemma UnmappedCodeChangesNothing(w: World, code: int, iotUri: Option<string>, controlFailure: Option<Thrown>, now: int)
    requires !(1 <= code <= 8)
    ensures var (w', reply) := TranscribeEffect(w, true, Transcribed(ObjectResult(Some(code))), iotUri, controlFailure, now);
            w' == w && reply.Answered? && reply.commandCode == code &&
            (reply.success <==> code != -1) &&
            reply.command == LocalCommandMap[-1]
  {
  }

  /** A mapped code always writes and logs, even when the device already
      has that state: unlike the newer service, this endpoint has no
      same-state guard. */
  lemma MappedCodeAlwaysWrites(w: World, code: int, iotUri: Option<string>, controlFailure: Option<Thrown>, now: int)
    requires 1 <= code <= 8 && CommandTarget(code).value.deviceId in Ids(w.rows)
    ensures var (w', reply) := TranscribeEffect(w, true, Transcribed(ObjectResult(Some(code))), iotUri, controlFailure, now);
            var target := CommandTarget(code).value;
            |w'.logs| == |w.logs| + 1 &&
            w'.logs[|w.logs|].previousState == FindById(w.rows, target.deviceId).value.state &&
            w'.rows == WithState(w.rows, target.deviceId, target.state) &&
            |w'.events| == |w.events| + 2 &&
            (controlFailure.None? ==> reply == Answered(code, LocalCommandMap[code], true)) &&
            (controlFailure.Some? ==> reply.Failed? && !reply.reply.success)
  {
    var target := CommandTarget(code).value;
    var found := FindById(w.rows, target.deviceId);
  }

  /** The same command twice: the second run still logs (and broadcasts),
      recording that the device already had the target state, while the
      newer service's second run is a no-op. */
  lemma RepeatedCommandLogsTwice(w: World, code: int, iotUri: Option<string>, now: int)
    requires 1 <= code <= 8 && CommandTarget(code).value.deviceId in Ids(w.rows)
    ensures var (w1, _) := CommandEffect(w, code, iotUri, None, now);
            var (w2, _) := CommandEffect(w1, code, iotUri, None, now);
            |w2.logs| == |w.logs| + 2 && |w2.events| == |w.events| + 4 &&
            w2.logs[|w.logs| + 1].previousState == CommandTarget(code).value.state
  {
    var target := CommandTarget(code).value;
    IdOfRow(w.rows, FindById(w.rows, target.deviceId).value);
    FindByIdWithState(w.rows, target.deviceId, target.state);
    var w1 := Switched(w, target, iotUri, now);
    assert FindById(w1.rows, target.deviceId).Some?;
  }

  // ---------------------------------------------------------------------
  // The endpoint

  method TranscribeAudio(store: DeviceStore, bus: EventBus, hasFile: bool, audio: AudioOutcome,
                         iotUri: Option<string>, controlFailure: Option<Thrown>, now: int)
    returns (reply: TranscribeReply)
    requires store.Valid()
    modifies store, store.logRepo, bus
    ensures store.Valid()
    ensures var (w', r) := TranscribeEffect(old(Snapshot(store, bus)), hasFile, audio, iotUri, controlFailure, now);
            reply == r && Snapshot(store, bus) == w'
  {
    if !hasFile {
      return MissingFile(BadRequest, NoAudioFile);
    }
    if audio.ConvertFailed? {
      return Failed(ErrorHandlerRes(PlainError(ConvertFailedMessage)));
    }
    if audio.TranscribeFailed? {
      return Failed(ErrorHandlerRes(PlainError(TranscribeFailedMessage)));
    }
    var extracted := ExtractCode(audio.result);
    if extracted.Err? {
      return Failed(ErrorHandlerRes(PlainError(extracted.message)));
    }
    reply := RunCommand(store, bus, extracted.value, iotUri, controlFailure, now);
  }

  /** The part of `transcribeAudio` after the code is known. */
  method RunCommand(store: DeviceStore, bus: EventBus, commandCode: int,
                    iotUri: Option<string>, controlFailure: Option<Thrown>, now: int)
    returns (reply: TranscribeReply)
    requires store.Valid()
    modifies store, store.logRepo, bus
    ensures store.Valid()
    ensures var (w', r) := CommandEffect(old(Snapshot(store, bus)), commandCode, iotUri, controlFailure, now);
            reply == r && Snapshot(store, bus) == w'
  {
    var commandText := LocalCommandText(commandCode);
    var deviceId, status := ChainTarget(commandCode);
    if status.Some? && deviceId.Some? {
      var found := SwitchAndNotify(store, bus, Target(deviceId.value, status.value), iotUri, now);
      if !found {
        return Failed(ErrorHandlerRes(CustomError(NotFound, DeviceNotFound)));
      }
      if controlFailure.Some? {
        return Failed(WrappedFailure(controlFailure.value));
      }
    }
    return Answered(commandCode, commandText, commandCode != -1);
  }

  /** `updateState` with no address, the broadcast and the control request. */
  method SwitchAndNotify(store: DeviceStore, bus: EventBus, target: Target, iotUri: Option<string>, now: int)
    returns (found: bool)
    requires store.Valid()
    modifies store, store.logRepo, bus
    ensures store.Valid()
    ensures found <==> FindById(old(store.rows), target.deviceId).Some?
    ensures !found ==> Snapshot(store, bus) == old(Snapshot(store, bus))
    ensures found ==> Snapshot(store, bus) == Switched(old(Snapshot(store, bus)), target, iotUri, now)
  {
    ghost var w := Snapshot(store, bus);
    var url := LegacyControlUrl(iotUri, target.deviceId, target.state);
    var updated := store.UpdateState(target.deviceId, target.state, None, now);
    if updated.None? {
      return false;
    }
    ghost var before := FindById(w.rows, target.deviceId).value;
    assert updated.value == before.(state := target.state);
    bus.Emit(DeviceStateChanged(updated.value));
    bus.Emit(ControlRequest(url, ControlTimeoutMs));
    assert bus.events == w.events + [DeviceStateChanged(before.(state := target.state)), ControlRequest(url, ControlTimeoutMs)];
    return true;
  }
}
