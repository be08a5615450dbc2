/**
 * The voice-command service of the current backend: the transcription is
 * reduced to a command code, which is routed to "not found" (-1), the bulk
 * path (9 and 10) or the single-device path (every other code). Each path
 * is specified by a function from the database and broadcast record before
 * the call to the reply and the record after it; the methods that do the
 * work step by step are proved against those functions.
 */
module AIService {
  import opened Results
  import opened Strings
  import opened DeviceTypes
  import opened DeviceMapping
  import opened DeviceLogRepo
  import opened DeviceRepo
  import opened Events
  import opened ErrorHandlerProvider
  import opened ConnectAISocket
  import opened Worlds

  /** The `data` of an `IAudioDevice`: a notice, one device or a list. */
  datatype Payload = Notice(text: string) | One(device: DeviceView) | Many(devices: seq<DeviceView>)

  /** `IAudioDevice`. */
  datatype AudioDevice = AudioDevice(data: Payload, commandCode: int)

  const CodeNotFound: string := "Command code not found"
  const DeviceNotFound: string := "Device not found"
  const AllOnNotice: string := "All devices are already in state ON. No update needed."
  const AllOffNotice: string := "All devices are already in state OFF. No update needed."
  const NullCodeMessage: string := "Cannot read properties of null (reading 'command_code')"

  /** The command code of a transcription: the `command_code` field of an
      object that has one, otherwise -1. `null` is an object to `typeof`,
      so reading its field throws, and the wrapper reports a 500. */
  function ExtractCode(t: Transcript): (r: Result<int>)
    ensures t.ObjectResult? && t.commandCode.Some? ==> r == Ok(t.commandCode.value)
    ensures t.ObjectResult? && t.commandCode.None? ==> r == Ok(-1)
    ensures t.OtherResult? ==> r == Ok(-1)
    ensures t.NullResult? ==> r == Err(InternalServerError, NullCodeMessage)
  {
    match t
    case NullResult => Err(InternalServerError, NullCodeMessage)
    case ObjectResult(c) => if c.Some? then Ok(c.value) else Ok(-1)
    case OtherResult => Ok(-1)
  }

  datatype Route = NotFoundRoute | BulkRoute | SingleRoute

  /** The dispatch of `updateDeviceState`. */
  function RouteOf(code: int): (r: Route)
    ensures r == NotFoundRoute <==> code == -1
    ensures r == BulkRoute <==> code == 9 || code == 10
    ensures r == SingleRoute <==> code != -1 && code != 9 && code != 10
  {
    if code == -1 then NotFoundRoute
    else if code == 9 || code == 10 then BulkRoute
    else SingleRoute
  }

  /** `Device ${deviceId} is already in state ${state}. No update needed.` */
  function AlreadyText(t: Target): string {
    "Device " + NatToString(t.deviceId) + " is already in state " + StateText(t.state) + ". No update needed."
  }

  /** What the single-device path decides from the code and the rows. */
  datatype SingleDecision = NoTarget | NoDevice(target: Target) | AlreadyInState(target: Target) | Switch(target: Target)

  function DecideSingle(rows: seq<Device>, code: int): (r: SingleDecision)
    ensures r.NoTarget? <==> CommandTarget(code).None?
    ensures !r.NoTarget? ==> r.target == CommandTarget(code).value
    ensures r.NoDevice? <==> CommandTarget(code).Some? && CommandTarget(code).value.deviceId !in Ids(rows)
    ensures r.AlreadyInState? || r.Switch? ==> FindById(rows, r.target.deviceId).Some?
    ensures r.AlreadyInState? ==> FindById(rows, r.target.deviceId).value.state == r.target.state
    ensures r.Switch? ==> FindById(rows, r.target.deviceId).value.state != r.target.state
  {
    match CommandTarget(code)
    case None => NoTarget
    case Some(t) =>
      match FindById(rows, t.deviceId)
      case None => NoDevice(t)
      case Some(d) => if d.state != t.state then Switch(t) else AlreadyInState(t)
  }

  /** `updateSingleDeviceByCommandCode` as a function of the world. */
  function SingleEffect(w: World, code: int, ip: Option<string>, now: int): (World, Result<AudioDevice>) {
    match DecideSingle(w.rows, code)
    case NoTarget => (w, Err(NotFound, DeviceNotFound))
    case NoDevice(_) => (w, Err(NotFound, DeviceNotFound))
    case AlreadyInState(t) => (w, Ok(AudioDevice(Notice(AlreadyText(t)), code)))
    case Switch(t) =>
      var before := FindById(w.rows, t.deviceId).value;
      var updated := before.(state := t.state);
      (World(WithState(w.rows, t.deviceId, t.state), w.nextId,
             w.logs + [LogEntry(w.nextLogId, t.deviceId, ActionFor(t.state), before.state, now, StoredIp(ip))],
             w.nextLogId + 1, w.events + [DeviceStateChanged(updated)]),
       Ok(AudioDevice(One(View(updated)), code)))
  }

  /** The state the bulk path writes: ON exactly for code 9. */
  function BulkState(code: int): (s: DeviceState)
    ensures s == On <==> code == 9
  {
    if code == 9 then On else Off
  }

  /** The bulk path's early return: code 9 with every device ON, or code
      10 with every device OFF. */
  function BulkNotice(rows: seq<Device>, code: int): (r: Option<string>)
    ensures r.Some? <==> (code == 9 && AllInState(rows, On)) || (code == 10 && AllInState(rows, Off))
    ensures r.Some? ==> r.value == if code == 9 then AllOnNotice else AllOffNotice
  {
    if code == 9 && AllInState(rows, On) then Some(AllOnNotice)
    else if code == 10 && AllInState(rows, Off) then Some(AllOffNotice)
    else None
  }

  /** One 'device_state_changed' broadcast per device, in order. */
  function Broadcasts(ds: seq<Device>): (r: seq<Event>)
    ensures |r| == |ds| && forall k :: 0 <= k < |ds| ==> r[k] == DeviceStateChanged(ds[k])
  {
    seq(|ds|, k requires 0 <= k < |ds| => DeviceStateChanged(ds[k]))
  }

  /** `updateAllDevicesByCommandCode` as a function of the world. */
  function BulkEffect(w: World, code: int, ip: Option<string>, now: int): (World, Result<AudioDevice>) {
    match BulkNotice(w.rows, code)
    case Some(text) => (w, Ok(AudioDevice(Notice(text), code)))
    case None =>
      var s := BulkState(code);
      var updated := AllWithState(w.rows, s);
      (World(updated, w.nextId, w.logs + BulkLogs(w.rows, w.nextLogId, s, ip, now),
             w.nextLogId + |w.rows|, w.events + Broadcasts(updated)),
       Ok(AudioDevice(Many(Views(updated)), code)))
  }

  /** `updateDeviceState` as a function of the world, given what the
      conversion and transcription produced (or threw). */
  function VoiceEffect(w: World, transcribed: Outcome<Transcript>, ip: Option<string>, now: int): (World, Result<AudioDevice>) {
    match transcribed
    case Threw(e) => (w, Err(ErrorInfoOf(e).status, ErrorInfoOf(e).message))
    case Returned(t) =>
      match ExtractCode(t)
      case Err(status, message) => (w, Err(status, message))
      case Ok(code) =>
        match RouteOf(code)
        case NotFoundRoute => (w, Ok(AudioDevice(Notice(CodeNotFound), code)))
        case BulkRoute => BulkEffect(w, code, ip, now)
        case SingleRoute => SingleEffect(w, code, ip, now)
  }

  // ---------------------------------------------------------------------
  // Properties of the three paths

  /** Single path: an unmapped code or a missing device fails with 404 and
      changes nothing; a device already in the target state gets the notice
      and nothing changes; otherwise exactly one row is written, exactly one
      log entry (recording the opposite previous state) and one broadcast
      are added, and the reply's device has the target state. */
  lemma SingleEffectSpec(w: World, code: int, ip: Option<string>, now: int)
    ensures var (w', r) := SingleEffect(w, code, ip, now);
            match DecideSingle(w.rows, code)
            case NoTarget => w' == w && r == Err(NotFound, DeviceNotFound)
            case NoDevice(_) => w' == w && r == Err(NotFound, DeviceNotFound)
            case AlreadyInState(t) => w' == w && r.Ok? && r.value.data == Notice(AlreadyText(t))
            case Switch(t) =>
              |w'.logs| == |w.logs| + 1 && w'.logs[..|w.logs|] == w.logs &&
              w'.logs[|w.logs|].deviceId == t.deviceId &&
              w'.logs[|w.logs|].previousState != t.state &&
              (w'.logs[|w.logs|].action == TurnOn <==> t.state == On) &&
              |w'.events| == |w.events| + 1 && w'.events[..|w.events|] == w.events &&
              w'.rows == WithState(w.rows, t.deviceId, t.state) &&
              r.Ok? && r.value.data.One? && r.value.data.device.state == t.state &&
              r.value.data.device.id == t.deviceId
  {
    match DecideSingle(w.rows, code)
    case NoTarget =>
    case NoDevice(_) =>
    case AlreadyInState(_) =>
    case Switch(t) =>
      var (w', r) := SingleEffect(w, code, ip, now);
      assert w'.logs[..|w.logs|] == w.logs;
      assert w'.events[..|w.events|] == w.events;
  }

  lemma {:induction false} FindByIdWithState(rows: seq<Device>, id: nat, s: DeviceState)
    requires FindById(rows, id).Some?
    ensures FindById(WithState(rows, id, s), id) == Some(FindById(rows, id).value.(state := s))
  {
    if rows[0].id != id {
      assert WithState(rows, id, s)[1..] == WithState(rows[1..], id, s);
      FindByIdWithState(rows[1..], id, s);
    }
  }

  /** Repeating a voice command is harmless on the single path: once the
      command has switched its device, the same command only reports that
      the device is already in that state. */
  lemma SingleCommandIdempotent(w: World, code: int, ip: Option<string>, now: int)
    requires Ascending(w.rows)
    ensures var (w1, _) := SingleEffect(w, code, ip, now);
            var (w2, r2) := SingleEffect(w1, code, ip, now);
            w2 == w1 && (r2.Ok? ==> r2.value.data.Notice?)
  {
    var d := DecideSingle(w.rows, code);
    if d.Switch? {
      FindByIdWithState(w.rows, d.target.deviceId, d.target.state);
    }
  }

  lemma AllWithStateAllIn(rows: seq<Device>, s: DeviceState)
    ensures AllInState(AllWithState(rows, s), s)
  {
  }

  /** The bulk codes are idempotent too: after code 9 (10) has run, every
      device is ON (OFF), so running it again only returns the notice. */
  lemma {:induction false} BulkCommandIdempotent(w: World, code: int, ip: Option<string>, now: int)
    requires code == 9 || code == 10
    ensures var (w1, _) := BulkEffect(w, code, ip, now);
            var (w2, r2) := BulkEffect(w1, code, ip, now);
            w2 == w1 && r2.Ok? && r2.value.data.Notice?
  {
    var (w1, _) := BulkEffect(w, code, ip, now);
    if BulkNotice(w.rows, code).None? {
      AllWithStateAllIn(w.rows, BulkState(code));
      assert AllInState(w1.rows, BulkState(code));
    }
  }

  /** Bulk path, when not already done: every device gets the target
      state and nothing else about it changes, one log per device in row
      order records its previous state (also for devices that already had
      the target state), one broadcast per device, and the reply lists the
      updated devices in row order. */
  lemma BulkEffectSpec(w: World, code: int, ip: Option<string>, now: int)
    requires BulkNotice(w.rows, code).None?
    ensures var (w', r) := BulkEffect(w, code, ip, now);
            |w'.rows| == |w.rows| &&
            (forall k :: 0 <= k < |w.rows| ==> w'.rows[k] == w.rows[k].(state := BulkState(code))) &&
            |w'.logs| == |w.logs| + |w.rows| && w'.logs[..|w.logs|] == w.logs &&
            (forall k :: 0 <= k < |w.rows| ==>
               w'.logs[|w.logs| + k].deviceId == w.rows[k].id &&
               w'.logs[|w.logs| + k].previousState == w.rows[k].state) &&
            |w'.events| == |w.events| + |w.rows| &&
            r.Ok? && r.value.data == Many(Views(w'.rows))
  {
    var (w', r) := BulkEffect(w, code, ip, now);
    assert w'.logs[..|w.logs|] == w.logs;
  }

  /** Code -1 touches nothing. */
  lemma NotFoundCodeChangesNothing(w: World, t: Transcript, ip: Option<string>, now: int)
    requires ExtractCode(t) == Ok(-1)
    ensures VoiceEffect(w, Returned(t), ip, now) == (w, Ok(AudioDevice(Notice(CodeNotFound), -1)))
  {
  }

  /** A code outside 1..10 other than -1 (0 or 11, say) is not reported as
      unrecognised: it reaches the single path and fails with 404. */
  lemma UnknownCodeIsDeviceNotFound(w: World, code: int, ip: Option<string>, now: int)
    requires code != -1 && !(1 <= code <= 10)
    ensures VoiceEffect(w, Returned(ObjectResult(Some(code))), ip, now) == (w, Err(NotFound, DeviceNotFound))
  {
  }

  /** A transcription without a code is the "not found" reply. */
  lemma MissingCodeIsNotFound(w: World, ip: Option<string>, now: int)
    ensures VoiceEffect(w, Returned(ObjectResult(None)), ip, now).1 == Ok(AudioDevice(Notice(CodeNotFound), -1))
    ensures VoiceEffect(w, Returned(OtherResult), ip, now).0 == w
  {
  }

  // ---------------------------------------------------------------------
  // The service

  /** `emitDeviceStateChange` for each device, in order. */
  method EmitEach(bus: EventBus, ds: seq<Device>)
    modifies bus
    ensures bus.events == old(bus.events) + Broadcasts(ds)
  {
    var i := 0;
    while i < |ds|
      invariant 0 <= i <= |ds|
      invariant bus.events == old(bus.events) + Broadcasts(ds[..i])
    {
      bus.Emit(DeviceStateChanged(ds[i]));
      assert Broadcasts(ds[..i + 1]) == Broadcasts(ds[..i]) + [DeviceStateChanged(ds[i])];
      i := i + 1;
    }
    assert ds[..i] == ds;
  }

  method UpdateSingleDeviceByCommandCode(store: DeviceStore, bus: EventBus, code: int, ip: Option<string>, now: int)
    returns (r: Result<AudioDevice>)
    requires store.Valid()
    modifies store, store.logRepo, bus
    ensures store.Valid()
    ensures (Snapshot(store, bus), r) == SingleEffect(old(Snapshot(store, bus)), code, ip, now)
  {
    var target := CommandTarget(code);
    if target.None? {
      return Err(NotFound, DeviceNotFound);
    }
    var deviceId, state := target.value.deviceId, target.value.state;
    var existing := FindById(store.rows, deviceId);
    if existing.None? {
      return Err(NotFound, DeviceNotFound);
    }
    if existing.value.state != state {
      assert DecideSingle(store.rows, code) == Switch(target.value);
      var updated := store.UpdateState(deviceId, state, ip, now);
      if updated.None? {
        return Err(NotFound, DeviceNotFound);
      }
      bus.Emit(DeviceStateChanged(updated.value));
      return Ok(AudioDevice(One(View(updated.value)), code));
    }
    return Ok(AudioDevice(Notice(AlreadyText(target.value)), code));
  }

  method UpdateAllDevicesByCommandCode(store: DeviceStore, bus: EventBus, code: int, ip: Option<string>, now: int)
    returns (r: Result<AudioDevice>)
    requires store.Valid()
    modifies store, store.logRepo, bus
    ensures store.Valid()
    ensures (Snapshot(store, bus), r) == BulkEffect(old(Snapshot(store, bus)), code, ip, now)
  {
    if code == 9 {
      if AllInState(store.rows, On) {
        return Ok(AudioDevice(Notice(AllOnNotice), code));
      }
    } else if code == 10 {
      if AllInState(store.rows, Off) {
        return Ok(AudioDevice(Notice(AllOffNotice), code));
      }
    }
    var state := if code == 9 then On else Off;
    var updated := store.UpdateAllState(state, ip, now);
    EmitEach(bus, updated);
    return Ok(AudioDevice(Many(Views(updated)), code));
  }

  /** `updateDeviceState`; `transcribed` stands for the converted and
      transcribed recording, or what that threw. */
  method UpdateDeviceState(store: DeviceStore, bus: EventBus, transcribed: Outcome<Transcript>, ip: Option<string>, now: int)
    returns (r: Result<AudioDevice>)
    requires store.Valid()
    modifies store, store.logRepo, bus
    ensures store.Valid()
    ensures (Snapshot(store, bus), r) == VoiceEffect(old(Snapshot(store, bus)), transcribed, ip, now)
  {
    if transcribed.Threw? {
      var info := ErrorInfoOf(transcribed.error);
      return Err(info.status, info.message);
    }
    var extracted := ExtractCode(transcribed.value);
    if extracted.Err? {
      return Err(extracted.status, extracted.message);
    }
    var code := extracted.value;
    if code == -1 {
      return Ok(AudioDevice(Notice(CodeNotFound), code));
    }
    if code == 9 || code == 10 {
      r := UpdateAllDevicesByCommandCode(store, bus, code, ip, now);
      return;
    }
    r := UpdateSingleDeviceByCommandCode(store, bus, code, ip, now);
  }
}
