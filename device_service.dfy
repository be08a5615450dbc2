/**
 * The device service of the current backend: reads that project rows and
 * log entries for the client, creation with an uploaded image, deletion,
 * and a manual state change that is written and logged without any
 * same-state guard, broadcast, and then sent to the ESP32. Every failure
 * is rethrown by the error wrapper as a CustomError with the same status
 * and message, so each operation's reply is a `Result`.
 */
module DeviceService {
  import opened Results
  import opened DeviceTypes
  import opened DeviceLogRepo
  import opened DeviceRepo
  import opened Events
  import opened Worlds
  import DeviceIot
  import Ordering

  const DeviceNotFound: string := "Device not found"
  const ImageNotFound: string := "Image not found"
  const NoDeviceDeleted: string := "No device deleted"

  /** `IDeviceLog` as this service builds it, with the device's id and name. */
  datatype LogView = LogView(id: nat, deviceId: nat, device: string, action: DeviceAction,
                             timestamp: int, previousState: DeviceState, ipAddress: string)

  /** `ipAddress || 'unknown'`. */
  function DisplayedIp(ip: string): (r: string)
    ensures ip != "" ==> r == ip
    ensures ip == "" ==> r == "unknown"
  {
    if ip == "" then "unknown" else ip
  }

  /** An address stored by `saveLog` is shown exactly as stored: the
      repository already replaced the empty ones. */
  lemma DisplayedIpOfStored(ip: Option<string>)
    ensures DisplayedIp(StoredIp(ip)) == StoredIp(ip)
    ensures ip.Some? && ip.value != "" ==> DisplayedIp(StoredIp(ip)) == ip.value
  {
  }

  /** `deviceLogInfo`: the entry with the id and name of its device. */
  function DeviceLogInfo(e: LogEntry, device: Device): (v: LogView)
    requires e.deviceId == device.id
    ensures v.id == e.id && v.deviceId == device.id && v.device == device.name
    ensures v.action == e.action && v.timestamp == e.timestamp && v.previousState == e.previousState
    ensures v.ipAddress != ""
  {
    LogView(e.id, device.id, device.name, e.action, e.timestamp, e.previousState, DisplayedIp(e.ipAddress))
  }

  function LogViews(logs: seq<LogEntry>, device: Device): (vs: seq<LogView>)
    requires forall e :: e in logs ==> e.deviceId == device.id
    ensures |vs| == |logs|
    ensures forall k :: 0 <= k < |logs| ==> vs[k] == DeviceLogInfo(logs[k], device)
  {
    seq(|logs|, k requires 0 <= k < |logs| => DeviceLogInfo(logs[k], device))
  }

  /** `getAllDevices`: every row's projection, in primary-key order. */
  function GetAllDevices(store: DeviceStore): (r: seq<DeviceView>)
    requires store.Valid()
    reads store, store.logRepo
    ensures |r| == |store.rows|
    ensures forall k :: 0 <= k < |r| ==> r[k] == View(store.rows[k])
    ensures forall i, j :: 0 <= i < j < |r| ==> r[i].id < r[j].id
  {
    Views(store.FindAll())
  }

  /** `getDeviceById`: the projection of the row with that key, or 404. */
  function GetDeviceById(rows: seq<Device>, id: nat): (r: Result<DeviceView>)
    ensures r.Ok? <==> id in Ids(rows)
    ensures r.Ok? ==> r.value.id == id && exists d :: d in rows && r.value == View(d)
    ensures r.Err? ==> r == Err(NotFound, DeviceNotFound)
  {
    match FindById(rows, id)
    case None => Err(NotFound, DeviceNotFound)
    case Some(d) => Ok(View(d))
  }

  /** `getDeviceLogs` as intended, with the repository's query for one
      device's entries (`getLogsByDeviceId`): 404 for a missing device,
      otherwise that device's entries, newest first, each with the device's
      name. */
  function GetDeviceLogs(store: DeviceStore, id: nat): (r: Result<seq<LogView>>)
    requires store.Valid()
    reads store, store.logRepo
    ensures r.Ok? <==> id in Ids(store.rows)
    ensures r.Err? ==> r == Err(NotFound, DeviceNotFound)
    ensures r.Ok? ==> |r.value| == |OfDevice(store.logRepo.logs, id)|
    ensures r.Ok? ==> forall v :: v in r.value ==> v.deviceId == id
    ensures r.Ok? ==> forall i, j :: 0 <= i < j < |r.value| ==> r.value[i].timestamp >= r.value[j].timestamp
    ensures r.Ok? ==> exists entries: seq<LogEntry> ::
              multiset(entries) == multiset(OfDevice(store.logRepo.logs, id)) &&
              (forall e :: e in entries ==> e.deviceId == FindById(store.rows, id).value.id) &&
              r.value == LogViews(entries, FindById(store.rows, id).value)
  {
    match FindById(store.rows, id)
    case None => Err(NotFound, DeviceNotFound)
    case Some(device) =>
      var logs := store.logRepo.LogsByDeviceId(id);
      assert |logs| == |multiset(logs)| == |multiset(OfDevice(store.logRepo.logs, id))| == |OfDevice(store.logRepo.logs, id)|;
      Ok(LogViews(logs, device))
  }

  /** What the wrapper reports for the call to `getDeviceLogs`, a method the
      log repository it imports does not have: calling `undefined` throws a
      TypeError, a plain Error, which becomes a 500 with its message. Only
      the status is certain: the engine words the message after the
      compiled property access, so this text stands for whatever it says. */
  const MissingQueryMessage: string := "deviceLogRepo.getDeviceLogs is not a function"

  /** `getDeviceLogs` as written: the existence check passes for a known
      device, and the repository call then throws. */
  function GetDeviceLogsAsWritten(rows: seq<Device>, id: nat): (r: Result<seq<LogView>>)
    ensures id !in Ids(rows) ==> r == Err(NotFound, DeviceNotFound)
    ensures id in Ids(rows) ==> r == Err(InternalServerError, MissingQueryMessage)
  {
    match GetDeviceById(rows, id)
    case Err(status, message) => Err(status, message)
    case Ok(_) => Err(InternalServerError, MissingQueryMessage)
  }

  /** As written the endpoint never returns a history: for every existing
      device it fails where the intended query (`GetDeviceLogs`, the
      repository's `getLogsByDeviceId`) succeeds. */
  lemma DeviceLogsAsWrittenAlwaysFail(store: DeviceStore, id: nat)
    requires store.Valid() && id in Ids(store.rows)
    ensures GetDeviceLogsAsWritten(store.rows, id).Err?
    ensures GetDeviceLogs(store, id).Ok?
  {
  }

  /** The uploaded file: only its stored name matters here. */
  datatype Upload = Upload(filename: string)

  /** `createDevice` as a function of the world. */
  function CreateEffect(w: World, deviceData: DeviceInput, img: Option<Upload>, now: int): (World, Result<DeviceView>) {
    if img.None? then (w, Err(NotFound, ImageNotFound))
    else
      var d := Device(w.nextId, deviceData.name, deviceData.labelText, img.value.filename, deviceData.state, now);
      (w.(rows := w.rows + [d], nextId := w.nextId + 1), Ok(View(d)))
  }

  /** Without an image nothing is created; with one, exactly one row is
      added, under a fresh key and with the upload's name as its image,
      whatever image the request carried. */
  lemma CreateSpec(w: World, deviceData: DeviceInput, img: Option<Upload>, now: int)
    requires forall k :: 0 <= k < |w.rows| ==> w.rows[k].id < w.nextId
    ensures img.None? ==> CreateEffect(w, deviceData, img, now) == (w, Err(NotFound, ImageNotFound))
    ensures img.Some? ==>
              var (w', r) := CreateEffect(w, deviceData, img, now);
              r.Ok? && r.value.image == img.value.filename && r.value.id !in Ids(w.rows) &&
              |w'.rows| == |w.rows| + 1 && w'.rows[..|w.rows|] == w.rows &&
              View(w'.rows[|w.rows|]) == r.value &&
              w'.logs == w.logs && w'.events == w.events
  {
    if img.Some? {
      var (w', r) := CreateEffect(w, deviceData, img, now);
      assert w'.rows[..|w.rows|] == w.rows;
      assert forall k :: 0 <= k < |Ids(w.rows)| ==> Ids(w.rows)[k] != r.value.id;
    }
  }

  /** `deleteDevice` as a function of the world: 404 unless the device
      exists; otherwise its row and, by the cascade, its log entries go. */
  function DeleteEffect(w: World, id: nat): (World, Result<bool>) {
    if id !in Ids(w.rows) then (w, Err(NotFound, DeviceNotFound))
    else (w.(rows := Without(w.rows, id), logs := NotOfDevice(w.logs, id)), Ok(true))
  }

  /** A delete either fails with nothing changed or removes exactly that
      device and its history, keeping every other row and entry. */
  lemma DeleteSpec(w: World, id: nat)
    ensures id !in Ids(w.rows) ==> DeleteEffect(w, id) == (w, Err(NotFound, DeviceNotFound))
    ensures id in Ids(w.rows) ==>
              var (w', r) := DeleteEffect(w, id);
              r == Ok(true) && id !in Ids(w'.rows) &&
              (forall d :: d in w'.rows <==> d in w.rows && d.id != id) &&
              (forall e :: e in w'.logs <==> e in w.logs && e.deviceId != id) &&
              w'.nextId == w.nextId && w'.nextLogId == w.nextLogId && w'.events == w.events
  {
    if id in Ids(w.rows) {
      var (w', r) := DeleteEffect(w, id);
      if id in Ids(w'.rows) {
        var row := RowOfId(w'.rows, id);
        assert false;
      }
    }
  }

  /** `updateDeviceState` as a function of the world: 404 unless the
      device exists; otherwise the write and its log entry, the broadcast
      of the updated row, then the control request to the ESP32. */
  function UpdateEffect(w: World, id: nat, state: DeviceState, ip: Option<string>, now: int, iotUri: Option<string>)
    : (World, Result<DeviceView>)
  {
    match FindById(w.rows, id)
    case None => (w, Err(NotFound, DeviceNotFound))
    case Some(before) => (Written(w, id, state, ip, now, iotUri), Ok(View(before.(state := state))))
  }

  function Written(w: World, id: nat, state: DeviceState, ip: Option<string>, now: int, iotUri: Option<string>): World
    requires FindById(w.rows, id).Some?
  {
    var before := FindById(w.rows, id).value;
    World(WithState(w.rows, id, state), w.nextId,
          w.logs + [LogEntry(w.nextLogId, id, ActionFor(state), before.state, now, StoredIp(ip))],
          w.nextLogId + 1,
          w.events + [DeviceStateChanged(before.(state := state)),
                      ControlRequest(DeviceIot.ControlUrl(iotUri, id, state), DeviceIot.RequestTimeoutMs)])
  }

  /** There is no same-state guard: setting a device to the state it
      already has still appends a log entry (with that state as the
      previous one), broadcasts and calls the board; the reply carries the
      requested state. */
  lemma UpdateAlwaysWrites(w: World, id: nat, state: DeviceState, ip: Option<string>, now: int, iotUri: Option<string>)
    requires id in Ids(w.rows)
    ensures var (w', r) := UpdateEffect(w, id, state, ip, now, iotUri);
      r.Ok? && r.value.id == id && r.value.state == state &&
      |w'.logs| == |w.logs| + 1 && w'.logs[|w.logs|].previousState == FindById(w.rows, id).value.state &&
      w'.logs[|w.logs|].action == ActionFor(state) &&
      |w'.events| == |w.events| + 2 && w'.events[|w.events|].DeviceStateChanged? &&
      w'.events[|w.events| + 1].ControlRequest?
  {
  }

  /** A request for a missing device changes nothing and sends nothing. */
  lemma UpdateMissingChangesNothing(w: World, id: nat, state: DeviceState, ip: Option<string>, now: int, iotUri: Option<string>)
    requires id !in Ids(w.rows)
    ensures UpdateEffect(w, id, state, ip, now, iotUri) == (w, Err(NotFound, DeviceNotFound))
  {
  }

  /** The same request twice leaves the rows as one request does, but logs
      and broadcasts twice. */
  lemma UpdateTwiceLogsTwice(w: World, id: nat, state: DeviceState, ip: Option<string>, now: int, iotUri: Option<string>)
    requires Ascending(w.rows) && id in Ids(w.rows)
    ensures var once := UpdateEffect(w, id, state, ip, now, iotUri).0;
      var twice := UpdateEffect(once, id, state, ip, now, iotUri).0;
      twice.rows == once.rows && |twice.logs| == |w.logs| + 2 && |twice.events| == |w.events| + 4
  {
    var once := UpdateEffect(w, id, state, ip, now, iotUri).0;
    WithStateTwice(w.rows, id, state);
  }

  /** After the write the device is found again, already in that state, so
      writing it again changes no row. */
  lemma WithStateTwice(rows: seq<Device>, id: nat, s: DeviceState)
    requires id in Ids(rows)
    ensures WithState(WithState(rows, id, s), id, s) == WithState(rows, id, s)
    ensures id in Ids(WithState(rows, id, s))
  {
    var once := WithState(rows, id, s);
    assert Ids(once) == Ids(rows);
  }

  /** `createDevice`: the image is set to the upload's name before the
      row is created. */
  method CreateDevice(store: DeviceStore, bus: EventBus, deviceData: DeviceInput, img: Option<Upload>, now: int)
    returns (r: Result<DeviceView>)
    requires store.Valid()
    modifies store
    ensures store.Valid()
    ensures (Snapshot(store, bus), r) == CreateEffect(old(Snapshot(store, bus)), deviceData, img, now)
  {
    if img.None? {
      return Err(NotFound, ImageNotFound);
    }
    var data := deviceData.(image := img.value.filename);
    var device := store.Create(data, now);
    return Ok(View(device));
  }

  /** `deleteDevice`: the existence check through `getDeviceById`, then
      the delete. */
  method DeleteDevice(store: DeviceStore, bus: EventBus, id: nat) returns (r: Result<bool>)
    requires store.Valid()
    modifies store, store.logRepo
    ensures store.Valid()
    ensures (Snapshot(store, bus), r) == DeleteEffect(old(Snapshot(store, bus)), id)
  {
    var found := GetDeviceById(store.rows, id);
    if found.Err? {
      return Err(found.status, found.message);
    }
    var result := store.Delete(id);
    if !result {
      return Err(NotFound, NoDeviceDeleted);
    }
    return Ok(result);
  }

  /** `updateDeviceState`; `requestFails` says whether the HTTP request to
      the board fails, which the IoT call swallows. */
  method UpdateDeviceState(store: DeviceStore, bus: EventBus, id: nat, state: DeviceState, ip: Option<string>, now: int,
                           iotUri: Option<string>, requestFails: bool)
    returns (r: Result<DeviceView>)
    requires store.Valid()
    modifies store, store.logRepo, bus
    ensures store.Valid()
    ensures (Snapshot(store, bus), r) == UpdateEffect(old(Snapshot(store, bus)), id, state, ip, now, iotUri)
  {
    var found := GetDeviceById(store.rows, id);
    if found.Err? {
      return Err(found.status, found.message);
    }
    ghost var w := Snapshot(store, bus);
    var updatedDevice := WriteAndNotify(store, bus, id, state, ip, now, iotUri, requestFails);
    assert Snapshot(store, bus) == Written(w, id, state, ip, now, iotUri);
    return Ok(View(updatedDevice));
  }

  /** The write, the broadcast and the control request, for a device that
      exists. */
  method WriteAndNotify(store: DeviceStore, bus: EventBus, id: nat, state: DeviceState, ip: Option<string>, now: int,
                        iotUri: Option<string>, requestFails: bool)
    returns (updated: Device)
    requires store.Valid() && id in Ids(store.rows)
    modifies store, store.logRepo, bus
    ensures store.Valid()
    ensures updated == FindById(old(store.rows), id).value.(state := state)
    ensures store.rows == WithState(old(store.rows), id, state) && store.nextId == old(store.nextId)
    ensures store.logRepo.logs == old(store.logRepo.logs) +
              [LogEntry(old(store.logRepo.nextLogId), id, ActionFor(state), FindById(old(store.rows), id).value.state, now, StoredIp(ip))]
    ensures store.logRepo.nextLogId == old(store.logRepo.nextLogId) + 1
    ensures bus.events == old(bus.events) +
              [DeviceStateChanged(updated), ControlRequest(DeviceIot.ControlUrl(iotUri, id, state), DeviceIot.RequestTimeoutMs)]
  {
    ghost var before := bus.events;
    updated := WriteAndEmit(store, bus, id, state, ip, now);
    var _ := DeviceIot.ControlDevice(bus, iotUri, id, state, requestFails);
    ghost var request := ControlRequest(DeviceIot.ControlUrl(iotUri, id, state), DeviceIot.RequestTimeoutMs);
    assert bus.events == before + [DeviceStateChanged(updated)] + [request];
  }

  /** The repository write and its broadcast. */
  method WriteAndEmit(store: DeviceStore, bus: EventBus, id: nat, state: DeviceState, ip: Option<string>, now: int)
    returns (updated: Device)
    requires store.Valid() && id in Ids(store.rows)
    modifies store, store.logRepo, bus
    ensures store.Valid()
    ensures updated == FindById(old(store.rows), id).value.(state := state)
    ensures store.rows == WithState(old(store.rows), id, state) && store.nextId == old(store.nextId)
    ensures store.logRepo.logs == old(store.logRepo.logs) +
              [LogEntry(old(store.logRepo.nextLogId), id, ActionFor(state), FindById(old(store.rows), id).value.state, now, StoredIp(ip))]
    ensures store.logRepo.nextLogId == old(store.logRepo.nextLogId) + 1
    ensures bus.events == old(bus.events) + [DeviceStateChanged(updated)]
  {
    var updatedDevice := store.UpdateState(id, state, ip, now);
    updated := updatedDevice.value;
    bus.Emit(DeviceStateChanged(updated));
  }
}
