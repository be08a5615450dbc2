/**
 * The older device service (over the `database` repositories and the
 * error wrapper without a Joi branch). Listing, lookup, creation and
 * deletion are the same code as the current service and are modelled by
 * its members; what differs is the log projection, which carries no
 * device id, and the manual state change, which broadcasts the raw
 * entity through `getIO()` and never calls the ESP32.
 */
module LegacyDeviceService {
  import opened Results
  import opened DeviceTypes
  import opened DeviceLogRepo
  import opened DeviceRepo
  import opened Events
  import opened Worlds
  import opened DeviceService

  /** `IDeviceLog` as the older service builds it: no device id. */
  datatype LegacyLogView = LegacyLogView(id: nat, device: string, action: DeviceAction,
                                         timestamp: int, previousState: DeviceState, ipAddress: string)

  /** `deviceLogInfo`: the entry with its device's name and a non-empty
      address. */
  function LegacyDeviceLogInfo(e: LogEntry, device: Device): (v: LegacyLogView)
    requires e.deviceId == device.id
    ensures var current := DeviceLogInfo(e, device);
      v == LegacyLogView(current.id, current.device, current.action, current.timestamp, current.previousState, current.ipAddress)
    ensures v.ipAddress != ""
  {
    LegacyLogView(e.id, device.name, e.action, e.timestamp, e.previousState, DisplayedIp(e.ipAddress))
  }

  /** `getDeviceLogs`: 404 for a missing device, otherwise that device's
      entries newest first. */
  function LegacyGetDeviceLogs(store: DeviceStore, id: nat): (r: Result<seq<LegacyLogView>>)
    requires store.Valid()
    reads store, store.logRepo
    ensures r.Ok? <==> id in Ids(store.rows)
    ensures r.Err? ==> r == Err(NotFound, DeviceNotFound)
    ensures r.Ok? ==> exists entries: seq<LogEntry> ::
              multiset(entries) == multiset(OfDevice(store.logRepo.logs, id)) && |entries| == |r.value| &&
              (forall e :: e in entries ==> e.deviceId == FindById(store.rows, id).value.id) &&
              forall k :: 0 <= k < |entries| ==>
                r.value[k] == LegacyDeviceLogInfo(entries[k], FindById(store.rows, id).value)
  {
    match FindById(store.rows, id)
    case None => Err(NotFound, DeviceNotFound)
    case Some(device) =>
      var logs := store.logRepo.LogsByDeviceId(id);
      var views := seq(|logs|, k requires 0 <= k < |logs| => LegacyDeviceLogInfo(logs[k], device));
      assert forall k :: 0 <= k < |logs| ==> views[k] == LegacyDeviceLogInfo(logs[k], device);
      Ok(views)
  }

  /** Entry for entry, the older history is the current one without the
      device id. */
  lemma LegacyLogsMatchCurrent(store: DeviceStore, id: nat)
    requires store.Valid() && id in Ids(store.rows)
    ensures var legacy := LegacyGetDeviceLogs(store, id).value;
      var current := GetDeviceLogs(store, id).value;
      |legacy| == |current| &&
      forall k :: 0 <= k < |legacy| ==>
        legacy[k] == LegacyLogView(current[k].id, current[k].device, current[k].action,
                                   current[k].timestamp, current[k].previousState, current[k].ipAddress)
  {
    var device := FindById(store.rows, id).value;
    var logs := store.logRepo.LogsByDeviceId(id);
    assert GetDeviceLogs(store, id).value == LogViews(logs, device);
  }

  /** `updateDeviceState` of the older service as a function of the world:
      the existence check, the write and its log entry, and the broadcast. */
  function LegacyUpdateEffect(w: World, id: nat, state: DeviceState, ip: Option<string>, now: int): (World, Result<DeviceView>) {
    match FindById(w.rows, id)
    case None => (w, Err(NotFound, DeviceNotFound))
    case Some(before) =>
      var updated := before.(state := state);
      (World(WithState(w.rows, id, state), w.nextId,
             w.logs + [LogEntry(w.nextLogId, id, ActionFor(state), before.state, now, StoredIp(ip))],
             w.nextLogId + 1, w.events + [DeviceStateChanged(updated)]),
       Ok(View(updated)))
  }

  /** The two services agree on the reply, the rows and the log; the older
      one sends nothing to the ESP32, so its record lacks exactly the
      control request. */
  lemma LegacyDiffersOnlyByControlRequest(w: World, id: nat, state: DeviceState, ip: Option<string>, now: int, iotUri: Option<string>)
    ensures var (lw, lr) := LegacyUpdateEffect(w, id, state, ip, now);
      var (cw, cr) := UpdateEffect(w, id, state, ip, now, iotUri);
      lr == cr && lw.rows == cw.rows && lw.logs == cw.logs && lw.nextLogId == cw.nextLogId &&
      (id in Ids(w.rows) ==> cw.events == lw.events + [cw.events[|cw.events| - 1]] && cw.events[|cw.events| - 1].ControlRequest?) &&
      (id !in Ids(w.rows) ==> lw == cw == w)
  {
    if id in Ids(w.rows) {
      var (lw, lr) := LegacyUpdateEffect(w, id, state, ip, now);
      var (cw, cr) := UpdateEffect(w, id, state, ip, now, iotUri);
      assert cw.events == lw.events + [cw.events[|cw.events| - 1]];
    }
  }

  /** `updateDeviceState` of the older service. */
  method LegacyUpdateDeviceState(store: DeviceStore, bus: EventBus, id: nat, state: DeviceState, ip: Option<string>, now: int)
    returns (r: Result<DeviceView>)
    requires store.Valid()
    modifies store, store.logRepo, bus
    ensures store.Valid()
    ensures (Snapshot(store, bus), r) == LegacyUpdateEffect(old(Snapshot(store, bus)), id, state, ip, now)
  {
    var found := GetDeviceById(store.rows, id);
    if found.Err? {
      return Err(found.status, found.message);
    }
    ghost var w := Snapshot(store, bus);
    var updateDevice := WriteAndEmit(store, bus, id, state, ip, now);
    assert Snapshot(store, bus) == LegacyUpdateEffect(w, id, state, ip, now).0;
    return Ok(View(updateDevice));
  }
}
