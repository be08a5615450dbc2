/**
 * The device and device-log records (the `devices` and `device_logs`
 * tables), the state and action enums, and the public projection of a
 * device (`IDevice`).
 */
module DeviceTypes {
  import opened Results

  /** `DeviceState`: stored as 'on' / 'off'. */
  datatype DeviceState = On | Off

  /** `DeviceAction`: stored as 'turn_on' / 'turn_off'. */
  datatype DeviceAction = TurnOn | TurnOff

  function StateText(s: DeviceState): string {
    match s
    case On => "on"
    case Off => "off"
  }

  /** The action a write of state `s` is logged as. */
  function ActionFor(s: DeviceState): DeviceAction {
    if s == On then TurnOn else TurnOff
  }

  /** A row of `devices`; `createdAt` is the creation instant in ms. */
  datatype Device = Device(id: nat, name: string, labelText: string, image: string, state: DeviceState, createdAt: int)

  /** A row of `device_logs`; `deviceId` is the foreign key to `devices`,
      `timestamp` the insertion instant in ms. */
  datatype LogEntry = LogEntry(id: nat, deviceId: nat, action: DeviceAction, previousState: DeviceState, timestamp: int, ipAddress: string)

  /** `IDevice`, what the services return and broadcast about a device. */
  datatype DeviceView = DeviceView(id: nat, name: string, labelText: string, image: string, state: DeviceState, createdAt: int)

  /** `deviceInfo`: the projection of a row onto its public fields. */
  function View(d: Device): (v: DeviceView)
    ensures v.id == d.id && v.name == d.name && v.labelText == d.labelText
    ensures v.image == d.image && v.state == d.state && v.createdAt == d.createdAt
  {
    DeviceView(d.id, d.name, d.labelText, d.image, d.state, d.createdAt)
  }

  function Views(ds: seq<Device>): (vs: seq<DeviceView>)
    ensures |vs| == |ds| && forall k :: 0 <= k < |ds| ==> vs[k] == View(ds[k])
  {
    seq(|ds|, k requires 0 <= k < |ds| => View(ds[k]))
  }

  /** Rows are kept in ascending primary-key order, the order in which
      InnoDB returns them to an unordered `find()`. */
  predicate Ascending(rows: seq<Device>) {
    forall i, j :: 0 <= i < j < |rows| ==> rows[i].id < rows[j].id
  }

  /** The primary keys of the rows, in row order. */
  function Ids(rows: seq<Device>): (ids: seq<nat>)
    ensures |ids| == |rows| && forall k :: 0 <= k < |rows| ==> ids[k] == rows[k].id
  {
    seq(|rows|, k requires 0 <= k < |rows| => rows[k].id)
  }

  /** `findOneBy({ id })`. */
  function FindById(rows: seq<Device>, id: nat): (r: Option<Device>)
    ensures r.Some? ==> r.value in rows && r.value.id == id
    ensures r.None? <==> id !in Ids(rows)
  {
    if rows == [] then None
    else if rows[0].id == id then Some(rows[0])
    else
      assert rows == [rows[0]] + rows[1..];
      FindById(rows[1..], id)
  }

  /** The row with the given id, with its state replaced (what `save`
      writes back); other rows unchanged. */
  function WithState(rows: seq<Device>, id: nat, s: DeviceState): (r: seq<Device>)
    ensures |r| == |rows|
    ensures forall k :: 0 <= k < |rows| ==> r[k] == if rows[k].id == id then rows[k].(state := s) else rows[k]
  {
    seq(|rows|, k requires 0 <= k < |rows| => if rows[k].id == id then rows[k].(state := s) else rows[k])
  }

  /** Every row with its state replaced. */
  function AllWithState(rows: seq<Device>, s: DeviceState): (r: seq<Device>)
    ensures |r| == |rows|
    ensures forall k :: 0 <= k < |rows| ==> r[k] == rows[k].(state := s)
  {
    seq(|rows|, k requires 0 <= k < |rows| => rows[k].(state := s))
  }

  /** `checkAllDevicesOn` / `checkAllDevicesOff`: every device's state is `s`. */
  predicate AllInState(rows: seq<Device>, s: DeviceState) {
    forall k :: 0 <= k < |rows| ==> rows[k].state == s
  }
}
