/**
 * The device-log repository: an append-only `device_logs` table with an
 * auto-increment id, and its two timestamp-ordered queries. The older copy
 * of this repository (its `saveLog` and `getDeviceLogs`) has the same code
 * and is modelled by the same class.
 */
module DeviceLogRepo {
  import opened Results
  import opened DeviceTypes
  import Ordering

  /** The address stored with a log: a missing or empty address becomes
      'unknown', any other is kept. */
  function StoredIp(ip: Option<string>): (r: string)
    ensures ip.Some? && ip.value != "" ==> r == ip.value
    ensures ip.None? || ip.value == "" ==> r == "unknown"
    ensures r != ""
  {
    if ip.None? || ip.value == "" then "unknown" else ip.value
  }

  function Timestamp(e: LogEntry): int {
    e.timestamp
  }

  /** `where: { device: { id } }`: the entries of one device, in table order. */
  function OfDevice(logs: seq<LogEntry>, deviceId: nat): (r: seq<LogEntry>)
    ensures forall e :: e in r <==> e in logs && e.deviceId == deviceId
    ensures |r| <= |logs|
  {
    if logs == [] then []
    else
      assert logs == [logs[0]] + logs[1..];
      (if logs[0].deviceId == deviceId then [logs[0]] else []) + OfDevice(logs[1..], deviceId)
  }

  /** The entries of every device except one: what an `ON DELETE CASCADE`
      leaves when that device is deleted. */
  function NotOfDevice(logs: seq<LogEntry>, deviceId: nat): (r: seq<LogEntry>)
    ensures forall e :: e in r <==> e in logs && e.deviceId != deviceId
  {
    if logs == [] then []
    else
      assert logs == [logs[0]] + logs[1..];
      (if logs[0].deviceId != deviceId then [logs[0]] else []) + NotOfDevice(logs[1..], deviceId)
  }

  predicate IdsAscending(logs: seq<LogEntry>) {
    forall i, j :: 0 <= i < j < |logs| ==> logs[i].id < logs[j].id
  }

  lemma {:induction false} NotOfDeviceKeepsIdOrder(logs: seq<LogEntry>, deviceId: nat)
    requires IdsAscending(logs)
    ensures IdsAscending(NotOfDevice(logs, deviceId))
  {
    if logs != [] {
      assert logs == [logs[0]] + logs[1..];
      NotOfDeviceKeepsIdOrder(logs[1..], deviceId);
      var rest := NotOfDevice(logs[1..], deviceId);
      assert forall e :: e in rest ==> e in logs[1..];
    }
  }

  class LogStore {
    var logs: seq<LogEntry>
    var nextLogId: nat

    ghost predicate Valid()
      reads this
    {
      IdsAscending(logs) && forall k :: 0 <= k < |logs| ==> logs[k].id < nextLogId
    }

    constructor ()
      ensures Valid() && logs == [] && nextLogId == 1
    {
      logs := [];
      nextLogId := 1;
    }

    /** `saveLog`: appends exactly one entry for the device, with the
        given action and previous state, stamped `now`. */
    method SaveLog(device: Device, action: DeviceAction, previousState: DeviceState, ip: Option<string>, now: int)
      requires Valid()
      modifies this
      ensures Valid()
      ensures logs == old(logs) + [LogEntry(old(nextLogId), device.id, action, previousState, now, StoredIp(ip))]
      ensures nextLogId == old(nextLogId) + 1
    {
      var ipAddress := ip;
      if ipAddress.None? || ipAddress.value == "" {
        ipAddress := Some("unknown");
      }
      logs := logs + [LogEntry(nextLogId, device.id, action, previousState, now, ipAddress.value)];
      nextLogId := nextLogId + 1;
    }

    /** `getLogsByDeviceId` (and the older `getDeviceLogs`): exactly that
        device's entries, newest first. */
    function LogsByDeviceId(deviceId: nat): (r: seq<LogEntry>)
      reads this
      ensures forall e :: e in r <==> e in logs && e.deviceId == deviceId
      ensures multiset(r) == multiset(OfDevice(logs, deviceId))
      ensures Ordering.SortedDesc(r, Timestamp)
    {
      var r := Ordering.SortDesc(OfDevice(logs, deviceId), Timestamp);
      assert forall e :: e in r <==> e in multiset(r);
      r
    }

    /** `getAllLogs`: every stored entry, newest first. */
    function AllLogs(): (r: seq<LogEntry>)
      reads this
      ensures multiset(r) == multiset(logs)
      ensures Ordering.SortedDesc(r, Timestamp)
    {
      Ordering.SortDesc(logs, Timestamp)
    }

    /** The cascade the database applies when a device row is deleted. */
    method DeleteOfDevice(deviceId: nat)
      requires Valid()
      modifies this
      ensures Valid()
      ensures logs == NotOfDevice(old(logs), deviceId) && nextLogId == old(nextLogId)
    {
      NotOfDeviceKeepsIdOrder(logs, deviceId);
      logs := NotOfDevice(logs, deviceId);
    }
  }
}
