/**
 * The device repository over the `devices` table. Every state write goes
 * through here and is followed by exactly one log entry in the log store,
 * which the `devices` rows own: deleting a device cascades to its logs.
 */
module DeviceRepo {
  import opened Results
  import opened DeviceTypes
  import opened DeviceLogRepo

  /** The fields a new row is created from (`Partial<Device>` as the
      service fills it); id and creation time come from the database. */
  datatype DeviceInput = DeviceInput(name: string, labelText: string, image: string, state: DeviceState)

  /** `DELETE ... WHERE id = ?`: the rows other than the one with `id`. */
  function Without(rows: seq<Device>, id: nat): (r: seq<Device>)
    ensures forall d :: d in r <==> d in rows && d.id != id
    ensures |r| <= |rows|
  {
    if rows == [] then []
    else
      assert rows == [rows[0]] + rows[1..];
      (if rows[0].id != id then [rows[0]] else []) + Without(rows[1..], id)
  }

  lemma {:induction false} WithoutKeepsOrder(rows: seq<Device>, id: nat)
    requires Ascending(rows)
    ensures Ascending(Without(rows, id))
  {
    if rows != [] {
      assert rows == [rows[0]] + rows[1..];
      WithoutKeepsOrder(rows[1..], id);
      var rest := Without(rows[1..], id);
      assert forall d :: d in rest ==> d in rows[1..];
    }
  }

  lemma IdOfRow(rows: seq<Device>, d: Device)
    requires d in rows
    ensures d.id in Ids(rows)
  {
    var k :| 0 <= k < |rows| && rows[k] == d;
    assert Ids(rows)[k] == d.id;
  }

  lemma RowOfId(rows: seq<Device>, id: nat) returns (d: Device)
    requires id in Ids(rows)
    ensures d in rows && d.id == id
  {
    var k :| 0 <= k < |Ids(rows)| && Ids(rows)[k] == id;
    d := rows[k];
  }

  /** The log entries `updateAllState` writes for the rows `ds`, the
      first one getting id `firstId`: one per row, in row order, each
      recording the row's state before the write. */
  function BulkLogs(ds: seq<Device>, firstId: nat, s: DeviceState, ip: Option<string>, now: int): (r: seq<LogEntry>)
    ensures |r| == |ds|
    ensures forall k :: 0 <= k < |ds| ==>
              r[k] == LogEntry(firstId + k, ds[k].id, ActionFor(s), ds[k].state, now, StoredIp(ip))
  {
    seq(|ds|, k requires 0 <= k < |ds| => LogEntry(firstId + k, ds[k].id, ActionFor(s), ds[k].state, now, StoredIp(ip)))
  }

  /** One step of the bulk update: writing row `i` turns the first `i`
      updated rows into the first `i + 1`. */
  lemma StepRows(devices: seq<Device>, i: nat, s: DeviceState)
    requires Ascending(devices) && i < |devices|
    ensures WithState(AllWithState(devices[..i], s) + devices[i..], devices[i].id, s)
            == AllWithState(devices[..i + 1], s) + devices[i + 1..]
  {
    var a := WithState(AllWithState(devices[..i], s) + devices[i..], devices[i].id, s);
    var b := AllWithState(devices[..i + 1], s) + devices[i + 1..];
    assert |a| == |b|;
    forall k | 0 <= k < |a|
      ensures a[k] == b[k]
    {
      if k < i { assert devices[k].id < devices[i].id; }
      if k > i { assert devices[i].id < devices[k].id; }
    }
  }

  lemma StepUpdated(devices: seq<Device>, i: nat, s: DeviceState)
    requires i < |devices|
    ensures AllWithState(devices[..i], s) + [devices[i].(state := s)] == AllWithState(devices[..i + 1], s)
  {
  }

  lemma StepLogs(oldLogs: seq<LogEntry>, before: seq<LogEntry>, after: seq<LogEntry>, devices: seq<Device>, i: nat,
                 firstId: nat, logId: nat, s: DeviceState, ip: Option<string>, now: int)
    requires i < |devices| && logId == firstId + i
    requires before == oldLogs + BulkLogs(devices[..i], firstId, s, ip, now)
    requires after == before + [LogEntry(logId, devices[i].id, ActionFor(s), devices[i].state, now, StoredIp(ip))]
    ensures after == oldLogs + BulkLogs(devices[..i + 1], firstId, s, ip, now)
  {
    var e := LogEntry(firstId + i, devices[i].id, ActionFor(s), devices[i].state, now, StoredIp(ip));
    assert BulkLogs(devices[..i], firstId, s, ip, now) + [e] == BulkLogs(devices[..i + 1], firstId, s, ip, now);
  }

  class DeviceStore {
    var rows: seq<Device>
    var nextId: nat
    const logRepo: LogStore

    /** Rows in primary-key order, keys below the auto-increment counter
        (so a deleted key is never reused), and every log entry pointing
        at an existing row. */
    ghost predicate Valid()
      reads this, logRepo
    {
      logRepo.Valid() &&
      Ascending(rows) && 0 < nextId &&
      (forall k :: 0 <= k < |rows| ==> 0 < rows[k].id < nextId) &&
      (forall e :: e in logRepo.logs ==> e.deviceId in Ids(rows))
    }

    constructor ()
      ensures Valid() && fresh(logRepo)
      ensures rows == [] && nextId == 1 && logRepo.logs == []
    {
      rows := [];
      nextId := 1;
      logRepo := new LogStore();
    }

    /** `findAll`: every row, in primary-key order. */
    function FindAll(): (r: seq<Device>)
      requires Valid()
      reads this, logRepo
      ensures Ascending(r) && forall d :: d in r <==> d in rows
    {
      rows
    }

    /** `create` followed by `save`: a new row with the next key, created
        `now`; nothing else changes. */
    method Create(input: DeviceInput, now: int) returns (d: Device)
      requires Valid()
      modifies this
      ensures Valid()
      ensures d == Device(old(nextId), input.name, input.labelText, input.image, input.state, now)
      ensures rows == old(rows) + [d] && nextId == old(nextId) + 1
      ensures d.id !in Ids(old(rows))
    {
      d := Device(nextId, input.name, input.labelText, input.image, input.state, now);
      assert forall e :: e in logRepo.logs ==> e.deviceId in Ids(rows + [d]) by {
        forall e | e in logRepo.logs
          ensures e.deviceId in Ids(rows + [d])
        {
          var row := RowOfId(rows, e.deviceId);
          IdOfRow(rows + [d], row);
        }
      }
      if d.id in Ids(rows) {
        var row := RowOfId(rows, d.id);
        assert false;
      }
      rows := rows + [d];
      nextId := nextId + 1;
    }

    /** `delete`: reports whether a row was removed; the row goes and so do
        its log entries (`ON DELETE CASCADE`). */
    method Delete(id: nat) returns (deleted: bool)
      requires Valid()
      modifies this, logRepo
      ensures Valid()
      ensures deleted <==> id in Ids(old(rows))
      ensures rows == Without(old(rows), id) && nextId == old(nextId)
      ensures logRepo.logs == NotOfDevice(old(logRepo.logs), id)
      ensures logRepo.nextLogId == old(logRepo.nextLogId)
    {
      deleted := id in Ids(rows);
      ghost var before := rows;
      WithoutKeepsOrder(rows, id);
      rows := Without(rows, id);
      logRepo.DeleteOfDevice(id);
      forall e | e in logRepo.logs
        ensures e.deviceId in Ids(rows)
      {
        var row := RowOfId(before, e.deviceId);
        IdOfRow(rows, row);
      }
    }

    /** `updateState`: a missing row gives None and changes nothing;
        otherwise the row's state is written, one entry recording the
        previous state is logged `now`, and the updated row is returned. */
    method UpdateState(id: nat, state: DeviceState, ip: Option<string>, now: int) returns (r: Option<Device>)
      requires Valid()
      modifies this, logRepo
      ensures Valid()
      ensures r.None? <==> id !in Ids(old(rows))
      ensures r.None? ==> rows == old(rows) && logRepo.logs == old(logRepo.logs) && logRepo.nextLogId == old(logRepo.nextLogId)
      ensures r.Some? ==> logRepo.nextLogId == old(logRepo.nextLogId) + 1
      ensures r.Some? ==>
                var before := FindById(old(rows), id).value;
                r.value == before.(state := state) &&
                rows == WithState(old(rows), id, state) &&
                logRepo.logs == old(logRepo.logs) +
                  [LogEntry(old(logRepo.nextLogId), id, ActionFor(state), before.state, now, StoredIp(ip))]
      ensures nextId == old(nextId)
    {
      var found := FindById(rows, id);
      if found.None? {
        return None;
      }
      var device := SaveWithLog(found.value, state, ip, now);
      r := Some(device);
    }

    /** The write shared by `updateState` and each step of
        `updateAllState`: the row's state is written and one entry
        recording its previous state is logged. */
    method SaveWithLog(device: Device, state: DeviceState, ip: Option<string>, now: int) returns (saved: Device)
      requires Valid() && device in rows
      modifies this, logRepo
      ensures Valid()
      ensures saved == device.(state := state)
      ensures rows == WithState(old(rows), device.id, state) && nextId == old(nextId)
      ensures Ids(rows) == Ids(old(rows))
      ensures logRepo.logs == old(logRepo.logs) +
                [LogEntry(old(logRepo.nextLogId), device.id, ActionFor(state), device.state, now, StoredIp(ip))]
      ensures logRepo.nextLogId == old(logRepo.nextLogId) + 1
    {
      var previousState := device.state;
      saved := device.(state := state);
      rows := WithState(rows, device.id, state);
      assert Ids(rows) == Ids(old(rows));
      IdOfRow(old(rows), device);
      var action := if state == On then TurnOn else TurnOff;
      logRepo.SaveLog(saved, action, previousState, ip, now);
    }

    /** `updateAllState`: every row, in key order, gets state `state` and
        one log entry recording its previous state; the updated rows are
        returned in that order. */
    method UpdateAllState(state: DeviceState, ip: Option<string>, now: int) returns (updated: seq<Device>)
      requires Valid()
      modifies this, logRepo
      ensures Valid()
      ensures updated == AllWithState(old(rows), state)
      ensures rows == updated && nextId == old(nextId)
      ensures logRepo.logs == old(logRepo.logs) + BulkLogs(old(rows), old(logRepo.nextLogId), state, ip, now)
      ensures logRepo.nextLogId == old(logRepo.nextLogId) + |old(rows)|
    {
      var devices := rows;
      ghost var firstLogId := logRepo.nextLogId;
      ghost var oldLogs := logRepo.logs;
      updated := [];
      var i := 0;
      assert devices[..0] == [];
      assert BulkLogs(devices[..0], firstLogId, state, ip, now) == [];
      while i < |devices|
        invariant 0 <= i <= |devices| && Ascending(devices)
        invariant Valid() && nextId == old(nextId)
        invariant updated == AllWithState(devices[..i], state)
        invariant rows == updated + devices[i..]
        invariant logRepo.nextLogId == firstLogId + i
        invariant logRepo.logs == oldLogs + BulkLogs(devices[..i], firstLogId, state, ip, now)
      {
        var device := BulkStep(devices, i, state, ip, now, firstLogId, oldLogs);
        StepUpdated(devices, i, state);
        updated := updated + [device];
        i := i + 1;
      }
      assert devices[..i] == devices;
    }

    /** One iteration of `updateAllState`'s loop: row `i` is written and
        logged. */
    method BulkStep(devices: seq<Device>, i: nat, state: DeviceState, ip: Option<string>, now: int,
                    ghost firstLogId: nat, ghost oldLogs: seq<LogEntry>) returns (device: Device)
      requires Valid() && Ascending(devices) && i < |devices|
      requires rows == AllWithState(devices[..i], state) + devices[i..]
      requires logRepo.nextLogId == firstLogId + i
      requires logRepo.logs == oldLogs + BulkLogs(devices[..i], firstLogId, state, ip, now)
      modifies this, logRepo
      ensures Valid() && nextId == old(nextId)
      ensures device == devices[i].(state := state)
      ensures rows == AllWithState(devices[..i + 1], state) + devices[i + 1..]
      ensures logRepo.nextLogId == firstLogId + i + 1
      ensures logRepo.logs == oldLogs + BulkLogs(devices[..i + 1], firstLogId, state, ip, now)
    {
      assert rows[i] == devices[i];
      StepRows(devices, i, state);
      ghost var logsBefore, logId := logRepo.logs, logRepo.nextLogId;
      device := SaveWithLog(devices[i], state, ip, now);
      StepLogs(oldLogs, logsBefore, logRepo.logs, devices, i, firstLogId, logId, state, ip, now);
    }
  }
}
