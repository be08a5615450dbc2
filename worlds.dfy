/**
 * The backend state a request can change, as one value: the device rows
 * and their key counter, the log and its key counter, and the record of
 * everything sent out. Each service operation is specified by a function
 * from the world before the call to the world after it and the reply.
 */
module Worlds {
  import opened DeviceTypes
  import opened DeviceRepo
  import opened Events

  datatype World = World(rows: seq<Device>, nextId: nat, logs: seq<LogEntry>, nextLogId: nat, events: seq<Event>)

  function Snapshot(store: DeviceStore, bus: EventBus): World
    reads store, store.logRepo, bus
  {
    World(store.rows, store.nextId, store.logRepo.logs, store.logRepo.nextLogId, bus.events)
  }
}
