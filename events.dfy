/**
 * Everything the backend sends out, recorded in order: Socket.IO
 * broadcasts to the dashboards, HTTP control requests to the ESP32 and
 * transcription requests to the speech server. Delivery itself is outside
 * the model; the record is what the properties talk about.
 */
module Events {
  import opened DeviceTypes

  /** `ITempHumid`: the cached ESP32 reading, '' meaning unknown. */
  datatype Reading = Reading(temperature: string, humidity: string)

  datatype Event =
    | DeviceStateChanged(device: Device)         // 'device_state_changed'
    | TempHumidUpdated(reading: Reading)         // 'temp_humid_updated'
    | ControlRequest(url: string, timeoutMs: nat) // HTTP GET to the ESP32
    | TranscribeAudio(filename: string)          // 'transcribe_audio'

  class EventBus {
    var events: seq<Event>

    constructor ()
      ensures events == []
    {
      events := [];
    }

    method Emit(e: Event)
      modifies this
      ensures events == old(events) + [e]
    {
      events := events + [e];
    }
  }
}
