/**
 * The two fixed command tables of the voice pipeline: the text of each
 * recognised command (`COMMAND_MAP`) and the single device and state each
 * single-device command selects (`COMMAND_DEVICE_MAP`). Device ids 1..4 are
 * the door, light, curtain and fan, in seeding order.
 */
module DeviceMapping {
  import opened Results
  import opened DeviceTypes

  /** `{ deviceId, state }`. */
  datatype Target = Target(deviceId: nat, state: DeviceState)

  const CommandMap: map<int, string> := map[
    1 := "Open the door",
    2 := "Close the door",
    3 := "Turn on the light",
    4 := "Turn off the light",
    5 := "Open the curtain",
    6 := "Close the curtain",
    7 := "Turn on the fan",
    8 := "Turn off the fan",
    -1 := "Command not recognized"
  ]

  const CommandDeviceMap: map<int, Target> := map[
    1 := Target(1, On),
    2 := Target(1, Off),
    3 := Target(2, On),
    4 := Target(2, Off),
    5 := Target(3, On),
    6 := Target(3, Off),
    7 := Target(4, On),
    8 := Target(4, Off)
  ]

  /** `COMMAND_MAP[code]`: text exists exactly for 1..8 and -1, so the bulk
      codes 9 and 10 have none. */
  function CommandText(code: int): (r: Option<string>)
    ensures r.Some? <==> (1 <= code <= 8 || code == -1)
  {
    if code in CommandMap then Some(CommandMap[code]) else None
  }

  /** `COMMAND_DEVICE_MAP[code]`: defined exactly for 1..8; code c selects
      device (c + 1) / 2, switched ON for odd and OFF for even codes. */
  function CommandTarget(code: int): (r: Option<Target>)
    ensures r.Some? <==> 1 <= code <= 8
    ensures r.Some? ==> r.value.deviceId == (code + 1) / 2
    ensures r.Some? ==> (r.value.state == On <==> code % 2 == 1)
  {
    if code in CommandDeviceMap then Some(CommandDeviceMap[code]) else None
  }

  /** The single-device codes are the texted codes other than -1. */
  lemma DeviceCodesAreTextedCodes()
    ensures CommandDeviceMap.Keys == CommandMap.Keys - {-1}
  {
    forall c | c in CommandMap.Keys - {-1}
      ensures c in CommandDeviceMap.Keys
    {
      assert CommandText(c).Some?;
    }
  }

  /** Each device 1..4 has exactly one ON code and exactly one OFF code. */
  lemma OneOnCodeAndOneOffCode(id: nat, c: int)
    requires 1 <= id <= 4
    requires CommandTarget(c).Some? && CommandTarget(c).value.deviceId == id
    ensures CommandTarget(c).value.state == On ==> c == 2 * id - 1
    ensures CommandTarget(c).value.state == Off ==> c == 2 * id
    ensures CommandTarget(2 * id - 1) == Some(Target(id, On))
    ensures CommandTarget(2 * id) == Some(Target(id, Off))
  {
  }
}
