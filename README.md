# Smart-home voice control and usage statistics, modelled in Dafny

The system is a smart home with four switchable devices (door, light,
curtain, fan):

- The backend keeps the devices and an audit log of every state change in
  a database. It turns a spoken command into a command code through a
  speech server and switches the matching device, or all of them. It
  broadcasts every change over Socket.IO and asks an ESP32 board to switch
  the relay. From the same board it caches the latest temperature and
  humidity reading.
- The mobile client records the command, stops the recording on its own
  after a stretch of silence, and uploads it. It subscribes to weather
  pushes and draws usage statistics from the audit log.

The model is split by source file. Each file's module has:

- the records as datatypes;
- the objects the source updates in place as classes with `modifies`
  clauses;
- each stateful operation as a method proved equal to a function of the
  state before the call;
- the promises of the code as lemmas about those functions.

The modules are:

- `DeviceMapping`: the two command tables.
- `DeviceTypes`, `DeviceRepo`, `DeviceLogRepo`: the device and log tables.
  They are held as ascending sequences in two store classes. Deleting a
  device cascades to its log entries.
- `ErrorHandlerProvider`, `ErrorHandlerService`: the two error
  classifications and their wrappers.
- `DeviceIot`, `Esp32Connector`, `ConnectAISocket`: the ESP32 control URL,
  the telemetry connector, and the transcription round trip with its
  settle-once race.
- `AIService`, `AIController`: the current voice-command service and the
  older voice-command endpoint.
- `DeviceService`, `LegacyDeviceService`: the current and older device
  services.
- `WeatherContent`: the part of the day and the date texts.
- `AudioService`, `WeatherService`, `DeviceHistory`: the client's
  recorder, its weather callback registry, and its statistics screen.
- `Worlds`, `Events`, `Results`, `Strings`, `Ordering`: shared helpers.
  - `Worlds` bundles the device table, the log and the record of
    broadcasts and HTTP calls into one value.
  - `Events` is the recorder of broadcasts and HTTP calls.
  - `Results` holds the Option, Result and thrown-error types.
  - `Strings` covers JavaScript's decimal printing, `padStart`,
    `indexOf` and `replace`.
  - `Ordering` is the stable newest-first sort and the ascending
    enumeration of integer object keys.

Three things outside the model enter only as parameters:

- The database clock is a parameter `now`, one instant per request.
- The speech server's answer is a `Transcript` value (null, an object
  with or without an integer `command_code`, or a non-object), or an
  error, given to the operation.
- Failures of the ESP32 request and of the recorder library are given as
  outcomes.

`deviceRepo.checkAllDevicesOn` and `checkAllDevicesOff` are called by the
voice service but are not part of this model. They are modelled as "every
device's state is ON (OFF)" (`DeviceTypes.AllInState`).

The older log repository `backend/src/database/repositories/deviceLog.repo.ts`
is the same code as `backend/src/models/repositories/deviceLog.repo.ts`:

- `getDeviceLogs` is `getLogsByDeviceId` under another name;
- only the error wrapper differs.

Repository failures are not modelled, so both are modelled by
`DeviceLogRepo.StoredIp`, `DeviceLogRepo.LogStore.SaveLog` and
`DeviceLogRepo.LogStore.LogsByDeviceId`.

## Model

| member | source | states |
|---|---|---|
| `ErrorHandlerProvider.ErrorInfoOf` | backend/src/providers/errorHandler.provider.ts:5-24 | Joi validation errors map to 400 with their message; a CustomError keeps its status and message; any other Error maps to 500 with its message; a non-Error maps to 500 'Internal Server Error' |
| `ErrorHandlerProvider.HandlerFunc` | backend/src/providers/errorHandler.provider.ts:26-33 | a returned value passes through unchanged; anything thrown is rethrown as a CustomError whose classification equals the original's |
| `ErrorHandlerProvider.HandlerFuncIdempotent` | backend/src/providers/errorHandler.provider.ts:26-33 | wrapping an already wrapped call changes nothing, so nested wrappers report the innermost classification |
| `ErrorHandlerProvider.ToResult` | backend/src/providers/errorHandler.provider.ts:5-33 | a call succeeds exactly when it returned; a failure carries the status and message `errorInfo` gives |
| `ErrorHandlerService.ErrorHandlerRes` | backend/src/service/errorHandler.service.ts:6-30 | the reply always says `success: false`; Joi errors get 400, CustomErrors keep their status, other Errors get 500 with their message, non-Errors 500 'Internal Server Error' |
| `ErrorHandlerService.LegacyErrorInfo` | backend/src/service/errorHandler.service.ts:32-48 | CustomErrors keep status and message; everything else is 500, with the Error's message or 'Internal Server Error' |
| `ErrorHandlerService.LegacyHandlerFunc` | backend/src/service/errorHandler.service.ts:50-57 | a returned value passes through; a failure is rethrown as a CustomError with the older classification |
| `ErrorHandlerService.ClassificationsDifferOnlyOnJoi` | backend/src/service/errorHandler.service.ts:32-48 | the older and the current `errorInfo` disagree exactly on Joi validation errors |
| `ErrorHandlerService.WrappedJoiErrorIsServerError` | backend/src/service/errorHandler.service.ts:6-57 | a Joi error replied directly is a 400, but after the older wrapper it is replied as a 500 with the same message |
| `ErrorHandlerService.ReplyOfWrappedFailure` | backend/src/service/errorHandler.service.ts:6-57 | the reply to any wrapped failure carries the status and message the wrapper computed |
| `DeviceMapping.CommandText` | backend/src/types/device.mapping.ts:3-13 | a command text exists exactly for codes 1..8 and -1 |
| `DeviceMapping.CommandTarget` | backend/src/types/device.mapping.ts:15-24 | a target exists exactly for codes 1..8; code c selects device (c + 1) / 2, ON for odd codes and OFF for even ones |
| `DeviceMapping.DeviceCodesAreTextedCodes` | backend/src/types/device.mapping.ts:3-24 | the single-device codes are the texted codes other than -1 |
| `DeviceMapping.OneOnCodeAndOneOffCode` | backend/src/types/device.mapping.ts:15-24 | each device 1..4 has exactly one ON code (2·id − 1) and one OFF code (2·id) |
| `DeviceIot.BaseUrl` | backend/src/iot/device.iot.ts:26 | never empty; the fallback address when the variable is unset or empty; otherwise the URI with its first 'ws://' and first ':81' rewritten |
| `DeviceIot.RewriteEmptyIffEmpty` | backend/src/iot/device.iot.ts:26 | the rewrite is empty exactly when the URI is, so the fallback is taken only for an unset or empty variable |
| `DeviceIot.PlainAddressIsKept` | backend/src/iot/device.iot.ts:26 | a non-empty address with no 'ws://' and no ':81' is used unchanged |
| `DeviceIot.WebSocketAddressBecomesHttp` | backend/src/iot/device.iot.ts:26 | the board's `ws://host:81` becomes `http://host:80` |
| `DeviceIot.NotOccursAt` | backend/src/iot/device.iot.ts:26 | a pattern cannot occur where its first two characters do not |
| `DeviceIot.ControlUrlInjective` | backend/src/iot/device.iot.ts:27 | two control URLs are equal only for the same device id and state |
| `DeviceIot.QueryInjective` | backend/src/iot/device.iot.ts:27 | the decimal id ends at '&', so equal query tails have equal ids and states |
| `DeviceIot.LeadingDigits` | backend/src/iot/device.iot.ts:27 | the length of the run of digits a string starts with |
| `DeviceIot.LeadingDigitsOf` | backend/src/iot/device.iot.ts:27 | digits followed by a non-digit: the run of digits is exactly that prefix |
| `DeviceIot.ControlDevice` | backend/src/iot/device.iot.ts:23-45 | always returns normally, whether or not the request fails, and records exactly one GET of the control URL with a 5 s timeout |
| `Esp32Connector.HandleMessage` | backend/src/iot/socket.iot.ts:31-67 | a reading is broadcast exactly when the message parsed, has no truthy `error`, both fields have values and Socket.IO is up, and it is the two texts; it is kept exactly when a field is undefined; every other case resets |
| `Esp32Connector.ConnectStep` | backend/src/iot/socket.iot.ts:13-26 | no change without a configured URI or while the client is OPEN or CONNECTING; otherwise a new CONNECTING client |
| `Esp32Connector.ConnectIdempotent` | backend/src/iot/socket.iot.ts:13-26 | connecting twice equals connecting once |
| `Esp32Connector.ConnectLeavesLiveClient` | backend/src/iot/socket.iot.ts:19-25 | after a connect with a URI the current client is live, and it is the newest client when none was live |
| `Esp32Connector.ClosesAreNeverCapped` | backend/src/iot/socket.iot.ts:69-78 | after n closes, n more reconnect timers are pending, the reading is reset and the client is cleared |
| `Esp32Connector.ErrorSpareOnlyOpenClient` | backend/src/iot/socket.iot.ts:80-90 | an error resets the reading; an OPEN client is kept and any other current client is terminated |
| `Esp32Connector.MessageChangesOnlyReading` | backend/src/iot/socket.iot.ts:31-67 | a message only keeps, resets or sets the reading to its own texts, and broadcasts only the stored reading |
| `Esp32Connector.ErrorReportResets` | backend/src/iot/socket.iot.ts:36-41 | a board error report, or a reading before Socket.IO is ready, resets the reading and broadcasts nothing |
| `Esp32Connector.Connector.constructor` | backend/src/iot/socket.iot.ts:6-11 | starts with an unknown reading, no client and nothing pending |
| `Esp32Connector.Connector.Connect` | backend/src/iot/socket.iot.ts:13-26 | the new state is `ConnectStep` of the old |
| `Esp32Connector.Connector.OnOpen` | backend/src/iot/socket.iot.ts:27-29 | the current client, if it is the one that opened, becomes OPEN; nothing else changes |
| `Esp32Connector.Connector.OnMessage` | backend/src/iot/socket.iot.ts:31-67 | the new reading and the broadcasts are those `HandleMessage` decides |
| `Esp32Connector.Connector.OnClose` | backend/src/iot/socket.iot.ts:69-78 | the reading is reset, the client cleared and one more reconnect scheduled |
| `Esp32Connector.Connector.OnError` | backend/src/iot/socket.iot.ts:80-90 | the reading is reset and a current client that is not OPEN is terminated |
| `Esp32Connector.Connector.FireReconnect` | backend/src/iot/socket.iot.ts:77 | one pending timer is consumed and the connect step runs |
| `Esp32Connector.Connector.LatestReading` | backend/src/iot/socket.iot.ts:93-95 | the cached reading |
| `DeviceLogRepo.StoredIp` | backend/src/models/repositories/deviceLog.repo.ts:22-24 | a missing or empty address is stored as 'unknown'; any other is kept; never empty |
| `DeviceLogRepo.OfDevice` | backend/src/models/repositories/deviceLog.repo.ts:38-42 | exactly the entries of that device |
| `DeviceLogRepo.NotOfDevice` | backend/src/models/migrations/1742461881361-smarthome.ts:13-15 | exactly the entries of every other device (the ON DELETE CASCADE) |
| `DeviceLogRepo.NotOfDeviceKeepsIdOrder` | backend/src/models/migrations/1742461881361-smarthome.ts:13-15 | the cascade keeps the log ids ascending |
| `DeviceLogRepo.LogStore.constructor` | backend/src/models/repositories/deviceLog.repo.ts:11-13 | an empty table whose next id is 1 |
| `DeviceLogRepo.LogStore.SaveLog` | backend/src/models/repositories/deviceLog.repo.ts:15-34 | appends exactly one entry with the device, action, previous state, time and stored address, and keeps ids ascending |
| `DeviceLogRepo.LogStore.LogsByDeviceId` | backend/src/models/repositories/deviceLog.repo.ts:36-44 | exactly that device's entries, as a permutation of them, newest first |
| `DeviceLogRepo.LogStore.AllLogs` | backend/src/models/repositories/deviceLog.repo.ts:46-53 | every entry, as a permutation of the table, newest first |
| `DeviceLogRepo.LogStore.DeleteOfDevice` | backend/src/models/migrations/1742461881361-smarthome.ts:13-15 | removes exactly that device's entries and keeps the table valid |
| `DeviceTypes.FindById` | backend/src/models/repositories/device.repo.ts:21-25 | a found row is in the table with that id; nothing is found exactly when no row has that id |
| `DeviceRepo.Without` | backend/src/models/repositories/device.repo.ts:35-40 | the rows left by the delete are exactly those with another id |
| `DeviceRepo.WithoutKeepsOrder` | backend/src/models/repositories/device.repo.ts:35-40 | deleting a row keeps the rest in key order |
| `DeviceRepo.IdOfRow` | backend/src/models/repositories/device.repo.ts:21-25 | a row's id is among the table's ids |
| `DeviceRepo.RowOfId` | backend/src/models/repositories/device.repo.ts:21-25 | an id among the table's ids belongs to some row |
| `DeviceRepo.BulkLogs` | backend/src/models/repositories/device.repo.ts:79-90 | one entry per row, in row order, consecutive ids, each with the action for the new state and the row's previous state |
| `DeviceRepo.StepRows` | backend/src/models/repositories/device.repo.ts:79-83 | writing row i of the loop turns the first i updated rows into the first i + 1 |
| `DeviceRepo.StepUpdated` | backend/src/models/repositories/device.repo.ts:89 | pushing the written row extends the updated list by exactly that row |
| `DeviceRepo.StepLogs` | backend/src/models/repositories/device.repo.ts:85-87 | the entry logged in step i extends the bulk entries by exactly row i's |
| `DeviceRepo.DeviceStore.constructor` | backend/src/models/repositories/device.repo.ts:11-13 | no rows, no logs, next key 1 |
| `DeviceRepo.DeviceStore.FindAll` | backend/src/models/repositories/device.repo.ts:15-19 | every row, in ascending key order |
| `DeviceRepo.DeviceStore.Create` | backend/src/models/repositories/device.repo.ts:27-33 | appends one row with a fresh key and the given fields, created now; logs untouched |
| `DeviceRepo.DeviceStore.Delete` | backend/src/models/repositories/device.repo.ts:35-40 | reports true exactly when a row had that id; that row and all its log entries are removed; keys are not reused |
| `DeviceRepo.DeviceStore.UpdateState` | backend/src/models/repositories/device.repo.ts:42-65 | a missing id gives null and changes nothing; otherwise that row alone takes the new state and exactly one entry with the previous state is logged |
| `DeviceRepo.DeviceStore.SaveWithLog` | backend/src/models/repositories/device.repo.ts:54-61 | writes the row's state and logs one entry recording its previous state |
| `DeviceRepo.DeviceStore.UpdateAllState` | backend/src/models/repositories/device.repo.ts:67-94 | every row, in key order, takes the new state; one entry per row with its previous state is logged in that order; the updated rows are returned |
| `DeviceRepo.DeviceStore.BulkStep` | backend/src/models/repositories/device.repo.ts:79-90 | one loop iteration writes and logs exactly row i |
| `DeviceService.DisplayedIp` | backend/src/api/devices/device.service.ts:33 | a non-empty address is shown as it is, an empty one as 'unknown' |
| `DeviceService.DisplayedIpOfStored` | backend/src/api/devices/device.service.ts:33 | an address the repository stored is shown exactly as stored |
| `DeviceService.DeviceLogInfo` | backend/src/api/devices/device.service.ts:25-35 | the entry's id, action, time and previous state, with its device's id and name and a non-empty address |
| `DeviceService.LogViews` | backend/src/api/devices/device.service.ts:90 | one view per entry, in the same order |
| `DeviceService.GetAllDevices` | backend/src/api/devices/device.service.ts:37-45 | one projection per row, in row order, ids ascending |
| `DeviceService.GetDeviceById` | backend/src/api/devices/device.service.ts:47-55 | succeeds exactly when a row has that id, with that row's projection; otherwise 404 'Device not found' |
| `DeviceService.GetDeviceLogs` | backend/src/api/devices/device.service.ts:84-92 | 404 exactly for a missing device; otherwise one view, with the device's name, of each entry of a permutation of exactly that device's stored entries, newest first |
| `DeviceService.GetDeviceLogsAsWritten` | backend/src/api/devices/device.service.ts:84-92 | a missing device gives 404; an existing one always gives 500 with the TypeError's message (the exact wording is the engine's; only the status is certain) |
| `DeviceService.DeviceLogsAsWrittenAlwaysFail` | backend/src/api/devices/device.service.ts:88 | for every existing device the endpoint as written fails where the intended query succeeds |
| `DeviceService.CreateSpec` | backend/src/api/devices/device.service.ts:57-68 | without an image nothing changes and the reply is 404 'Image not found'; with one, exactly one row is appended under a fresh key with the upload's file name as image, and logs and broadcasts are untouched |
| `DeviceService.DeleteSpec` | backend/src/api/devices/device.service.ts:70-82 | a missing device gives 404 and nothing changes; otherwise exactly that row and its log entries are removed and the reply is true |
| `DeviceService.UpdateAlwaysWrites` | backend/src/api/devices/device.service.ts:94-110 | with no same-state guard, an existing device always gets one log entry with its previous state, one broadcast and one control request, and the reply carries the requested state |
| `DeviceService.UpdateMissingChangesNothing` | backend/src/api/devices/device.service.ts:96 | a missing device gives 404 and changes and sends nothing |
| `DeviceService.UpdateTwiceLogsTwice` | backend/src/api/devices/device.service.ts:94-110 | repeating a request leaves the rows as one request does but logs twice and sends four events |
| `DeviceService.WithStateTwice` | backend/src/models/repositories/device.repo.ts:54-57 | writing the same state twice equals writing it once, and the device is still found |
| `DeviceService.CreateDevice` | backend/src/api/devices/device.service.ts:57-68 | the new store state and the reply are exactly those `CreateSpec` describes |
| `DeviceService.DeleteDevice` | backend/src/api/devices/device.service.ts:70-82 | the new store state and the reply are exactly those `DeleteSpec` describes |
| `DeviceService.UpdateDeviceState` | backend/src/api/devices/device.service.ts:94-110 | the new store, the events sent and the reply are exactly those `UpdateAlwaysWrites` describes |
| `DeviceService.WriteAndNotify` | backend/src/api/devices/device.service.ts:98-106 | writes and logs the device, then broadcasts the updated row and sends one control request, in that order |
| `DeviceService.WriteAndEmit` | backend/src/api/devices/device.service.ts:98-103 | writes and logs the device, then broadcasts the updated row |
| `LegacyDeviceService.LegacyDeviceLogInfo` | backend/src/apis/devices/device.service.ts:24-33 | the same fields as the current projection minus the device id, with a non-empty address |
| `LegacyDeviceService.LegacyGetDeviceLogs` | backend/src/apis/devices/device.service.ts:82-92 | 404 exactly for a missing device; otherwise the older projection of each entry of a permutation of exactly that device's stored entries |
| `LegacyDeviceService.LegacyLogsMatchCurrent` | backend/src/apis/devices/device.service.ts:82-92 | entry for entry, the older history is the current service's history without the device id |
| `LegacyDeviceService.LegacyDiffersOnlyByControlRequest` | backend/src/apis/devices/device.service.ts:94-109 | the older update gives the same reply, rows and log as the current one, and its record lacks exactly the final control request |
| `LegacyDeviceService.LegacyUpdateDeviceState` | backend/src/apis/devices/device.service.ts:94-109 | 404 and no change for a missing device; otherwise the write, its log entry and one broadcast of the updated row |
| `ConnectAISocket.SentFilename` | backend/src/socket/connectAI.socket.ts:23 | the name sent has no '/', is a suffix of the path, follows its last '/', and is the whole path when it has none |
| `ConnectAISocket.Settle` | backend/src/socket/connectAI.socket.ts:21-40 | a pending promise takes the outcome; a settled one keeps its settlement |
| `ConnectAISocket.SettleAll` | backend/src/socket/connectAI.socket.ts:27-35 | an event settles every call with a registered listener that is still pending, and no other call |
| `ConnectAISocket.SettleOnce` | backend/src/socket/connectAI.socket.ts:21-40 | once a promise is settled, later resolutions and rejections change nothing |
| `ConnectAISocket.LateAnswerGoesToNewerCall` | backend/src/socket/connectAI.socket.ts:27-39 | after a timeout, the stale listener stays registered and the next answer settles the newer pending call while the timed-out one stays rejected |
| `ConnectAISocket.BelowExtend` | backend/src/socket/connectAI.socket.ts:27-39 | registering the newest call keeps every listed call an existing one |
| `ConnectAISocket.AISocket.constructor` | backend/src/socket/connectAI.socket.ts:5 | nothing sent, no calls, no listeners, no timers |
| `ConnectAISocket.AISocket.EmitAudioAndWait` | backend/src/socket/connectAI.socket.ts:16-41 | sends the bare file name once, adds one pending call, and registers its complete listener, error listener and timer |
| `ConnectAISocket.AISocket.OnTranscriptionComplete` | backend/src/socket/connectAI.socket.ts:27-30 | every registered complete listener resolves its call if still pending, with the data unchanged, and all of them are removed |
| `ConnectAISocket.AISocket.OnTranscriptionError` | backend/src/socket/connectAI.socket.ts:32-35 | every registered error listener rejects its pending call with an Error carrying the payload's message, and all of them are removed |
| `ConnectAISocket.AISocket.OnTimeout` | backend/src/socket/connectAI.socket.ts:37-39 | the call's timer rejects it with the 500 timeout error if still pending, and that timer is removed |
| `ConnectAISocket.AISocket.FireAll` | backend/src/socket/connectAI.socket.ts:27-35 | running the fired listeners one after another settles exactly as `SettleAll` |
| `ConnectAISocket.RemoveFirst` | backend/src/socket/connectAI.socket.ts:37-39 | one occurrence fewer when present, unchanged otherwise, nothing new |
| `AIService.ExtractCode` | backend/src/api/ai/ai.service.ts:150-152 | an object's `command_code` is the code, an object without one or a non-object gives -1, and `null` fails with 500 because reading its field throws |
| `AIService.RouteOf` | backend/src/api/ai/ai.service.ts:155-166 | -1 goes to "not found", exactly 9 and 10 to the bulk path, every other code to the single-device path |
| `AIService.DecideSingle` | backend/src/api/ai/ai.service.ts:102-116 | no target exactly for unmapped codes; "no device" exactly when the target id is not in the table; otherwise the device exists and is switched exactly when its state differs from the target |
| `AIService.BulkState` | backend/src/api/ai/ai.service.ts:75 | the bulk state is ON exactly for code 9 |
| `AIService.BulkNotice` | backend/src/api/ai/ai.service.ts:55-73 | the early notice is returned exactly when code 9 meets all devices ON or code 10 meets all devices OFF, with the matching text |
| `AIService.Broadcasts` | backend/src/api/ai/ai.service.ts:82-87 | one 'device_state_changed' per updated device, in row order |
| `AIService.SingleEffectSpec` | backend/src/api/ai/ai.service.ts:102-140 | an unmapped code or missing device is a 404 that changes nothing; a device already in the state gets the notice and nothing changes; otherwise one row is rewritten, one log recording the opposite previous state and one broadcast are appended, and the reply carries the switched device |
| `AIService.FindByIdWithState` | backend/src/models/repositories/device.repo.ts:42-65 | after writing a state to an existing id, looking that id up gives the old row with the new state |
| `AIService.SingleCommandIdempotent` | backend/src/api/ai/ai.service.ts:116-138 | repeating a single-device command changes nothing the second time and answers with a notice |
| `AIService.BulkCommandIdempotent` | backend/src/api/ai/ai.service.ts:55-73 | repeating code 9 or 10 changes nothing the second time and answers with the notice |
| `AIService.BulkEffectSpec` | backend/src/api/ai/ai.service.ts:75-98 | every device gets the bulk state and keeps everything else, one log per device in row order records its previous state, one broadcast per device, and the reply lists the updated rows |
| `AIService.NotFoundCodeChangesNothing` | backend/src/api/ai/ai.service.ts:155-160 | code -1 changes nothing and answers "Command code not found" |
| `AIService.UnknownCodeIsDeviceNotFound` | backend/src/api/ai/ai.service.ts:104-107 | a code outside 1..10 other than -1 reaches the single path and is a 404 "Device not found" that changes nothing |
| `AIService.MissingCodeIsNotFound` | backend/src/api/ai/ai.service.ts:150-160 | a transcription without a code answers "Command code not found" with code -1 and changes nothing |
| `AIService.EmitEach` | backend/src/api/ai/ai.service.ts:82-87 | the bus gains exactly the broadcasts of the updated devices, in order |
| `AIService.UpdateSingleDeviceByCommandCode` | backend/src/api/ai/ai.service.ts:102-140 | the store, log table, bus and reply after the call are those the single-path effect gives for the state before it, and the store stays valid |
| `AIService.UpdateAllDevicesByCommandCode` | backend/src/api/ai/ai.service.ts:53-100 | the store, log table, bus and reply after the call are those the bulk effect gives for the state before it, and the store stays valid |
| `AIService.UpdateDeviceState` | backend/src/api/ai/ai.service.ts:142-168 | a failed conversion or transcription is reported through the error mapping and changes nothing; otherwise the result is the routed path's effect |
| `AIController.LocalCommandText` | backend/src/apis/ai/ai.controller.ts:122 | codes 1..8 and -1 get their own table text, every other code gets the "not recognised" text, and the text is never empty |
| `AIController.LocalMapHasSameCodes` | backend/src/apis/ai/ai.controller.ts:87-97 | the endpoint's Vietnamese table has text for exactly the codes of the shared command table |
| `AIController.ChainTarget` | backend/src/apis/ai/ai.controller.ts:127-154 | the if-chain sets a device and a state exactly for the codes the shared device map knows, and then exactly that map's device and state; both stay unset together otherwise |
| `AIController.MissingFileIsBadRequest` | backend/src/apis/ai/ai.controller.ts:102-105 | a request without a file gets 400 "No audio file uploaded" and nothing changes |
| `AIController.UnmappedCodeChangesNothing` | backend/src/apis/ai/ai.controller.ts:156-172 | any code outside 1..8, including 9 and 10, writes, logs and emits nothing; the reply carries the code, the fallback text, and success exactly when the code is not -1 |
| `AIController.MappedCodeAlwaysWrites` | backend/src/apis/ai/ai.controller.ts:156-172 | a mapped code for an existing device always writes the state and one log recording the previous state, and emits the broadcast and the control request; the reply is the summary with success, or a failure reply when the control request fails |
| `AIController.RepeatedCommandLogsTwice` | backend/src/apis/ai/ai.controller.ts:157-164 | the same command twice logs twice and emits four events, the second log recording that the device already had the target state |
| `AIController.TranscribeAudio` | backend/src/apis/ai/ai.controller.ts:100-180 | the store, log table, bus and reply after the call are those of the endpoint's effect on the state before it, and the store stays valid |
| `AIController.RunCommand` | backend/src/apis/ai/ai.controller.ts:117-172 | once the code is known, the store, bus and reply are those of the command effect: unmapped codes only answer, a missing device is a 404 failure, otherwise the switch happens before the reply |
| `AIController.SwitchAndNotify` | backend/src/apis/ai/ai.controller.ts:157-164 | the device is found exactly when the table has its id; then the row, one log with no address, the broadcast and the control request to `/control?id=..&state=..` with a 3000 ms timeout are added; otherwise nothing changes |
| `WeatherContent.TimeOfDay` | backend/src/providers/weatherContent.provider.ts:23-36 | "Morning" exactly before hour 12, "Afternoon" exactly for 12..17, "Evening" exactly from 18 |
| `WeatherContent.TimeOfDayInOrder` | backend/src/providers/weatherContent.provider.ts:28-34 | a later hour never gives an earlier part of the day |
| `WeatherContent.DayString` | backend/src/providers/weatherContent.provider.ts:17 | the day is two digits, with a leading '0' exactly for days 1..9, and reads back as the day |
| `WeatherContent.MonthName` | backend/src/providers/weatherContent.provider.ts:18 | a month's name is non-empty and has no space |
| `WeatherContent.DateStringFields` | backend/src/providers/weatherContent.provider.ts:15-21 | the date is the two-digit day, a space, the month name, a space and the year, and each part reads back from its position |
| `Strings.PadStart2` | backend/src/providers/weatherContent.provider.ts:17 | a one-character text gets one leading '0'; a longer one is unchanged |
| `Strings.ParseNatToString` | backend/src/providers/weatherContent.provider.ts:19-20 | reading back the decimal text of a number gives the number, so the year in the date is recoverable |
| `Strings.ReplaceFirst` | backend/src/iot/device.iot.ts:26 | with a string pattern only the first occurrence is replaced; without an occurrence the text is returned as it is |
| `AudioService.MergeSlot` | frontend/app/services/audio.service.ts:36 | a key the new callbacks carry wins, even with an undefined value; an absent key keeps the current callback |
| `AudioService.MergeCallbacksIdempotent` | frontend/app/services/audio.service.ts:35-37 | merging the same callbacks twice is merging them once, and merging no keys changes nothing |
| `AudioService.HandleError` | frontend/app/services/audio.service.ts:40-46 | with an `onError` handler the error is reported to it and nothing is thrown; without one the error is thrown and nothing is reported |
| `AudioService.AsError` | frontend/app/services/audio.service.ts:95 | the reported error is always an Error: an Error stays as it is, anything else becomes a new Error with the fallback message |
| `AudioService.SetupReportsGrant` | frontend/app/services/audio.service.ts:66-98 | setup returns true exactly when the permission was granted and the audio mode was set; the permission flag follows the answer, stays as it was when the request threw, and no recording field changes |
| `AudioService.StartBlocked` | frontend/app/services/audio.service.ts:133-142 | without permission, or while a recording exists, no recording field changes and the call does not return true |
| `AudioService.StartFailureResets` | frontend/app/services/audio.service.ts:198-225 | a start that fails leaves no recording, no stop in progress and no timer, never returns true, and reports the error to `onError` (with the fallback message for a non-Error) or throws it when there is no handler |
| `AudioService.SilenceTimerRule` | frontend/app/services/audio.service.ts:100-131 | a status update changes only the silence timer; a timer starts only on a processed update below -20 dBFS with none pending, and is cleared only on a processed update at or above it; an update while not recording, while stopping or without metering changes nothing |
| `AudioService.SilenceThenSound` | frontend/app/services/audio.service.ts:113-130 | two quiet updates leave exactly one timer pending; a loud update after a quiet one leaves none |
| `AudioService.UploadErrorMessage` | frontend/app/services/audio.service.ts:370-388 | the three network codes map to their fixed messages before the response status, the request or the message are looked at |
| `AudioService.MissingFileMessage` | frontend/app/services/audio.service.ts:340-342 | a missing or invalid recording file is reported as "Failed to upload: Recording file is missing or invalid" |
| `AudioService.ResponseStatusReported` | frontend/app/services/audio.service.ts:379-380 | with no network code, a response status is reported after the fixed prefix and reads back from the message |
| `AudioService.CleanupClearsTimer` | frontend/app/services/audio.service.ts:56-64 | after cleanup no silence timer is pending, the recording handle is untouched, and a stop is in progress exactly when one already was or a recording exists |
| `AudioService.StopIsGuarded` | frontend/app/services/audio.service.ts:228-231 | a stop without a recording, or while a stop is in progress, changes nothing; in particular a second stop during a first one is a no-op |
| `AudioService.StopAlwaysResets` | frontend/app/services/audio.service.ts:228-299 | whatever the recorder and the upload do, a stop leaves no recording, no timer and no stop in progress, and keeps the permission |
| `AudioService.FailedUploadReportsStopTwice` | frontend/app/services/audio.service.ts:266-293 | when the upload fails, `onRecordingStop` runs twice in a row, once after the recorder stopped and once in the catch |
| `AudioService.Recorder.constructor` | frontend/app/services/audio.service.ts:16-33 | a new recorder has no permission, no recording, no timer, no stop in progress and no callbacks |
| `AudioService.Recorder.IsRecording` | frontend/app/services/audio.service.ts:48-50 | true exactly when a recording handle exists |
| `AudioService.Recorder.SetCallbacks` | frontend/app/services/audio.service.ts:35-37 | only the callbacks change, to the key-by-key merge |
| `AudioService.Recorder.HandleErrorStep` | frontend/app/services/audio.service.ts:40-46 | the new state and outcome are those of the error rule |
| `AudioService.Recorder.NotifyStopStep` | frontend/app/services/audio.service.ts:269-271 | the stop callback, when there is one, is recorded; nothing else changes |
| `AudioService.Recorder.SetupAudioPermissions` | frontend/app/services/audio.service.ts:66-98 | the new state and result are those of the setup rule for the permission answer and the audio-mode outcome |
| `AudioService.Recorder.HasAudioPermission` | frontend/app/services/audio.service.ts:52-54 | true exactly when the permission flag is set |
| `AudioService.Recorder.StartRecordingStep` | frontend/app/services/audio.service.ts:133-226 | the new state and result are those of the start rule for the recorder's outcome |
| `AudioService.Recorder.OnRecordingStatusUpdate` | frontend/app/services/audio.service.ts:100-131 | the new state is that of the silence rule for the status |
| `AudioService.Recorder.BeginStopStep` | frontend/app/services/audio.service.ts:228-240 | a stop begins exactly when a recording exists and none is in progress; then the stop is in progress and the timer is cleared, otherwise nothing changes |
| `AudioService.Recorder.FinishStopStep` | frontend/app/services/audio.service.ts:242-299 | the new state and outcome are those of the rest of the stop for the recorder's and the upload's results |
| `AudioService.Recorder.StopRecordingStep` | frontend/app/services/audio.service.ts:228-299 | the new state and outcome are those of the whole stop rule |
| `AudioService.Recorder.CleanupStep` | frontend/app/services/audio.service.ts:56-64 | the new state is that of cleanup, and it tells whether a stop began |
| `WeatherService.EventName` | frontend/app/services/weather.service.ts:21-33 | each topic listens to its own event name, and different topics to different names |
| `WeatherService.Without` | frontend/app/services/weather.service.ts:41 | the callback is gone from the filtered list, every other subscribed callback stays, and nothing new appears |
| `WeatherService.WithoutAppend` | frontend/app/services/weather.service.ts:41 | filtering splits over concatenation, so the remaining callbacks keep their order |
| `WeatherService.WithoutCounts` | frontend/app/services/weather.service.ts:41 | every subscription of the callback is removed and every other callback keeps its number of subscriptions |
| `WeatherService.WithoutAbsent` | frontend/app/services/weather.service.ts:41 | unsubscribing a callback that is not subscribed changes nothing |
| `WeatherService.SubscribeThenUnsubscribe` | frontend/app/services/weather.service.ts:37-59 | subscribing then unsubscribing restores a list the callback was not on, and one unsubscribe removes a callback subscribed twice |
| `WeatherService.Deliveries` | frontend/app/services/weather.service.ts:23 | one call per subscription, in registration order, each with the event's payload |
| `WeatherService.GetTempHumid` | frontend/app/services/weather.service.ts:67-80 | the data when the body reports success; "Failed to fetch data" when it does not; a failed request is rethrown unchanged |
| `WeatherService.Weather.constructor` | frontend/app/services/weather.service.ts:4-35 | a new service has three empty callback lists and no calls |
| `WeatherService.Weather.Subscribe` | frontend/app/services/weather.service.ts:37-59 | the callback is appended to its topic's list only, and the returned unsubscriber names that topic and callback |
| `WeatherService.Weather.Unsubscribe` | frontend/app/services/weather.service.ts:40-42 | the topic's list becomes the filtered list; the other lists and the calls are unchanged |
| `WeatherService.Weather.Receive` | frontend/app/services/weather.service.ts:21-34 | the calls gain exactly the deliveries of the payload to the topic's callbacks, in order, and no list changes |
| `WeatherService.Weather.DisconnectSocket` | frontend/app/services/weather.service.ts:61-65 | only the date callbacks are dropped; the location and time-of-day lists are kept |
| `DeviceHistory.WindowLogs` | frontend/app/screens/DeviceHistoryScreen.tsx:81-84 | a log is kept exactly when it is one of the logs and its day lies in the window |
| `DeviceHistory.CountPositiveIff` | frontend/app/screens/DeviceHistoryScreen.tsx:157-158 | a device has a positive count exactly when one of the logs belongs to it |
| `DeviceHistory.BucketIsDailyCount` | frontend/app/screens/DeviceHistoryScreen.tsx:151-154 | a device's count on a day equals the number of its logs among that day's filtered logs |
| `DeviceHistory.WindowKeepsDays` | frontend/app/screens/DeviceHistoryScreen.tsx:81-84 | restricting the logs to a window keeps each device's count on every day inside it |
| `DeviceHistory.DateKeys` | frontend/app/screens/DeviceHistoryScreen.tsx:86-95 | seven consecutive days from the start of the week |
| `DeviceHistory.KeyIndex` | frontend/app/screens/DeviceHistoryScreen.tsx:107 | -1 exactly when the day is not a key; otherwise the first position holding that day |
| `DeviceHistory.WeekWindow` | frontend/app/screens/DeviceHistoryScreen.tsx:71-95 | the last key is today minus seven days per week offset, the keys are consecutive, and a day's index is its distance from the first key inside the window and -1 outside it |
| `DeviceHistory.InitialRows` | frontend/app/screens/DeviceHistoryScreen.tsx:97-103 | one row of seven zeroes and one name per listed id, the name being that of the last device listed with the id |
| `DeviceHistory.WeekRowAppended` | frontend/app/screens/DeviceHistoryScreen.tsx:105-111 | one more log adds one to exactly the bucket of its device and day when that day is in the week, and changes no other bucket |
| `DeviceHistory.CountedStep` | frontend/app/screens/DeviceHistoryScreen.tsx:108-109 | a counted log keeps every row equal to the week's counts of the logs seen and adds exactly one to the total |
| `DeviceHistory.CountLog` | frontend/app/screens/DeviceHistoryScreen.tsx:105-111 | one log leaves the listed ids unchanged, keeps every row equal to the week's counts of the logs seen so far, and adds at most one to the total |
| `DeviceHistory.CountWeek` | frontend/app/screens/DeviceHistoryScreen.tsx:105-111 | after all logs of the week, every listed device's row holds its counts by day, and the buckets add up to at most the number of logs |
| `DeviceHistory.WeekRowOfWindow` | frontend/app/screens/DeviceHistoryScreen.tsx:81-84 | a device's week row is the same whether or not the logs are first filtered to that week |
| `DeviceHistory.WeeklyBuckets` | frontend/app/screens/DeviceHistoryScreen.tsx:81-111 | one row and one name per listed id; each row is that device's number of logs on each of the seven days; the buckets add up to at most the logs in the week |
| `DeviceHistory.ActiveOf` | frontend/app/screens/DeviceHistoryScreen.tsx:120 | an id is kept exactly when it is one of the ids and its row has a nonzero bucket |
| `DeviceHistory.ChartIdsAreFirstActive` | frontend/app/screens/DeviceHistoryScreen.tsx:119-131 | the chart shows at most seven ids, ascending, each with activity; an active device is left out only when seven smaller active ids are shown |
| `DeviceHistory.Pick` | frontend/app/screens/DeviceHistoryScreen.tsx:119-131 | the datasets and the legend are the rows and the names of the shown ids, in order |
| `DeviceHistory.Weekly` | frontend/app/screens/DeviceHistoryScreen.tsx:119-141 | seven day keys; one dataset and one legend entry per shown id, or a single row of zeroes and an empty legend when no device is active |
| `DeviceHistory.GetWeeklyData` | frontend/app/screens/DeviceHistoryScreen.tsx:68-142 | the keys are the seven days ending seven days per offset before today; one to seven datasets; a legend entry for every dataset or none with a single row of zeroes; each dataset with its legend entry is a listed device's counts by day under its name; no legend exactly when no listed device has a log in the week; the chart is `Weekly` of the week's buckets, so `ChartIdsAreFirstActive` applies to it |
| `DeviceHistory.ChartEmptyIff` | frontend/app/screens/DeviceHistoryScreen.tsx:119-141 | the chart shows no device exactly when no listed device has a log in the week |
| `DeviceHistory.ListedRows` | frontend/app/screens/DeviceHistoryScreen.tsx:119-131 | each shown row and name belongs to one listed device |
| `DeviceHistory.Truncate` | frontend/app/screens/DeviceHistoryScreen.tsx:168-171 | a name of at most ten characters is kept; a longer one becomes its first ten characters and '...' |
| `DeviceHistory.DisplayDevices` | frontend/app/screens/DeviceHistoryScreen.tsx:157-158 | a device is shown exactly when it is listed and has a log that day, in list order |
| `DeviceHistory.DailyDeviceData` | frontend/app/screens/DeviceHistoryScreen.tsx:145-203 | with no active device, the single "no activity" bar of height 0 at the default width; otherwise one bar per shown device with its truncated name and its positive count that day, and width the larger of the screen width minus 40 and 60 per bar |
| `DeviceHistory.RecentLogsAreNewest` | frontend/app/screens/DeviceHistoryScreen.tsx:206-210 | at most 50 logs, newest first, drawn from the logs (all of them when there are at most 50), and none left out is newer than one kept |
| `DeviceHistory.GetRecentLogs` | frontend/app/screens/DeviceHistoryScreen.tsx:206-210 | the screen's log array is left sorted newest first, holding the same logs, and the result is its first 50 entries |
| `DeviceHistory.SevenDayStats` | frontend/app/screens/DeviceHistoryScreen.tsx:270-288 | the total is the number of logs from six days before today to today, and the average is that total divided by seven rounded to the nearest integer, 0 without logs |
| `DeviceHistory.UsageStep` | frontend/app/screens/DeviceHistoryScreen.tsx:302-307 | one more log adds one to its device's usage, starting from zero, and keeps every usage equal to that device's number of logs |
| `DeviceHistory.DeviceUsage` | frontend/app/screens/DeviceHistoryScreen.tsx:301-307 | the usage keys are exactly the devices with a log that day, each mapped to its positive number of logs |
| `DeviceHistory.TopIndex` | frontend/app/screens/DeviceHistoryScreen.tsx:310 | the reduction picks a key with the largest usage, and no later key has as much |
| `DeviceHistory.TopDeviceId` | frontend/app/screens/DeviceHistoryScreen.tsx:309-311 | no top device exactly when there is no usage; otherwise a device with the largest usage, the largest id among ties |
| `DeviceHistory.TopIndexWins` | frontend/app/screens/DeviceHistoryScreen.tsx:309-311 | over ascending keys, the picked key has the largest usage and the largest id among those with that usage |
| `DeviceHistory.FindName` | frontend/app/screens/DeviceHistoryScreen.tsx:313 | a name is found only from a device whose id equals the key, and none is found when no id equals it |
| `DeviceHistory.NameOrNA` | frontend/app/screens/DeviceHistoryScreen.tsx:313 | a non-empty found name is shown; a missing or empty one becomes 'N/A' |
| `DeviceHistory.TopDeviceAsWrittenIsAlwaysNA` | frontend/app/screens/DeviceHistoryScreen.tsx:313 | as written, the string key never equals a numeric id, so the top device is always 'N/A' |
| `DeviceHistory.TopNameIsMostUsed` | frontend/app/screens/DeviceHistoryScreen.tsx:309-313 | with the key compared as a number, the most used device's name is shown whenever it is listed with a non-empty name |
| `DeviceHistory.GetDailyStatsAsWritten` | frontend/app/screens/DeviceHistoryScreen.tsx:290-320 | the day's number of logs, the number of devices with a log that day, and 'N/A' as the top device whatever the logs |
| `DeviceHistory.GetDailyStats` | frontend/app/screens/DeviceHistoryScreen.tsx:290-320 | the day's number of logs and of active devices; 'N/A' on a day without logs; any other top device is the name of a listed device with the largest number of logs that day; when the most used device (the largest id among ties) is listed once with a non-empty name, that name is shown; the top device is `TopName` of the day's usage counts |
| `DeviceHistory.TopIsMostUsed` | frontend/app/screens/DeviceHistoryScreen.tsx:308-310 | the reduction over the usage keys ends on exactly the device with the most logs that day, ties going to the larger id |
| `Ordering.Insert` | frontend/app/screens/DeviceHistoryScreen.tsx:208 | inserting into a list sorted newest first keeps it sorted and adds exactly the one element |
| `Ordering.SortDesc` | frontend/app/screens/DeviceHistoryScreen.tsx:208 | the result is sorted by non-increasing key and is a permutation of the input |
| `Ordering.Take` | frontend/app/screens/DeviceHistoryScreen.tsx:209 | `slice(0, n)`: the first n elements, or all of them when there are fewer |
| `Ordering.TakeKeepsOrder` | frontend/app/screens/DeviceHistoryScreen.tsx:209 | a prefix of a list sorted newest first is sorted newest first |
| `Ordering.SortedIds` | frontend/app/screens/DeviceHistoryScreen.tsx:119 | integer object keys enumerate in strictly ascending order, each key exactly once |

## Left out

- Audio conversion and transcription (`convertAudioToWav`, `transcribeAudio` in `backend/src/api/ai/ai.service.ts:18-51`): ffmpeg, the file system and the speech-server call are foreign code. Their result is a parameter: a `Transcript`, or what they threw.
- Transport and persistence libraries:
  - Socket.IO and `ws` internals, axios and TypeORM are not modelled.
  - A broadcast or an HTTP call is an entry in the `Events.EventBus` record.
  - The database is the two store classes.
  - Database failures are not modelled, so every repository call succeeds.
- Concurrency:
  - Each request runs to completion before the next starts.
  - The `Promise.all` of per-device broadcasts in `updateAllDevicesByCommandCode` is modelled as broadcasts in row order.
  - Interleavings of concurrent requests are not modelled.
- The `if (!updatedDevices)` check at `backend/src/api/ai/ai.service.ts:78-80` cannot fire, because `updateAllState` always returns an array. The model has no such branch.
- Timers:
  - The silence timer and the ESP32 reconnect timers are flags and counters.
  - Their firing is the caller running `AudioService.Recorder.StopRecordingStep` or `Esp32Connector.Connector.FireReconnect`.
  - The 30 s transcription timeout is one of the events that settle a call.
- Wall-clock time:
  - An instant is an integer in ms, and a day is `time / 86400000`.
  - The screen builds its windows in local time but its weekly keys with `toISOString` (UTC). That mismatch in time zones other than UTC is not modelled.
- Locale-dependent output: weekday labels, `Intl` month names (the English names are written out), and chart colours.
- The web-only `convertBlobToFile` path of `stopRecording` is not modelled. Its upload is treated like the native one.
- The success path of `sendAudioToBackend` (FormData, the response body) is not modelled. Only whether the upload failed and how is kept.
- `getLocation` in `backend/src/providers/weatherContent.provider.ts` is not modelled: it is two axios calls.
- The `socket.off('device_state_changed')` in `disconnectSocket` is not modelled. It removes a listener the service never registered, so it has no effect.
- `fetchData`, `renderLogItem` and the rendering of `DeviceHistoryScreen` are not modelled. The screen's devices and logs are parameters.
- The current `backend/src/api/ai/ai.controller.ts` is request plumbing around `AIService.UpdateDeviceState` and is not modelled.
- `AudioService.AsError`: for a non-Error thrown during setup, the message is the fixed prefix alone. The source appends the thrown value's string form, which is not modelled.
- `AudioService.UploadErrorMessage`: its contract states the three network codes. The response-status branch is stated by `AudioService.ResponseStatusReported` and the message branch by `AudioService.MissingFileMessage`. The "Could not reach server" text and the default text are not stated in any contract.
- `AudioService.Recorder.OnRecordingStatusUpdate`: metering is a float in dBFS in the source. The model uses an integer, which matters only for the comparison with -20.
- `Ordering.SortDesc`: the contract states sortedness and permutation. It does not state stability (equal timestamps keep their order), although the insertion sort is stable.
- `WeatherContent.MonthName`: the contract states only that a name is non-empty and has no space. Which name belongs to which month is in the body.
- `DeviceHistory.Truncate`: the source cuts UTF-16 code units. The model cuts characters.
- `AIService.ExtractCode`: a `command_code` that is present but not an integer is not modelled. The model's code is an integer or absent. In the source:
  - `null` passes the -1, 9 and 10 tests and finds no device, so the reply is 404;
  - a numeric string such as `"1"` indexes `COMMAND_DEVICE_MAP` like the number;
  - `"9"` and `"10"` fail the strict `=== 9` and `=== 10` tests and get a 404 instead of the bulk path.
- `AIController.ChainTarget`: non-integer codes are not modelled either. In the older controller a `null` code gets the fallback text with `success: true`, and a numeric string passes the `==` tests like the number.
- The older device repository `backend/src/database/repositories/device.repo.ts`, imported by `backend/src/apis/ai/ai.controller.ts` and `backend/src/apis/devices/device.service.ts`, is not part of this model. Both older modules run on `DeviceRepo.DeviceStore`. This assumes that its `findAll`, `findById`, `create`, `delete` and `updateState` behave like those of `backend/src/models/repositories/device.repo.ts`.

## Findings

| source | as written | input that shows it | evidently intended | confidence | as-written member | corrected member |
|---|---|---|---|---|---|---|
| backend/src/api/devices/device.service.ts:88 | calls `deviceLogRepo.getDeviceLogs`, which the imported repository does not define (it has `getLogsByDeviceId`), so the call throws a TypeError that the wrapper turns into a 500 | `getDeviceLogs(1)` with device 1 present | the device's log history, newest first | high; not executed | `DeviceService.GetDeviceLogsAsWritten`, `DeviceService.DeviceLogsAsWrittenAlwaysFail` | `DeviceService.GetDeviceLogs` |
| frontend/app/screens/DeviceHistoryScreen.tsx:313 | `d.id === topDeviceId` compares the numeric device id with the string key from `Object.keys`, so no device is ever found | one log of device 1 named "Lamp" on the selected day | `topDevice` is "Lamp" | high; not executed | `DeviceHistory.GetDailyStatsAsWritten`, `DeviceHistory.TopDeviceAsWrittenIsAlwaysNA` | `DeviceHistory.GetDailyStats`, `DeviceHistory.TopNameIsMostUsed` |
