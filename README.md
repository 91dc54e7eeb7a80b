# WhatUDoing core, modelled in Dafny

WhatUDoing is a phone app that collects device telemetry and sends it to a
server. The server stores the records and serves a dashboard web app. This
project models the parts of that system that decide something, and proves
what they promise.

- **The collectors** (`Collectors`, `BatteryCollector`, `LocationCollector`,
  `ForegroundAppCollector`, `AccelerometerCollector`, `NetworkInfoCollector`,
  `PushNotificationCollector`, `DeviceInfoCollector`, `AppInfoCollector`,
  `FieldCopy`). Each collector is a `Collectors.Collector` object with a
  `name` and a cached `data` field. Its `Collect` method takes the platform's
  replies as inputs and returns how the promise settles. A reply is
  `Pending` or `SettledAt(ms, result)`. `setTimeout` races are compared by
  their settle times in milliseconds. Each method is proved equal to a spec
  function, and the source's promises are lemmas about that function: the
  timeout bound, the fallback chain, the most-recent-use loop, listener and
  sensor cleanup, and enrichment that never fails.
- **The registry** (`Registry`). `DataCollector` holds the eleven built-in
  collectors and a slot per name. `collectAll` is split at its `await` into
  `Begin` (stamp the time) and `Settle` (run the `collectX` continuations,
  build the snapshot). This split lets the model state what an overlapping
  call or a `clear()` does to the snapshot.
- **Delivery** (`Delivery`). `DataSender` covers the following:
  - the device id, read from or written to a key/value `Storage` object;
  - the single-flight `sendData` guard, split into `BeginSend` and
    `SettleSend`;
  - the classification of a transport result;
  - the timer as a state machine (`Schedule`) over `timerId`, `interval` and
    the cycles started.
- **Dashboard post-processing** (`Dashboard`, `DashboardApps`). These model
  the in-memory parts of the battery, location, network and apps endpoints.
  The input is the record list the database query returned. The endpoints
  filter it, downsample every k-th point, take min/max, truncate, and count
  with a stable sort.
- **The web API client** (`Api`, `UriEncoding`). This covers URL and query
  construction with `encodeURIComponent`, headers, and the body rule. It
  also covers the response checks. The query string is proved to parse back
  into the parameters that were encoded.
- **SPA routing** (`Spa`). This is the choice of static root, and
  `serve_spa`'s answer for a path over an abstract filesystem.

`Json.Value` stands for the JSON values the JavaScript and Python code
handle. Both JavaScript's `undefined` and `null` are `Null`, and numbers are
integers. `Text` holds the string helpers: decimal rendering, split and join.

## Model

| member | source | states |
|---|---|---|
| Collectors.Race | APP/utils/collectors/BatteryCollector.js:34 | `Promise.race`: the result is one of the two; it settles iff either does, no later than either; the earlier (ties: the first) wins |
| Collectors.WithDeadline | APP/utils/collectors/BaseCollector.js:40-44 | a collection raced against the timeout always settles by the deadline; it is the collection when that settles in time, else the timeout rejection |
| Collectors.AllSettled | APP/utils/dataCollector.js:159-171 | `Promise.allSettled`: settles iff every input does, with each input's result in order, at the time of the last one |
| Collectors.JoinOfRacedCollectorsIsBounded | APP/utils/dataCollector.js:159-171 | when every collector is raced against a deadline no later than `bound`, the join of all of them settles by `bound` |
| Collectors.Collector.constructor | APP/utils/collectors/BaseCollector.js:6-9 | a new collector has the given name and `data` null |
| Collectors.Collector.GetData | APP/utils/collectors/BaseCollector.js:23-25 | returns the cached record |
| Collectors.Collector.Clear | APP/utils/collectors/BaseCollector.js:30-32 | `data` becomes null and the name is unchanged |
| Collectors.Collector.Collect | APP/utils/collectors/BaseCollector.js:15-17 | the base `collect` rejects at once with the "must be implemented in a subclass" message and leaves the cache alone |
| BatteryCollector.CollectByPlus | APP/utils/collectors/BatteryCollector.js:37-58 | the fallback step equals `ByPlus`; a fulfilled result is what is cached, otherwise the cache is unchanged |
| BatteryCollector.Collect | APP/utils/collectors/BatteryCollector.js:11-35 | the settled race equals `Outcome`, and the cache equals `Cached`, the record of whichever source succeeded |
| BatteryCollector.OutcomeWithinDeadline | APP/utils/collectors/BatteryCollector.js:11-35 | the collector always settles within 5000 ms, and a fulfilled value is a `{level, isCharging, timestamp}` record |
| BatteryCollector.PrimarySuccess | APP/utils/collectors/BatteryCollector.js:16-23 | a primary success in time is returned and cached as `{level, isCharging, timestamp}` read from the info; a null info throws in the callback, so the cache is unchanged and the 5 s timeout is the outcome |
| BatteryCollector.FallbackFailureCarriesOneContext | APP/utils/collectors/BatteryCollector.js:25-48 | when the primary failed with a message, the fallback's failure carries that message whatever the secondary error was: only one context survives |
| BatteryCollector.FallbackSuccess | APP/utils/collectors/BatteryCollector.js:40-46 | a secondary success after a primary failure yields and caches the same record shape from the plus info, at the sum of both delays; a null plus info throws, so the cache is unchanged and the 5 s timeout is the outcome |
| BatteryCollector.UnsupportedPlatform | APP/utils/collectors/BatteryCollector.js:50-57 | without `plus.battery`, or outside APP-PLUS, the collector rejects as unsupported, naming the primary `errMsg` or the default |
| LocationCollector.Collect | APP/utils/collectors/LocationCollector.js:11-38 | the settled race equals `Outcome` and the cache equals `Cached` |
| LocationCollector.OutcomeCases | APP/utils/collectors/LocationCollector.js:12-37 | a success in time gives the seven-field record; a failure in time gives `errMsg` or the default; anything later, and a null success reply (whose callback throws), gives the 15 s timeout |
| LocationCollector.LateSuccessStillCached | APP/utils/collectors/LocationCollector.js:20-37 | a success after the timeout still overwrites the cache, unless its reply is null and the callback throws, though the outcome is the timeout rejection |
| ForegroundAppCollector.LatestUse | APP/utils/collectors/ForegroundAppCollector.js:59-69 | the loop's choice, when there is one, is an index of the stats |
| ForegroundAppCollector.LatestUseIsMostRecent | APP/utils/collectors/ForegroundAppCollector.js:59-83 | the chosen stat has the strictly greatest last-use time, above 0, and is the earliest among ties; there is no choice iff every time is at most 0 |
| ForegroundAppCollector.MostRecent | APP/utils/collectors/ForegroundAppCollector.js:59-69 | the `for` loop equals `LatestUse`: a maximum above 0, or none iff all times are at most 0 |
| ForegroundAppCollector.CollectAndroid | APP/utils/collectors/ForegroundAppCollector.js:37-87 | equals `AndroidOutcome`, with its own rejection for a missing `plus.android`, a missing service, empty stats, no choice, or a thrown error; a fulfilled record is cached |
| ForegroundAppCollector.Collect | APP/utils/collectors/ForegroundAppCollector.js:11-35 | the platform branch raced against 5 s equals `Outcome`; a fulfilled record is cached |
| ForegroundAppCollector.NeverTimesOut | APP/utils/collectors/ForegroundAppCollector.js:12-34 | the collection settles synchronously, so the timeout never decides the outcome |
| ForegroundAppCollector.OnlyAndroidRejects | APP/utils/collectors/ForegroundAppCollector.js:23-106 | iOS and non-app builds always fulfil; the non-app record's package name is 'N/A'; iOS uses `plus.runtime.appid` when present |
| ForegroundAppCollector.AndroidSuccessIsMostRecent | APP/utils/collectors/ForegroundAppCollector.js:59-77 | an Android success reports an entry whose last use is the latest of all and above 0 |
| AccelerometerCollector.LastBefore | APP/utils/collectors/AccelerometerCollector.js:25-33 | the held sample is a reading that arrived while the listener was registered; there is none iff no reading did |
| AccelerometerCollector.UpTo | APP/utils/collectors/AccelerometerCollector.js:75-92 | exactly the calls made by the settle time |
| AccelerometerCollector.After | APP/utils/collectors/AccelerometerCollector.js:75-92 | exactly the calls made after the settle time |
| AccelerometerCollector.Listen | APP/utils/collectors/AccelerometerCollector.js:25-33 | the listener loop keeps `LastBefore` as its sample, and the cache holds that sample's record |
| AccelerometerCollector.AfterStop | APP/utils/collectors/AccelerometerCollector.js:42-64 | after a start the flow stops the sensor 500 ms later; the calls and the settlement after that match the spec, and without `offAccelerometerChange` the stop callback throws, so nothing settles |
| AccelerometerCollector.RunFlow | APP/utils/collectors/AccelerometerCollector.js:12-72 | the executor's calls equal `FlowCalls`, its settlement equals `Collection` (a missing flow function throws and leaves it pending, or rejects it at once for `onAccelerometerChange`), and the cache equals `Cached` |
| AccelerometerCollector.Collect | APP/utils/collectors/AccelerometerCollector.js:12-93 | the outcome equals `Outcome`, the sensor calls equal `Trace`, and the cache equals `Cached` |
| AccelerometerCollector.UnavailableRejectsFirst | APP/utils/collectors/AccelerometerCollector.js:16-19 | without `startAccelerometer` it rejects at once, registers no listener, starts no sensor, and leaves the cache alone |
| AccelerometerCollector.MissingOnChangeRejectsAtOnce | APP/utils/collectors/AccelerometerCollector.js:35 | without `onAccelerometerChange` the executor throws: `collect()` rejects at once with that TypeError, no listener is registered, no sensor started, and the cache is untouched |
| AccelerometerCollector.ListenerBeforeSensor | APP/utils/collectors/AccelerometerCollector.js:35-38 | with `onAccelerometerChange` the listener registration is the first call; the sensor is started only when that registration happened, and after it |
| AccelerometerCollector.FlowDeregistersOnSettle | APP/utils/collectors/AccelerometerCollector.js:42-71 | the flow settles on its own only when `offAccelerometerChange` exists, and then deregisters its listener at that moment; a fulfilment follows a sensor stop at least 500 ms in |
| AccelerometerCollector.RejectionCleansUp | APP/utils/collectors/AccelerometerCollector.js:75-92 | on any rejection, including the timeout, the catch calls `offAccelerometerChange` and `stopAccelerometer` (when available) at the rejection time |
| AccelerometerCollector.FulfilledIsLatestReading | APP/utils/collectors/AccelerometerCollector.js:25-64 | a fulfilled value is the record of the latest reading before the settle time |
| AccelerometerCollector.TimeoutCutsOffListener | APP/utils/collectors/AccelerometerCollector.js:75-92 | a flow unsettled at 3 s rejects with the timeout message, and the listener is removed at 3 s when it can be |
| AccelerometerCollector.MissingOffOnlyTimesOut | APP/utils/collectors/AccelerometerCollector.js:47-70 | without `offAccelerometerChange` every exit of the flow throws, so only the 3 s timeout settles; the listener is never removed and the last reading is cached |
| AccelerometerCollector.MissingStopOnlyTimesOut | APP/utils/collectors/AccelerometerCollector.js:42-64 | without `stopAccelerometer` the 500 ms timer throws, so only the 3 s timeout settles; the sensor is never stopped and readings reach the cache until the cleanup removes the listener at 3 s |
| FieldCopy.Record | APP/utils/collectors/ScreenInfoCollector.js:11-36 | the record has exactly the copied keys plus `timestamp`, each read from the reply |
| FieldCopy.Collect | APP/utils/collectors/StorageInfoCollector.js:11-28 | equals `Outcome`; the cache takes a successful record and is otherwise unchanged |
| FieldCopy.CopiedRecord | APP/utils/collectors/ScreenInfoCollector.js:11-36 | a successful screen, system or storage query yields exactly its keys and `timestamp`, each from the reply; a null reply throws in the callback and the promise stays pending |
| DeviceInfoCollector.Collect | APP/utils/collectors/DeviceInfoCollector.js:11-38 | equals `Outcome`; the same record is cached and resolved |
| DeviceInfoCollector.BrandAndModelFallbacks | APP/utils/collectors/DeviceInfoCollector.js:16-29 | `brand` is `res.brand \|\| res.deviceBrand`, `model` is `res.model \|\| res.deviceModel`, and the other fields are copied as-is with `timestamp` |
| DeviceInfoCollector.DecidedByCallback | APP/utils/collectors/DeviceInfoCollector.js:12-37 | no timeout: the outcome is pending iff the callback never comes or a null success reply makes it throw; a failure gives `errMsg` or the default; any other success gives the record |
| AppInfoCollector.Completed | APP/utils/collectors/AppInfoCollector.js:25-37 | at most six runtime assignments complete |
| AppInfoCollector.EnhanceByPlus | APP/utils/collectors/AppInfoCollector.js:25-37 | the `try` block equals `Enriched`: the runtime properties assigned one by one up to the first throw |
| AppInfoCollector.Collect | APP/utils/collectors/AppInfoCollector.js:11-48 | equals `Outcome`; the enriched record is cached |
| AppInfoCollector.EnrichedAddsPrefix | APP/utils/collectors/AppInfoCollector.js:25-37 | the enrichment keeps every base field, assigns the first `n` keys from the runtime, and adds nothing else |
| AppInfoCollector.EnrichmentNeverFails | APP/utils/collectors/AppInfoCollector.js:15-41 | a platform success with a non-null reply is always fulfilled, whatever the runtime throws, with the base fields kept and the completed runtime fields added; a null reply throws before the enrichment and stays pending |
| AppInfoCollector.NoRuntimeNoEnrichment | APP/utils/collectors/AppInfoCollector.js:25-26 | without `plus.runtime` the record is the base record alone |
| NetworkInfoCollector.CollectWifiInfo | APP/utils/collectors/NetworkInfoCollector.js:36-63 | `wifiInfo` is set only by a successful query; the helper returns when `WifiDelay` says |
| NetworkInfoCollector.EnhanceByPlus | APP/utils/collectors/NetworkInfoCollector.js:65-93 | equals `PlusFields`: each step runs unless an earlier call threw |
| NetworkInfoCollector.Collect | APP/utils/collectors/NetworkInfoCollector.js:11-34 | equals `Outcome`; the record is cached once both helpers have run |
| NetworkInfoCollector.RejectsOnlyWhenQueryFails | APP/utils/collectors/NetworkInfoCollector.js:28-61 | the collector rejects iff `getNetworkType` fails, with `errMsg` or the default; Wi-Fi failures never reject |
| NetworkInfoCollector.WifiQueriedOnlyOnWifi | APP/utils/collectors/NetworkInfoCollector.js:20-22 | off Wi-Fi the Wi-Fi platform does not affect the outcome, which settles with the type query, or stays pending when a null reply makes the callback throw |
| NetworkInfoCollector.PlusOnlyFillsGaps | APP/utils/collectors/NetworkInfoCollector.js:65-93 | the plus step changes only `currentType`, `isMetered` and an unset `wifiInfo`; every other field is kept |
| NetworkInfoCollector.QueriedWifiKept | APP/utils/collectors/NetworkInfoCollector.js:15-61 | a queried `wifiInfo` survives the enrichment whether or not `startWifi` exists (when it does, it replied), and the record holds `networkType` 'wifi' |
| PushNotificationCollector.ClientIdFields | APP/utils/collectors/PushNotificationCollector.js:20-30 | step 1 only adds fields and keeps `timestamp` |
| PushNotificationCollector.PlusFields | APP/utils/collectors/PushNotificationCollector.js:51-99 | step 2 only adds fields and keeps `timestamp` |
| PushNotificationCollector.PermissionFields | APP/utils/collectors/PushNotificationCollector.js:101-163 | step 3 only adds fields and keeps `timestamp` |
| PushNotificationCollector.EnhanceByPlus | APP/utils/collectors/PushNotificationCollector.js:51-99 | the outer `try`, left at the first throw with the channel `try` swallowing its own, equals `PlusFields` |
| PushNotificationCollector.Collect | APP/utils/collectors/PushNotificationCollector.js:11-49 | equals `Outcome`; a settled record is what is cached |
| PushNotificationCollector.StepsKeepTimestamp | APP/utils/collectors/PushNotificationCollector.js:12-14 | the `timestamp` taken before any query survives every step |
| PushNotificationCollector.NeverRejects | APP/utils/collectors/PushNotificationCollector.js:41-47 | `collect` never rejects, and it is pending only while an awaited callback has not come |
| PushNotificationCollector.ClientIdFailureOnlyWarns | APP/utils/collectors/PushNotificationCollector.js:20-30 | a failed client-id query leaves the record as if the API did not exist |
| PushNotificationCollector.RecentMessagesCount | APP/utils/collectors/PushNotificationCollector.js:67-76 | `recentMessages.count` is the list length, and `latestMessage` is read from the last element, or null for an empty list |
| PushNotificationCollector.ChannelFailureIgnored | APP/utils/collectors/PushNotificationCollector.js:80-92 | a channel-info failure leaves `channelInfo` unset and the rest as if there were no channel API |
| PushNotificationCollector.PermissionByPlatform | APP/utils/collectors/PushNotificationCollector.js:103-162 | web builds get the web placeholder; Android gets `{enabled, platform: 'android'}`, or `{enabled: null, platform: 'unknown'}` when a call threw |
| PushNotificationCollector.EscapeReturnsGathered | APP/utils/collectors/PushNotificationCollector.js:41-47 | an escaping error is returned as data: the fields gathered so far plus `error` |
| Registry.InitialData | APP/utils/dataCollector.js:20-51 | slots for exactly the eleven built-in names and `timestamp`, all null |
| Registry.DataCollector.constructor | APP/utils/dataCollector.js:20-51 | the eleven collectors registered under their names, each new with a null cache; every slot null |
| Registry.DataCollector.SettleOne | APP/utils/dataCollector.js:56-60 | a `collectX` continuation writes the slot only when its collector fulfils; a rejection leaves the slot unchanged |
| Registry.DataCollector.Begin | APP/utils/dataCollector.js:156 | `collectAll` first writes `Date.now()` to `data.timestamp` and nothing else |
| Registry.DataCollector.SettleAll | APP/utils/dataCollector.js:56-150 | all eleven continuations in order equal `AfterOutcomes` |
| Registry.DataCollector.SettleAsWritten | APP/utils/dataCollector.js:159-188 | as written the snapshot's `timestamp` is whatever `data.timestamp` holds after the `await` |
| Registry.DataCollector.Settle | APP/utils/dataCollector.js:159-188 | the snapshot carries the timestamp taken at the start of the call |
| Registry.DataCollector.CollectAll | APP/utils/dataCollector.js:155-188 | a whole `collectAll`: the slots after the continuations, and the snapshot of the outcomes stamped with `now` |
| Registry.DataCollector.GetData | APP/utils/dataCollector.js:213-215 | returns the live slots |
| Registry.DataCollector.Clear | APP/utils/dataCollector.js:220-240 | every slot, `timestamp` included, becomes null, added slots are dropped, and every registered collector is cleared |
| Registry.DataCollector.GetCollector | APP/utils/dataCollector.js:247-249 | the registered collector, or none for an unknown name |
| Registry.DataCollector.AddCollector | APP/utils/dataCollector.js:256-259 | registers or replaces the name and nulls its slot |
| Registry.AfterOutcomesKeepsTimestamp | APP/utils/dataCollector.js:56-60 | the continuations never touch `timestamp`; the slots gained are exactly those of fulfilled names |
| Registry.AfterOutcomesSlot | APP/utils/dataCollector.js:56-150 | each built-in slot ends as its fulfilled value, or keeps its previous value on rejection |
| Registry.SlotAt | APP/utils/dataCollector.js:56-60 | for distinct names, a listed slot ends as its fulfilled value or its previous value |
| Registry.UntouchedSlot | APP/utils/dataCollector.js:56-60 | a name the continuations do not list keeps its slot |
| Registry.SnapshotCoversBuiltins | APP/utils/dataCollector.js:173-186 | for any settled outcomes, the snapshot has exactly the eleven built-in keys plus `timestamp`, each entry being its collector's value or error |
| Registry.PartialDataCoversBuiltins | APP/utils/dataCollector.js:189-206 | the catch fallback has the same keys; each is the cached value when truthy, else `{error: '收集失败'}`, and the timestamp is the cached one or now |
| Registry.AddedCollectorNotCollected | APP/utils/dataCollector.js:256-259 | a collector added after construction never appears in `collectAll`'s snapshot |
| Registry.OverlappingCollectAll | APP/utils/dataCollector.js:156-185 | two overlapping calls stamped 1000 and 2000: as written the first snapshot carries 2000 |
| Registry.ClearDuringCollectAll | APP/utils/dataCollector.js:185-234 | a `clear()` during a call: as written the snapshot's timestamp is null |
| Registry.OverlappingCollectAllCorrected | APP/utils/dataCollector.js:156-185 | with the timestamp passed through, each overlapping call keeps its own stamp |
| Delivery.GeneratedIdShape | APP/utils/dataSender.js:48-53 | the id is `device_`, the decimal timestamp, `_`, and at most 13 characters of the random string |
| Delivery.GeneratedIdsDetermineTimestamp | APP/utils/dataSender.js:48-53 | equal ids come from equal timestamps and equal random parts: the timestamp can be read back |
| Delivery.Storage.constructor | APP/utils/dataSender.js:30-36 | the store holds the given entries |
| Delivery.Storage.Read | APP/utils/dataSender.js:30 | a stored value, or '' for a missing key |
| Delivery.Storage.Write | APP/utils/dataSender.js:36 | the key is set, the rest unchanged |
| Delivery.DeviceIdCases | APP/utils/dataSender.js:27-43 | a stored truthy id is kept; otherwise a generated id is written back; if storage throws, a generated id that may not be stored |
| Delivery.DeviceIdStable | APP/utils/dataSender.js:27-43 | a second initialisation against the same store gets back the id the first one stored |
| Delivery.SnapshotPayloadConforms | APP/utils/dataSender.js:98-102 | the posted body `{device_id, timestamp: data.timestamp \|\| now, data}` has the server's required `timestamp: int` and `data: dict`, and keeps a non-zero snapshot stamp |
| Delivery.ServerErrorNamesStatus | APP/utils/dataSender.js:109-112 | the failure message for a non-200 status contains that status's decimal text |
| Text.IntToStringRoundTrip | APP/utils/dataSender.js:111 | the decimal rendering of an integer in a template literal reads back as that integer, with a '-' exactly when it is negative |
| Delivery.CheckConnectionMatchesClassify | APP/utils/dataSender.js:198-212 | the health probe succeeds exactly when a send would be classified a success |
| Delivery.StartIsIdempotent | APP/utils/dataSender.js:153-168 | `start` twice is `start` once, and always leaves a timer set |
| Delivery.StopIsIdempotent | APP/utils/dataSender.js:173-179 | `stop` twice is `stop` once, clears the timer, and changes nothing when none is set |
| Delivery.TransitionsKeepValid | APP/utils/dataSender.js:67-179 | every transition keeps a set timer's handle positive and below the next handle to be issued |
| Delivery.SetIntervalRestartsOnlyRunning | APP/utils/dataSender.js:67-74 | `setInterval` always updates `interval`, and stops then restarts only a running timer, with a new handle |
| Delivery.NoCycleAfterStop | APP/utils/dataSender.js:173-179 | after `stop` a timer tick starts no cycle |
| Delivery.DataSender.constructor | APP/utils/dataSender.js:9-22 | configured URL and interval, no timer, not sending, and the device id of `InitialDeviceId` |
| Delivery.DataSender.InitDeviceId | APP/utils/dataSender.js:27-43 | the id and the store follow `InitialDeviceId`; nothing else changes |
| Delivery.DataSender.BeginSend | APP/utils/dataSender.js:81-120 | while sending it drops the call with "busy" and issues no request; a null snapshot throws inside the `try`, so it answers with the error's message, clears `isSending` and issues nothing; otherwise it sets `isSending` and issues exactly one request with the payload |
| Delivery.DataSender.SettleSend | APP/utils/dataSender.js:104-121 | the result is `Classify` of the transport, and `isSending` is false on every exit path |
| Delivery.DataSender.CollectAndSend | APP/utils/dataSender.js:127-148 | one collection then one send of its snapshot: the collector's slots are updated as `collectAll` does and its registry is unchanged; while a send is in flight it returns "busy", issues nothing and stays busy; the device id and server URL are unchanged |
| Delivery.DataSender.SetServerUrl | APP/utils/dataSender.js:59-61 | only the URL changes |
| Delivery.DataSender.GetDeviceId | APP/utils/dataSender.js:191-193 | returns the device id |
| Delivery.DataSender.CheckHealth | APP/utils/dataSender.js:198-212 | probes `serverUrl` + '/health', and is true exactly when `CheckConnection` holds of the reply |
| Delivery.DataSender.StartTimer | APP/utils/dataSender.js:153-168 | the schedule becomes `Start` of the old one; nothing else changes |
| Delivery.DataSender.StopTimer | APP/utils/dataSender.js:173-179 | the schedule becomes `Stop` of the old one; nothing else changes |
| Delivery.DataSender.SetSendInterval | APP/utils/dataSender.js:67-74 | the schedule becomes `SetInterval` of the old one; nothing else changes |
| Delivery.DataSender.TimerFired | APP/utils/dataSender.js:162-164 | a tick of the repeating timer: the schedule becomes `Tick` of the old one |
| Delivery.DataSender.Trigger | APP/utils/dataSender.js:184-186 | a manual trigger starts one cycle and leaves the timer alone |
| Delivery.OverlappingSends | APP/utils/dataSender.js:82-121 | with non-null snapshots, a second send during the first is dropped as busy, one request goes out, and a send after settling is issued again |
| Delivery.NullSendLeavesNothingInFlight | APP/utils/dataSender.js:87-120 | a send of a null snapshot answers with the thrown error and issues nothing, and the next send goes out at once |
| Dashboard.Extracted | server/app/routers/dashboard.py:210-222 | the extracted points are never more than the rows |
| Dashboard.CollectPoints | server/app/routers/dashboard.py:210-222 | the append loop equals `Extracted` |
| Dashboard.ExtractedAppend | server/app/routers/dashboard.py:210-222 | extraction is per row and keeps input order: it distributes over concatenation |
| Dashboard.ExtractedMembers | server/app/routers/dashboard.py:210-222 | a point is extracted iff some row yields it |
| Dashboard.BatteryZeroLevelCounts | server/app/routers/dashboard.py:215-221 | a level of 0 still yields a point |
| Dashboard.BatteryDefaults | server/app/routers/dashboard.py:215-221 | `isCharging` defaults to False; a null level yields no point |
| Dashboard.NetworkDefaultsOnlyForMissingKeys | server/app/routers/dashboard.py:303-317 | `ssid` and `networkType` are 'N/A' only when those keys are missing |
| Dashboard.EveryKthAt | server/app/routers/dashboard.py:227-228 | the j-th kept point is input point j·k |
| Dashboard.EveryKthLength | server/app/routers/dashboard.py:227-228 | `s[::k]` keeps ⌈n/k⌉ points |
| Dashboard.DownsampleBounds | server/app/routers/dashboard.py:224-228 | at most 100 points are kept as they are; above that the kept points are those at 0, step, 2·step, …, with the first one kept and between 100 and 199 of them |
| Dashboard.Levels | server/app/routers/dashboard.py:234-235 | one value per point: the field read from it |
| Dashboard.MinMaxAttained | server/app/routers/dashboard.py:234-235 | min and max are values of some point and bound every point |
| Dashboard.DownsampleKeepsNum | server/app/routers/dashboard.py:224-235 | downsampling keeps integer levels integer |
| Dashboard.SeriesResponseMeaning | server/app/routers/dashboard.py:230-238 | `count` is the number of returned points; `min`/`max` are over those points, and 0 when there are none |
| Dashboard.LocationResponseMeaning | server/app/routers/dashboard.py:266-278 | `count` is the number of valid points before truncation, and `locations` the first 1000 of them |
| Dashboard.BatteryStats | server/app/routers/dashboard.py:209-238 | the battery endpoint equals `SeriesResponse` of the extracted levels |
| Dashboard.LocationStats | server/app/routers/dashboard.py:261-278 | the location endpoint equals `LocationResponse` of the valid points |
| Dashboard.NetworkStats | server/app/routers/dashboard.py:302-333 | the network endpoint equals `SeriesResponse` of the extracted signal strengths |
| DashboardApps.FirstTruthyIsFirst | server/app/routers/dashboard.py:366-372 | the `or` chain is truthy iff some field is, and then it is the first truthy field |
| DashboardApps.PlaceholderNotCounted | server/app/routers/dashboard.py:373-375 | a 'N/A' package is not counted; an empty package falls through to the next name |
| DashboardApps.Position | server/app/routers/dashboard.py:375 | the first entry with the name, or the end when there is none |
| DashboardApps.TallyApps | server/app/routers/dashboard.py:358-375 | the counting loop equals `Tally` of the qualifying names |
| DashboardApps.FirstSeenDistinct | server/app/routers/dashboard.py:375 | the dictionary's keys are distinct and are exactly the names seen |
| DashboardApps.TallyCounts | server/app/routers/dashboard.py:358-375 | the i-th entry is the i-th first-seen name with its number of occurrences |
| DashboardApps.InsertPermutes | server/app/routers/dashboard.py:378-382 | the sort's insertion step adds the entry and loses nothing |
| DashboardApps.InsertDescending | server/app/routers/dashboard.py:378-382 | inserting into a descending list keeps it descending |
| DashboardApps.InsertStable | server/app/routers/dashboard.py:378-382 | insertion keeps the relative order of entries with equal counts |
| DashboardApps.SortByCountCorrect | server/app/routers/dashboard.py:378-382 | `sorted(…, key=count, reverse=True)`: descending, a permutation, and stable for equal counts |
| DashboardApps.PyPrefix | server/app/routers/dashboard.py:382 | Python's `[:limit]`: a prefix, of length `limit` capped by the size, or for a negative limit all but the last `-limit` |
| DashboardApps.Entries | server/app/routers/dashboard.py:394-398 | one `{name, count}` object per entry, in order |
| DashboardApps.AppsStats | server/app/routers/dashboard.py:358-399 | the apps endpoint equals `AppsResponse` of the tally |
| DashboardApps.TopAppsMeaning | server/app/routers/dashboard.py:375-398 | every returned app is a qualifying name with its number of records, sorted descending, ties in first-seen order, at most `limit` of them |
| UriEncoding.HexRoundTrip | web/utils/api.js:31 | a hex digit reads back as its value |
| UriEncoding.Utf8 | web/utils/api.js:31 | one to four bytes per code point, each below 256 |
| UriEncoding.PercentEncoded | web/utils/api.js:31 | three characters per byte |
| UriEncoding.EncodeHasNoDelimiters | web/utils/api.js:31-32 | an encoded component consists of unreserved characters and `%`, so it never holds '&', '=', '?', '#' or a space |
| UriEncoding.Utf8RoundTrip | web/utils/api.js:31 | the lead byte gives the sequence length, and the bytes decode to the code point |
| UriEncoding.DecodeEncode | web/utils/api.js:31 | percent-decoding an encoded component gives back exactly the original string |
| Api.ApiClient.constructor | web/utils/api.js:7-9 | `baseURL` defaults to '/api' when none is given |
| Api.ApiClient.Request | web/utils/api.js:17-70 | the request sent has `FullUrl`, the verb, `Headers` and `Body`; the result is `Check` of the reply |
| Api.ApiClient.Get | web/utils/api.js:75-77 | a GET with the given params and no body |
| Api.ApiClient.Post | web/utils/api.js:82-84 | a POST to `baseURL + url` with the data as body when it is truthy |
| Api.ApiClient.Put | web/utils/api.js:89-91 | a PUT to `baseURL + url` with the data as body when it is truthy |
| Api.ApiClient.Delete | web/utils/api.js:96-98 | a DELETE to `baseURL + url` with no body |
| Api.ApiClient.GetLatestData | web/utils/api.js:106-109 | a GET of '/dashboard/latest' with `device_id` only when it is truthy |
| Api.ApiClient.GetData | web/utils/api.js:184-191 | a GET of '/data' with the `DataParams` of the options |
| Api.QueryStringEmpty | web/utils/api.js:30-33 | the query string is empty iff there are no params |
| Api.FullUrlShape | web/utils/api.js:26-36 | no query for a non-GET or empty params; otherwise the query follows '?', or '&' when the URL already holds a '?' |
| Api.PairTextHasNoAmpersand | web/utils/api.js:31 | a `key=value` pair holds no '&', and its first '=' ends the encoded key |
| Api.Expected | web/utils/api.js:30-32 | the pairs a query should carry: each key with its value as JavaScript renders it |
| Api.ParsePairOfText | web/utils/api.js:31 | one encoded pair parses back to its key and value |
| Api.ParsePairsOfTexts | web/utils/api.js:31 | the encoded pairs parse back to the expected pairs, in order |
| Api.QueryRoundTrip | web/utils/api.js:29-32 | a non-empty query string splits on '&' and decodes to exactly the params, in key order |
| Api.CheckMeaning | web/utils/api.js:56-65 | the data is returned iff the status is 200 and the body is not a string starting `<!DOCTYPE`; such a body raises the HTML error naming the URL |
| Api.StatusFailureNamesStatus | web/utils/api.js:56-58 | a non-200 status raises a message holding the prefix, the status digits that read back as the status, a space and then exactly the `errMsg` |
| Api.DataParamsMeaning | web/utils/api.js:184-189 | `limit` and `offset` first, then `device_id` only when it is truthy |
| Api.DefaultDataQuery | web/utils/api.js:184-190 | with no options, the query decodes to `limit=100&offset=0` |
| Api.LatestWithoutDeviceHasNoQuery | web/utils/api.js:106-108 | without a device id the URL has no query part |
| Api.LatestWithDeviceQuery | web/utils/api.js:106-108 | with a device id the query decodes to just `device_id` |
| Api.HeadersMeaning | web/utils/api.js:39-46 | `Content-Type` is 'application/json' unless the caller overrides it; every caller header is kept |
| Spa.StaticRootWithinWebDir | server/main.py:45-56 | the static root is the web directory or lies below it, and equals the web directory exactly when the build output is missing |
| Spa.ReservedPathsNotFound | server/main.py:90-91 | `api/…`, `static/…` and `health` get 404 before any filesystem check |
| Spa.ExistingFileServedOrForbidden | server/main.py:94-103 | an existing file is served iff it resolves inside the root, and gets 403 otherwise |
| Spa.ResponseCases | server/main.py:94-116 | 403 only for a file resolving outside the root; 404 only when the app has no index; otherwise the file, a directory's index, or the root index |
| Spa.DirectoryIndexEscapesRoot | server/main.py:106-109 | as written `../admin` serves an index outside the static root, which the checked version refuses with 403 |
| Spa.CheckedServesOnlyInsideRoot | server/main.py:94-116 | with the containment check on the directory branch, every file served resolves inside the root or is the root index, and otherwise matches `serve_spa` |

## Left out

- Platform calls (`uni.*`, `plus.*`), `Date.now()`, `Math.random()`, `uni.request` and the `/health` probe are inputs. A platform reply is `Pending` or `SettledAt(ms, Ok(payload) | Err(errMsg))`. The device-id seed is an `IdSeed` (the timestamp, and the random number already in base 36).
- The event loop is not modelled. Promise races and timeouts are compared by settle times in integer milliseconds, and ties go to the collection. `collectAll` and `sendData` are split at their `await` into two methods, so interleavings are sequences of calls. The repeating timer's ticks are explicit `TimerFired` calls.
- Registry.DataCollector.SettleAll: the eleven `collectX` continuations are applied in one step, so a `clear()` or another call landing between two of them is not expressible; interleavings are only possible at the split between `Begin` and `Settle`.
- Registry.SnapshotCoversBuiltins: the lemma, like `Settle`, takes settled outcomes as input. A collector without a timeout race whose platform call never answers leaves `allSettled` pending, so `collectAll` never resolves and that cycle never sends; the model does not represent that cycle.
- Registry.DataCollector.GetCollector: `this.collectors[name] || null` also answers for names inherited from `Object.prototype` (`toString`, `constructor`, `hasOwnProperty`), and `addCollector('__proto__', c)` replaces the registry's prototype instead of adding an entry; the registry is a plain map, so these inherited and prototype names are not modelled.
- AccelerometerCollector.Collect: a call the flow makes to a missing platform function throws a TypeError. Inside a platform callback or the 500 ms timer that error is uncaught and reaches the global handler, which is not modelled; the call appears in no trace, and only its effect on the promise (which stays pending) is modelled. The message of the TypeError a missing `onAccelerometerChange` throws in the executor is engine-specific; the model fixes V8's text (`OnChangeMissing`).
- Delivery.DataSender.BeginSend: the message of the TypeError a null snapshot throws is engine-specific; the model fixes V8's text for `null` (`NullReadMessage`), and `undefined`, whose message names `undefined`, is the same `Null`.
- Delivery.DataSender.Trigger: only logs the cycle it starts (`CycleStarted`), because the asynchronous `collectAndSend` it launches is a separate call in the model.
- Delivery.DataSender.CollectAndSend: its `catch` branch is not modelled, because neither `collectAll` nor `sendData` rejects in the model: `allSettled` never rejects, and `sendData` catches its own errors.
- Registry.PartialData: the `catch` fallback of `collectAll` is modelled as a function and its keys are proved, but no method reaches it, because nothing inside the `try` can throw once `allSettled` has settled.
- A success callback handed a null or undefined reply throws a TypeError at its first property read (`Json.Nullish`); the model lets that promise stay pending and leaves the cache alone, but the error reaching the runtime's global handler is not modelled.
- JavaScript's `undefined` and `null` are both `Null`, and an unset property reads as `Null`, so "key present with value undefined" is not told apart from "key missing".
- Numbers are integers. The dashboard's `avg` (rounded floats) is not modelled. Accelerometer, location and signal values are opaque values. `min`/`max` are modelled only when every value is an integer.
- Dashboard.SeriesResponseMeaning: when some level is not an integer the response is `None` instead of Python's comparison of mixed values.
- DashboardApps.TopAppsMeaning: names are compared by value equality, not by Python's dictionary-key equality (where `1 == True`), and unhashable names, which would raise, are not modelled.
- The SQL queries, the time filter and the ordering by `created_at` happen in the database. The dashboard functions take the record list they return. `created_at.isoformat()` is an opaque `time` value per row.
- Path normalisation in `serve_spa` (`pathlib`'s `/`, `resolve()`, symbolic links) is an abstract `resolve` function of the filesystem view. The `/`, `/health` and `/static` routes are not modelled.
- The `uni.request` timeouts of 10000 and 5000 ms are not modelled, because a timeout is just another transport failure.
- The other `ApiClient` wrappers (`getOverview`, `getTimeline`, `getDevices` and the rest) only call `get` with fixed paths and are not modelled separately; `Get` covers them.
- `Api.ApiClient.GetData`: an option present but explicitly `undefined` takes its default, as a missing one does, because the two are the same `Null`.
- Percent-decoding in the model follows `decodeURIComponent`; a server that also reads '+' as a space is not modelled, and `encodeURIComponent` never produces '+'.
- Logging (`console.log`, `console.warn`, `console.error`) and the debug logging in `get_apps_stats` have no effect on results and are left out.
- `keepSendingWhenHidden` and the app lifecycle hooks that call `start`/`stop` are not part of this model.
- The battery fallback's failure message uses only one error context, as the code does (`a || b || c`), not both errors combined. The network info, device info, app info, push notification and field-copy collectors have no timeout race, as in the code: a collector whose platform never calls back, or whose callback throws, leaves its `collect()` and so `collectAll()` pending.

## Findings

| source | as written | input that shows it | evidently intended | confidence | as-written member | corrected member |
|---|---|---|---|---|---|---|
| APP/utils/dataCollector.js:156-185 | the snapshot's `timestamp` is re-read from `this.data.timestamp` after the `await` | two overlapping `collectAll` calls stamped 1000 then 2000: the first snapshot carries 2000; a `clear()` during a call: its snapshot carries null | each snapshot carries the timestamp its own call took | not executed | Registry.DataCollector.SettleAsWritten | Registry.DataCollector.Settle |
| server/main.py:106-109 | the directory branch serves `path/index.html` without the `relative_to` check the file branch has | path `../admin`, with a directory `/srv/web/../admin` holding `index.html` that resolves to `/srv/admin/index.html` | a directory index outside the static root is refused with 403, like a file | not executed | Spa.DirectoryIndexEscapesRoot | Spa.CheckedServesOnlyInsideRoot |
