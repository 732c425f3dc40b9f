# Flipper core: a Dafny model

This project models the routing, lifecycle and selection logic of Flipper (formerly
Sonar), the mobile-app debugging platform. It covers these parts:

- **The desktop app's device client** (`Client.tsx` and the older `server.js`):
  - a message-id counter;
  - a pending-request table whose entries are settled at most once;
  - the two-level `api → method → callbacks` broadcast table;
  - the set of active plugins that gates outbound calls;
  - the fan-out of inbound `execute` frames;
  - the string keys of timing marks;
  - the plugin comparator;
  - the connection registry of the old server.
- **The per-plugin channel on the device side**: the map-backed test connection
  `FlipperConnectionMock`, and the Sections plugin's four-message reports.
- **The desktop plugin base classes**: reducer dispatch and subscription bookkeeping.
- **The pure state transitions**:
  - the connections reducer;
  - the databases plugin's reducers;
  - plugin and target resolution in both `PluginContainer` files;
  - the checkbox rules of `ListView` and `SelectPluginSheet`;
  - the archived device.
- **Export filtering and device-serial salting** (`exportData.tsx`).
- **String encoders, validators and parsers**:
  - curl quoting and header lookup;
  - the `run-as` command builder and its allow-lists;
  - icon names and size snapping;
  - the 32-bit module hash;
  - colour parsing and ARGB packing.
- **Plugin compilation** in both `compilePlugins` files.
- **Tree building** for the Sections plugin, and the element maps of the Layout inspector.

## Modules

The modules follow the program's files:

- **Shared:** `Wrappers` (Option/Result), `Json` (the JavaScript values the code passes
  around), `OrderedMap` (a JavaScript object: string keys in insertion order), `Seqs`,
  `Strings` and `Int32`.
- **One module per source file:** every other module.

Where the code changes objects in place it is modelled as a class with `modifies`
clauses: the clients, the server, the connection mock, the plugins, the containers, the
trees and the views. Pure reducers and encoders are functions. Each method is proved
against a specification function, and the properties of that function are proved as
lemmas.

In three places the code does something a reader might not expect; the model follows the code:

- `parseColor` splits with `/.{1,2}/g`, so `#abc` gives `ab` and `c`.
- Salting with a key that lacks the serial is an error.
- The legacy `compilePlugins` export forces nothing on the first build.

## Model

| member | source | states |
|---|---|---|
| DesktopClient.Client.constructor | src/Client.tsx:137-189 | the SDK version is `sdk_version` or 0; the counter starts at 0; tables, active plugins and the outbox start empty; the client is connected |
| DesktopClient.Client.OnConnectionStatus | src/Client.tsx:177-188 | an ERROR or CLOSED status marks the client disconnected; any other status leaves `connected` unchanged |
| DesktopClient.Client.RawCall | src/Client.tsx:473-531 | the id is the old counter and the counter grows by one; the id was never outstanding; a pending entry and a frame exist only before SDK 1; from SDK 1 a stream opens only with a connection whose plugin (if any) is accepting; otherwise nothing is sent and the call stays pending |
| DesktopClient.Client.OnStreamComplete | src/Client.tsx:506-522 | the stream is removed; the request is settled with the answer, and a rejection reported, only when the call did not come from a plugin that is no longer active; otherwise nothing is settled or reported |
| DesktopClient.Client.OnResponseFrame | src/Client.tsx:418-439 | the settlement `onResponse` makes is recorded, and a rejection's error is reported |
| DesktopClient.Client.Deliver | src/Client.tsx:398-400 | the params are delivered to each given callback once, in order |
| DesktopClient.Client.OnStreamError | src/Client.tsx:523-527 | the stream is removed; the request is rejected only while its plugin is still accepting messages |
| DesktopClient.Client.OnMessage | src/Client.tsx:317-416 | before SDK 1, a frame with a pending id settles and deletes that entry exactly once and reports a rejection's error; an unknown id changes nothing; an id-less error is reported and nothing else is; `refreshPlugins` issues `getPlugins` exactly as `rawCall` does, and no other message touches the counter, streams or outbox; `execute` delivers the params to exactly the callbacks under `api`/`method`; it throws exactly for `execute` without params |
| DesktopClient.Client.Subscribe | src/Client.tsx:445-458 | the broadcast table becomes `Broadcast.Subscribe` of the old one |
| DesktopClient.Client.Unsubscribe | src/Client.tsx:460-471 | the broadcast table becomes `Broadcast.Unsubscribe` of the old one |
| DesktopClient.Client.RawSend | src/Client.tsx:569-578 | one id-less frame is queued when there is a connection, and none otherwise |
| DesktopClient.Client.InitPlugin | src/Client.tsx:559-562 | the plugin joins the active set and `init` with `{plugin: id}` is sent |
| DesktopClient.Client.DeinitPlugin | src/Client.tsx:564-567 | the plugin leaves the active set and `deinit` with `{plugin: id}` is sent |
| DesktopClient.Client.Call | src/Client.tsx:580-591 | an `execute` raw call with `api`, `method` and `params`; ids and gating as in `RawCall` |
| DesktopClient.Client.Send | src/Client.tsx:593-601 | one `execute` frame carrying `api`, `method` and `params`, without an id |
| DesktopClient.Client.SupportsMethod | src/Client.tsx:603-614 | before SDK 2 it answers false at once and sends nothing; otherwise it issues one `isMethodSupported` call with a fresh id |
| DesktopClient.PluginParam | src/Client.tsx:559-567 | the `{plugin: id}` object carries the id under `plugin` |
| DesktopClient.ShowPluginsCount | src/Client.tsx:101-104 | five LRU slots count once there are at least eight plugins; otherwise all of them count |
| DesktopClient.LruRank | src/Client.tsx:192-212 | the rank is the plugin's index among the shown LRU slots, or the slot count when it is not in one |
| DesktopClient.ByClientLRU | src/Client.tsx:192-212 | the comparator never answers 0 |
| DesktopClient.RecentPluginFirst | src/Client.tsx:199-205 | a plugin in a shown LRU slot sorts before one that is not in a slot, in both argument orders |
| DesktopClient.ByClientLRUAntisymmetric | src/Client.tsx:192-212 | where ranks or labels differ, swapping the arguments negates the answer |
| DesktopClient.ByClientLRUTie | src/Client.tsx:206-211 | with equal rank and label, each plugin sorts before the other: the comparator is not a consistent order there |
| Protocol.Deliveries | src/Client.tsx:392-402 | one delivery of the params per registered callback, in registration order |
| Protocol.Settlements | src/Client.tsx:418-439 | at most one settlement: the answer's, exactly when there is one |
| Protocol.ResponseReports | src/Client.tsx:428-435 | an error is reported exactly when the answer is a rejection, and it is the frame's error |
| Protocol.GetPerformanceMark | src/Client.tsx:547-550 | the mark is `request_response_<method>_<id>` |
| Protocol.PerformanceMarkInjective | src/Client.tsx:547-550 | distinct (method, id) pairs give distinct marks |
| Protocol.GetLogEventName | src/Client.tsx:552-557 | the name is `request_response_<method>`, extended by `_<api>_<method>` exactly when both params fields are present |
| Protocol.OnResponse | src/Client.tsx:418-439 | it resolves with `success` when that is truthy; otherwise it rejects with `error` when that is truthy; otherwise it does nothing |
| Broadcast.Subscribe | src/Client.tsx:445-458 | the callback is added under (api, method) unless it is already there; every other (api, method) entry is unchanged; well-formedness is kept |
| Broadcast.Unsubscribe | src/Client.tsx:460-471 | only that callback is removed, from that (api, method) entry; the key sets are unchanged, so a missing api or method is a no-op |
| Broadcast.SubscribeIdempotent | src/Client.tsx:445-458 | subscribing the same triple twice equals subscribing it once |
| Broadcast.SubscribeThenUnsubscribe | src/Client.tsx:445-471 | subscribing and then unsubscribing a new callback restores every callback list |
| LegacyServer.Client.constructor | src/server.js:40-67 | the client starts connected, with no plugins, counter 0, empty request and broadcast tables and nothing sent |
| LegacyServer.Client.GetDevice | src/server.js:90-98 | no device without a `device_id`; otherwise whatever the application's lookup returns for it |
| LegacyServer.Client.GetFirstSupportedPlugin | src/server.js:100-110 | nothing iff no registry plugin is supported by the client; otherwise the first registry id the client lists |
| LegacyServer.Client.OnClose | src/server.js:62-64 | the client becomes disconnected; its frame allows no other field to change |
| LegacyServer.Client.RawCall | src/server.js:235-256 | the id is the old counter and the counter grows by one; a pending entry is registered under the id whatever the socket state; the frame is sent only when the socket is open (`readyState` 1) |
| LegacyServer.Client.RawSend | src/server.js:281-290 | an id-less frame is sent only while the socket is open |
| LegacyServer.Client.Call | src/server.js:292-294 | an `execute` raw call with `api`, `method` and `params` |
| LegacyServer.Client.Send | src/server.js:296-298 | an `execute` raw send with `api`, `method` and `params` |
| LegacyServer.Client.Subscribe | src/server.js:203-220 | the broadcast table becomes `Broadcast.Subscribe` of the old one, keyed by the possibly-null api |
| LegacyServer.Client.Unsubscribe | src/server.js:222-233 | the broadcast table becomes `Broadcast.Unsubscribe` of the old one |
| LegacyServer.Client.OnMessage | src/server.js:129-197 | a frame with a known id removes its entry once and resolves with `success` or rejects with `error`; an unknown id is ignored; exactly the device errors are reported; `refreshPlugins` takes the next id, records a `getPlugins` entry and sends it when connected, and nothing else touches the counter or outbox; `execute` fans out to exactly the callbacks of `params.api`/`params.method`; it throws only for `execute` without params; the broadcast table never changes |
| LegacyServer.Client.Deliver | src/server.js:175-177 | the params are delivered to each given callback once, in order |
| LegacyServer.ConnectionId | src/server.js:368 | the id begins with the app name and a dash |
| LegacyServer.ConnectionIdSeparatesDevices | src/server.js:368 | two queries that differ only in their device get different ids |
| LegacyServer.Server.constructor | src/server.js:302-309 | the server starts with no connections and has emitted nothing |
| LegacyServer.Server.AddConnection | src/server.js:360-401 | the returned id is `app-os-device` |
| LegacyServer.Server.ClientInitialised | src/server.js:377-399 | a zombie entry under the same id is terminated, closed and removed first; then the new client is the only entry under that id, and `new-client`, `clients-change` and `plugins-change` follow |
| LegacyServer.Server.AttachFakeClient | src/server.js:404-410 | the client is stored under its own id with no connection, replacing any entry |
| LegacyServer.Server.RemoveConnection | src/server.js:412-420 | an absent id changes nothing; a present id deletes exactly that entry after the client emits `close`, then `clients-change` |
| ConnectionMock.FlipperConnectionMock.constructor | xplat/FlipperTestLib/FlipperConnectionMock.h:32-33 | both maps start empty, and no method has been registered |
| ConnectionMock.FlipperConnectionMock.Send | xplat/FlipperTestLib/FlipperConnectionMock.h:20-22 | `sent_[m]` becomes the params; every other key of `sent_` and all of `receivers_` are unchanged |
| ConnectionMock.FlipperConnectionMock.Receive | xplat/FlipperTestLib/FlipperConnectionMock.h:24-27 | `receivers_[m]` becomes the receiver; the key set of `receivers_` stays the set of methods ever passed to `receive` |
| ConnectionMock.FlipperConnectionMock.Error | xplat/FlipperTestLib/FlipperConnectionMock.h:29-30 | neither map changes |
| ConnectionMock.LastSent | xplat/FlipperTestLib/FlipperConnectionMock.h:20-22 | a method has a last send iff some send in the series names it |
| ConnectionMock.LastSentAt | xplat/FlipperTestLib/FlipperConnectionMock.h:20-22 | the last send of a method is the send at the last index that names it |
| ConnectionMock.ReplayLastWins | xplat/FlipperTestLib/FlipperConnectionMock.h:20-22 | after a series of sends, `sent_[m]` holds the params of the last send of `m`; a method never sent keeps its starting entry |
| SectionsPlugin.UpdateMode | android/src/main/java/com/facebook/flipper/plugins/sections/SectionsFlipperPlugin.java:61 | the mode is 0 iff the event was async, and 1 otherwise |
| SectionsPlugin.AddEventParams | android/src/main/java/com/facebook/flipper/plugins/sections/SectionsFlipperPlugin.java:59-67 | the event object carries the id, the mode for the event's synchrony, the reason and the surface key |
| SectionsPlugin.HierarchyParams | android/src/main/java/com/facebook/flipper/plugins/sections/SectionsFlipperPlugin.java:71-77 | the hierarchy-generation object carries the id, the tree and the reason |
| SectionsPlugin.ChangesetParams | android/src/main/java/com/facebook/flipper/plugins/sections/SectionsFlipperPlugin.java:83-101 | the changeset object carries its type, the id both as identifier and as tree generation id, and the changeset data |
| SectionsPlugin.ChangesetMessages | android/src/main/java/com/facebook/flipper/plugins/sections/SectionsFlipperPlugin.java:57-101 | exactly four messages, in this order: `addEvent`, the hierarchy generation, the changeset generation and the changeset application; each carries the id and the reason, mode, surface, tree or changeset the source puts in it; the last two have types CHANGESET_GENERATED and CHANGESET_APPLIED |
| SectionsPlugin.SentThrough | android/src/main/java/com/facebook/flipper/plugins/sections/SectionsFlipperPlugin.java:57-101 | each message is sent through the held connection, one send per message, in order |
| SectionsPlugin.SectionsFlipperPlugin.constructor | android/src/main/java/com/facebook/flipper/plugins/sections/SectionsFlipperPlugin.java:15-17 | the plugin starts with no connection and has sent nothing |
| SectionsPlugin.SectionsFlipperPlugin.GetId | android/src/main/java/com/facebook/flipper/plugins/sections/SectionsFlipperPlugin.java:19-22 | the id is always `Sections` |
| SectionsPlugin.SectionsFlipperPlugin.RunInBackground | android/src/main/java/com/facebook/flipper/plugins/sections/SectionsFlipperPlugin.java:33-36 | the answer is always false |
| SectionsPlugin.SectionsFlipperPlugin.OnConnect | android/src/main/java/com/facebook/flipper/plugins/sections/SectionsFlipperPlugin.java:24-28 | the plugin holds the given connection |
| SectionsPlugin.SectionsFlipperPlugin.OnDisconnect | android/src/main/java/com/facebook/flipper/plugins/sections/SectionsFlipperPlugin.java:30-31 | nothing changes; the stored connection stays |
| SectionsPlugin.SectionsFlipperPlugin.OnChangesetApplied | android/src/main/java/com/facebook/flipper/plugins/sections/SectionsFlipperPlugin.java:46-102 | nothing is sent before a connection is held; afterwards exactly the four changeset messages are sent, in order, through it |
| Plugin.DefaultClass | src/plugin.js:39-41 | a class that overrides nothing has id and title `Unknown` and icon `apps` |
| Plugin.ToJSON | src/plugin.js:59-61 | the text is `<`, the class name, `#`, the title and `>` |
| Plugin.ToJSONInjective | src/plugin.js:59-61 | for class names without `#`, equal printed forms mean equal names and titles |
| Plugin.DispatchAction | src/plugin.js:70-84 | an unregistered type raises ReferenceError `Unknown action <type>`; a registered entry that is not a function raises TypeError; otherwise the new state is the reducer's result; an error leaves the state unchanged |
| Plugin.DispatchIdentityReducer | src/plugin.js:78-79 | a reducer that returns its state leaves the state unchanged |
| PluginInstance.UnsubscribeAllRemoves | src/plugin.js:158-162 | after the teardown loop no recorded callback is still subscribed under the plugin's id; every other api's callbacks are as before |
| PluginInstance.UnsubscribeKeepsAbsent | src/Client.tsx:460-471 | unsubscribing never brings back a callback that was absent |
| PluginInstance.FlipperPlugin.constructor | src/plugin.js:109-126 | the wrapper holds the plugin class and the real client; its subscription record starts empty |
| PluginInstance.FlipperPlugin.ClientCall | src/plugin.js:116 | as written: the params land in `fromPlugin`, so a fresh id is taken and the frame sent carries the api and method but no params, gated on the plugin being active only when the params are truthy |
| PluginInstance.FlipperPlugin.ClientCallCorrected | src/Client.tsx:580-591 | with `fromPlugin` true and the params in place, the frame carries the api, method and params and is gated on the plugin being active |
| PluginInstance.CallBody | src/Client.tsx:587 | the `execute` body is an object whose `api`, `method` and `params` are the arguments |
| PluginInstance.CallBodyAsWritten | src/plugin.js:116 | as written the body is the one for undefined params |
| PluginInstance.ClientCallAsWrittenDropsParams | src/plugin.js:116 | for any defined params the body sent as written differs from the intended one: its `params` is undefined |
| PluginInstance.FlipperPlugin.ClientSend | src/plugin.js:117 | it sends an `execute` frame with the plugin's static id as the api |
| PluginInstance.FlipperPlugin.ClientSubscribe | src/plugin.js:118-124 | exactly one (method, callback) entry is appended to the record, and the callback is subscribed under the plugin's id |
| PluginInstance.FlipperPlugin.Init | src/plugin.js:170-173 | `init` with the plugin id is sent before the plugin's own `init()` runs |
| PluginInstance.FlipperPlugin.Teardown | src/plugin.js:158-168 | every recorded subscription is unsubscribed, then `teardown()` runs; `deinit` is sent only when the client is connected |
| Connections.Or | src/reducers/connections.tsx:556 | `a \|\| b` on nullable strings: `a` when it is truthy, otherwise `b` |
| Connections.ToggleStar | src/reducers/connections.tsx:238-251 | an unstarred plugin is appended; a starred one loses one occurrence and nothing else; without duplicates the plugin is starred afterwards iff it was not before |
| Connections.ToggleStarTwice | src/reducers/connections.tsx:238-251 | toggling an unstarred plugin twice restores the list exactly |
| Connections.MessageIndex | src/reducers/connections.tsx:414 | `findIndex` by message: -1 iff no error has the message; otherwise the first index that has it |
| Connections.MergeError | src/reducers/connections.tsx:410-428 | for a known message the length is unchanged, that entry becomes the new error with the old count (or 0) plus 1, and all others are kept; otherwise the error is appended with count 1 |
| Connections.MergeErrorKeepsMessagesUnique | src/reducers/connections.tsx:410-428 | merging keeps one entry per message, and the merged message is listed afterwards |
| Connections.SpliceStart | src/reducers/connections.tsx:372 | `splice`'s start position: a negative start counts from the end; a start past either end is clamped |
| Connections.RemoveOneAt | src/reducers/connections.tsx:370-377 | `splice(i, 1)` on a copy: an index in range removes exactly that entry and keeps the rest in order; an index past the end changes nothing; negative indices count from the end |
| Connections.GetAvailableClients | src/reducers/connections.tsx:472-490 | none without a device; otherwise exactly the clients of the device's serial on a supported OS, or with device id `unknown`, as a permutation of the filter, sorted by app |
| Connections.GetClientById | src/reducers/connections.tsx:508-513 | nothing iff no client has the id; otherwise the first client that has it |
| Connections.GetBestAvailableClient | src/reducers/connections.tsx:492-506 | nothing iff no client is available; the preferred client when it is available; otherwise the first available one |
| Connections.BestClientStable | src/reducers/connections.tsx:492-506 | preferring the chosen client's own id picks that same client again |
| Connections.ChooseDevice | src/reducers/connections.tsx:534-546 | the selected device when it is still registered, else one titled as preferred, else the first non-Mac device; only registered devices are chosen, and none only when every device is a Mac |
| Connections.AvailablePlugins | src/reducers/connections.tsx:560-564 | device plugins, client plugins, then `notifications`, which is always offered |
| Connections.UpdateSelection | src/reducers/connections.tsx:526-582 | a pinned static view returns the state unchanged; otherwise only the view, device, app and plugin change: the device is `ChooseDevice`, WelcomeScreen iff no device, the app is the best available client for that device by the selected or else preferred app (none iff no client is available), and the plugin is the preferred one if offered, else the current one if offered, else `DeviceLogs` |
| Connections.UpdateSelectionIdempotent | src/reducers/connections.tsx:526-582 | when no client has an empty id, selecting again changes nothing |
| Connections.UpdateSelectionFrame | src/reducers/connections.tsx:526-582 | `updateSelection` leaves the devices, emulators, stars, clients, errors, pending setups and deep-link payload as they were |
| Connections.UpdateEntries | src/reducers/connections.tsx:336-341 | each entry of the client is mapped and the others stay, in place |
| Connections.StartSetup | src/reducers/connections.tsx:322-331 | the result is a permutation of the other clients' entries plus one fresh entry, sorted by app name: the fresh entry is the client's only one |
| Connections.StartSetupMembers | src/reducers/connections.tsx:326-329 | in a permutation of the kept entries plus the fresh one, the fresh entry appears once and is the only entry of its client |
| Connections.StarPluginTwice | src/reducers/connections.tsx:238-251 | STAR_PLUGIN twice on an unstarred plugin gives back the same state |
| Connections.DismissErrorRemovesEntry | src/reducers/connections.tsx:370-377 | DISMISS_ERROR with an index in range removes exactly that error and changes nothing else |
| Connections.UnregisterDevicesKeepsOthers | src/reducers/connections.tsx:207-221 | UNREGISTER_DEVICES keeps, in order, exactly the devices whose serial is not listed, and never leaves a removed device selected |
| Connections.SelectPluginRemembersPreference | src/reducers/connections.tsx:222-236 | SELECT_PLUGIN with a truthy plugin makes it the user's preferred plugin |
| Connections.Reduce | src/reducers/connections.tsx:161-381 | the reducer's error list is `ErrorsAfter` of the old one; with `ReduceChangesOnlyItsFields` each action changes only its own fields and never the deep-link payload, and with `ReduceKeepsMessagesUnique` no action lists two errors with one message |
| Connections.ErrorsAfter | src/reducers/connections.tsx:161-381 | only SERVER_ERROR (with an error), CLIENT_SETUP_ERROR and DISMISS_ERROR change the error list |
| Connections.ReduceChangesOnlyItsFields | src/reducers/connections.tsx:161-381 | each action changes only the fields it is about: the stars, emulators, devices, clients, errors and pending setups each change only under their own actions, and the deep-link payload never does |
| Connections.SelectingActionFrame | src/reducers/connections.tsx:161-381 | the actions answered by `updateSelection` change only what they set before it and the selection |
| Connections.ReduceKeepsMessagesUnique | src/reducers/connections.tsx:161-381 | no action lists two errors with the same message |
| Connections.RemoveOneAtKeepsMessagesUnique | src/reducers/connections.tsx:370-377 | dismissing an error keeps the messages unique |
| Connections.Dispatch | src/reducers/connections.tsx:383-408 | the wrapped reducer changes only the errors of the reducer's state: with a physical iOS device selected and no iOS tools, the "not yet supported" error is listed once (added when missing); unique messages stay unique |
| ExportData.ProcessClients | src/utils/exportData.tsx:96-107 | exactly the clients whose `device_id` is the serial are kept |
| ExportData.ProcessClientsAppend | src/utils/exportData.tsx:103-105 | filtering keeps order: filtering two lists one after the other is filtering each |
| ExportData.PluginsClassMap | src/utils/exportData.tsx:109-123 | the map has the union of both key sets; a device plugin overrides a client plugin with the same key |
| ExportData.KeptPluginStates | src/utils/exportData.tsx:140-161 | a key is kept, with its value, iff its plugin name is not outside a non-empty selection and either some client id contains the key's client part or the key names a device plugin whose first segment is the serial; keys stay unique |
| ExportData.KeptUnique | src/utils/exportData.tsx:159 | appending a new entry to kept entries with unique keys keeps the keys unique |
| ExportData.ProcessPluginStates | src/utils/exportData.tsx:125-163 | the loop's result is exactly the kept entries, a subset of the input in the input's order |
| ExportData.ProcessNotificationStates | src/utils/exportData.tsx:165-187 | a notification is kept iff its client is contained in some client id, or it belongs to a device plugin and its client is the serial |
| ExportData.Converted | src/utils/exportData.tsx:239-251 | a key keeps its place iff its plugin name has a class, and its value is converted by that class; every other key is dropped |
| ExportData.ConvertedUnique | src/utils/exportData.tsx:247 | converting keeps the keys unique |
| ExportData.ConvertPluginStates | src/utils/exportData.tsx:226-253 | the class map is built as `pluginsClassMap` builds it; the loop's result is the converted entries |
| ExportData.SaltedSerial | src/utils/exportData.tsx:268 | the new serial is `salt-serial` |
| ExportData.SaltClient | src/utils/exportData.tsx:278-284 | `device_id` becomes the new serial and the rest of the query is kept; the first occurrence of the serial in the id is replaced; an id without the serial is unchanged |
| ExportData.RekeyedKeys | src/utils/exportData.tsx:291-300 | the salted states hold exactly the rewritten keys |
| ExportData.SaltPluginStates | src/utils/exportData.tsx:290-300 | an error iff some key lacks the serial, naming the first such key; otherwise every key has the first occurrence of the serial replaced |
| ExportData.RekeyedKeysHoldNewSerial | src/utils/exportData.tsx:291-300 | when every key holds the serial, every salted key holds the new serial |
| ExportData.MapChecked | src/utils/exportData.tsx:306-313 | a `map` whose callback throws: an error iff some element fails the check, the error being a failing element's; otherwise every element transformed, in order |
| ExportData.SaltNotifications | src/utils/exportData.tsx:306-313 | an error iff some notification lacks a client holding the serial; otherwise each client has the first occurrence replaced and all else is kept |
| ExportData.AddSaltToDeviceSerial | src/utils/exportData.tsx:255-325 | the export fails iff a state key or a notification lacks the serial; otherwise the device carries the new serial and archived type, logs only when DeviceLogs is selected, and every client, key and notification is salted |
| ExportData.ProcessStore | src/utils/exportData.tsx:339-395 | no device gives null; otherwise a successful export lists one client per client of the device, each with `device_id` the salted serial |
| ArchivedDevices.ArchivedType | src/devices/ArchivedDevice.tsx:19-24 | `emulator` becomes `archivedEmulator` and `physical` becomes `archivedPhysical`, each iff; other types are kept; no archived type is a live one |
| ArchivedDevices.ArchivedTypeIdempotent | src/devices/ArchivedDevice.tsx:19-24 | archiving an archived type changes nothing |
| ArchivedDevices.ArchivedDevice.constructor | src/devices/ArchivedDevice.tsx:12-32 | serial, title and OS are kept; the type is archived; the device is marked archived and holds the given logs |
| ArchivedDevices.ArchivedDevice.GetLogs | src/devices/ArchivedDevice.tsx:34-36 | the entries held now |
| ArchivedDevices.ArchivedDevice.ClearLogs | src/devices/ArchivedDevice.tsx:38-41 | no entries remain and nothing else changes |
| ArchivedDevices.ArchivedDevice.SpawnShell | src/devices/ArchivedDevice.tsx:43-45 | there is never a shell |
| PluginContainer.PluginKey | src/PluginContainer.tsx:206-212 | the key is the target id, `#` and the plugin id, with the `#` right after the target id |
| PluginContainer.ClientById | src/PluginContainer.tsx:208-209 | the client found has the selected app's id; none is found only when no client has it |
| PluginContainer.Resolve | src/PluginContainer.tsx:191-215 | no selected plugin resolves nothing; with a device selected, the target is that device iff the plugin is the notifications hub or a device plugin, which is then the active plugin, keyed by the serial; otherwise the client plugin of that id runs against the client of `selectedApp` (none when it is not connected), keyed by the client id when both exist |
| PluginContainer.Lookup | src/PluginContainer.tsx:202 | `m.get(k) \|\| null`: found iff the key is present, and then it is the stored entry |
| PluginContainer.DevicePluginFirst | src/PluginContainer.tsx:199-206 | with a device selected, a device plugin of the selected id wins over a client plugin of the same id and runs on the device |
| PluginContainer.MapStateToProps | src/PluginContainer.tsx:179-230 | plugin, target and key are the resolution; the device counts as archived iff it is an archived device; the plugin state is the stored one under the key, or undefined |
| PluginContainer.SelectPlugin | src/PluginContainer.tsx:145-160 | it dispatches and answers true iff the target is a device, or a client listing the plugin; otherwise it answers false and dispatches nothing |
| PluginContainer.PersistedState | src/PluginContainer.tsx:135-140 | without a default the stored state is passed as is; with one, the stored fields are laid over the default's |
| PluginContainer.Render | src/PluginContainer.tsx:108-163 | nothing is rendered unless the plugin, the target and the key are all there; otherwise the plugin gets that key and target and the merged persisted state |
| PluginContainer.Container.constructor | src/PluginContainer.tsx:75-80 | no plugin instance is kept and no lifecycle call has been made |
| PluginContainer.Container.RefChanged | src/PluginContainer.tsx:82-99 | the previous instance is torn down first; a new instance is initialised and kept only when there is a target |
| PluginContainer.Container.ComponentWillUnmount | src/PluginContainer.tsx:101-106 | the kept instance, if any, is torn down and forgotten |
| LegacyPluginContainer.FindPlugin | src/PluginContainer.js:55-57 | the class found has the selected id; none is found only when no class has it |
| LegacyPluginContainer.FindClient | src/PluginContainer.js:63-65 | the client found has the selected app's id; none is found only when no client has it |
| LegacyPluginContainer.ComputeState | src/PluginContainer.js:53-82 | a device plugin with the selected id runs on the device under `<serial>#<id>`; otherwise an error iff the client plugin or the client is missing, with the "could not be found" message; otherwise the client plugin runs on that client under `<client id>#<id>` |
| LegacyPluginContainer.PersistedState | src/PluginContainer.js:136 | the stored state when it is truthy, otherwise `{}`; the result is always truthy |
| LegacyPluginContainer.Container.constructor | src/PluginContainer.js:87-90 | the state is `computeState` of the first props |
| LegacyPluginContainer.Container.ComponentWillReceiveProps | src/PluginContainer.js:92-100 | the state is recomputed iff the device, app or plugin selection changed; it throws exactly when that recomputation fails, and then the state and props stay as they were; otherwise the new props are taken |
| LegacyPluginContainer.Container.RefChanged | src/PluginContainer.js:102-114 | the previous instance is torn down first; a new one is set up and kept only when the state has a target |
| NetworkUtils.HeaderValue | src/plugins/network/utils.js:12-19 | the value of the first header whose key equals the asked key ignoring case; "" when none does |
| NetworkUtils.GetHeaderValue | src/plugins/network/utils.js:12-19 | the loop with its early return computes `HeaderValue` |
| NetworkUtils.HeaderValueIgnoresCase | src/plugins/network/utils.js:14 | asking for a key in lower case finds the same value as asking for it in any case |
| NetworkUtils.DecodeBody | src/plugins/network/utils.js:21-40 | no data gives ""; otherwise the base64-decoded body, inflated when `Content-Encoding` is `gzip`, is UTF-8 decoded, and a malformed body gives "" |
| NetworkUtils.EscapeCharacterAsWritten | src/plugins/network/utils.js:79-82 | the escape starts with `\u`; for a character that needs escaping it is `\u` and exactly two hex digits, which read back as the character's code |
| NetworkUtils.Hex4 | src/plugins/network/utils.js:79-82 | exactly four hex digits |
| NetworkUtils.EscapeCharacter | src/plugins/network/utils.js:79-82 | the corrected escape is `\u` and four hex digits |
| NetworkUtils.EscapedStringWith | src/plugins/network/utils.js:88-104 | a string with nothing to escape and no single quote is put between single quotes as it is; any other becomes a `$'…'` word |
| NetworkUtils.EscapedStringAsWritten | src/plugins/network/utils.js:88-104 | as written it agrees with the corrected quoting on every string with nothing to escape and no single quote |
| NetworkUtils.EscapedString | src/plugins/network/utils.js:88-104 | with four-digit escapes the shell reads the quoted word back as the original string |
| NetworkUtils.ReplaceChar | src/plugins/network/utils.js:93-96 | a global replace of a character that does not occur changes nothing |
| NetworkUtils.ReplaceEscaping | src/plugins/network/utils.js:97 | text with no character to escape is unchanged |
| NetworkUtils.HexRun | src/plugins/network/utils.js:79-82 | the hex digits bash takes after `\u`: at most the maximum, all hex |
| NetworkUtils.EscapeBodyCons | src/plugins/network/utils.js:92-97 | the chain of replacements acts character by character |
| NetworkUtils.ParseHex4 | src/plugins/network/utils.js:79-82 | the four hex digits read back as the code |
| NetworkUtils.UnescapeOne | src/plugins/network/utils.js:92-97 | bash reads one escaped character back as that character |
| NetworkUtils.UnescapeEscapeBody | src/plugins/network/utils.js:90-98 | bash reads the whole escaped body back as the original text |
| NetworkUtils.EscapedStringRoundTrip | src/plugins/network/utils.js:88-104 | with four-digit `\u` escapes every string survives quoting: the shell reads the `$'…'` or `'…'` word back as the original string |
| NetworkUtils.EscapedStringAsWrittenCorrupts | src/plugins/network/utils.js:79-82 | as written, `!a` is quoted as `$'\u21a'`, which bash reads back as one character U+021A, not `!a` |
| NetworkUtils.CurlCommandCarriesBody | src/plugins/network/utils.js:72-76 | with four-digit escapes a non-empty body is the last argument and reads back unchanged; an empty body adds no `-d` |
| NetworkUtils.CurlCommandEndsWithBody | src/plugins/network/utils.js:72-76 | whatever the quoting, a non-empty body is the last argument, quoted; an empty body adds no `-d` |
| NetworkUtils.CurlCommandAsWrittenCorruptsBody | src/plugins/network/utils.js:72-82 | as written the command for the body `!a` ends with an argument the shell reads as the single character U+021A |
| NetworkUtils.ConvertRequestToCurlCommand | src/plugins/network/utils.js:63-77 | the command is the curl command with every argument quoted by `escapedString` as written |
| NetworkUtils.BuildCurlCommand | src/plugins/network/utils.js:64-76 | the command accumulated header by header is `curl -v -X <method> <url>`, one `-H` per header in order, then the body when it is non-empty, each quoted by the given quoting |
| NetworkUtils.CurlHead | src/plugins/network/utils.js:64-65 | the command starts `curl -v -X <method> ` and then the quoted url |
| NetworkUtils.CurlPrefix | src/plugins/network/utils.js:67-70 | after any number of headers the command still starts with its head, and ends with the last header's quoted `-H` argument |
| NetworkUtils.CurlCommand | src/plugins/network/utils.js:72-76 | the command starts with the head and all the header arguments |
| AndroidContainer.ValidateAppName | src/utils/androidContainerUtilityInternal.js:27-32 | accepted iff the name is non-empty and made of letters, digits, `.`, `_` and `-`; accepted unchanged; otherwise the "Disallowed run-as user" error |
| AndroidContainer.ValidateFilePath | src/utils/androidContainerUtilityInternal.js:34-39 | accepted unchanged iff the path has no single quote; otherwise the "Disallowed escaping filepath" error |
| AndroidContainer.ValidateFileContent | src/utils/androidContainerUtilityInternal.js:41-48 | accepted unchanged iff the content has no double quote; otherwise the "Disallowed escaping file content" error |
| AndroidContainer.PushContentsStayQuoted | src/utils/androidContainerUtilityInternal.js:50-62 | validated contents cannot close the double quotes of `echo "…"`, and the command ends by restricting the file's mode |
| AndroidContainer.QuotedRun | src/utils/androidContainerUtilityInternal.js:69 | a POSIX shell takes text without a quote literally up to the closing quote |
| AndroidContainer.PlainRun | src/utils/androidContainerUtilityInternal.js:80 | outside quotes, ordinary characters extend the current word |
| AndroidContainer.PullCommandWords | src/utils/androidContainerUtilityInternal.js:64-70 | a validated path is one argument of `cat`, exactly as given |
| AndroidContainer.PullCommand | src/utils/androidContainerUtilityInternal.js:64-70 | a validated path is one argument of `cat`, exactly as given |
| AndroidContainer.PushCommand | src/utils/androidContainerUtilityInternal.js:50-62 | validated contents cannot close the double quotes of `echo "…"`, and the command ends by restricting the file's mode |
| AndroidContainer.ShellLineAsWritten | src/utils/androidContainerUtilityInternal.js:73-81 | as written `echo` is given the command between single quotes, and prints it back exactly when it has no single quote (both directions are ensured) |
| AndroidContainer.QuotedCommandShortened | src/utils/androidContainerUtilityInternal.js:73-81 | a command with a single quote, put between single quotes as written, is not echoed back as it is |
| AndroidContainer.WordsShorten | src/utils/androidContainerUtilityInternal.js:73-81 | every single quote the shell consumes shortens the words it makes: joined by spaces they are no longer than the text less its quotes |
| AndroidContainer.QuotedCommandEchoed | src/utils/androidContainerUtilityInternal.js:80 | a command without a single quote is one word between the quotes, printed as is |
| AndroidContainer.AppNameQuotedWord | src/utils/androidContainerUtilityInternal.js:80 | a validated app name is one argument of `run-as`, exactly as given |
| AndroidContainer.ShellLineAsWrittenSplitsPath | src/utils/androidContainerUtilityInternal.js:69-80 | as written, the validated path `a b` makes `echo` print `cat a b`: the quotes around the path close the outer quotes |
| AndroidContainer.QuoteInner | src/utils/androidContainerUtilityInternal.js:80 | the corrected escaping leaves a command without quotes unchanged |
| AndroidContainer.EscapedQuoteStep | src/utils/androidContainerUtilityInternal.js:80 | an escaped quote `'\''` adds one quote to the word and stays quoted |
| AndroidContainer.QuotedCharStep | src/utils/androidContainerUtilityInternal.js:80 | an ordinary character inside quotes is added to the word |
| AndroidContainer.QuoteInnerRun | src/utils/androidContainerUtilityInternal.js:80 | an escaped command inside quotes becomes exactly the command |
| AndroidContainer.EchoArgumentRoundTrip | src/utils/androidContainerUtilityInternal.js:80 | with the escaping, `echo` prints exactly the command, whatever it holds |
| AndroidContainer.ShellLine | src/utils/androidContainerUtilityInternal.js:80 | the corrected line echoes the escaped command, which prints the command itself, into `run-as '<app>'` |
| AndroidContainer.ShellLinePullsPath | src/utils/androidContainerUtilityInternal.js:64-80 | with the escaping, the pulled path reaches `cat` as one argument |
| AndroidContainer.NotDebuggableMessage | src/utils/androidContainerUtilityInternal.js:86-88 | the message names the app |
| AndroidContainer.UnsupportedMessage | src/utils/androidContainerUtilityInternal.js:91-93 | the message names the device |
| AndroidContainer.ClassifyOutput | src/utils/androidContainerUtilityInternal.js:84-96 | "not debuggable" iff the output mentions `debuggable`; otherwise "unsupported" iff the lower-cased output says `not permitted`; otherwise the output is returned unchanged |
| Icons.GetIconPartsFromName | src/utils/icons.js:56-61 | the variant is `outline` iff the name ends in `-outline`, and `filled` otherwise; a filled name is kept whole; an outline name loses one `-outline` (the first occurrence, as `replace` does) |
| Icons.OutlineNotOverlapping | src/utils/icons.js:58 | two occurrences of `-outline` cannot overlap |
| Icons.OutlineSuffixRemoved | src/utils/icons.js:56-61 | when `-outline` occurs only as the suffix, the trimmed name is the name without it |
| Icons.EarlierOutlineRemoved | src/utils/icons.js:58 | when `-outline` also occurs earlier (after a part without `-`), the earlier occurrence is the one removed and the suffix stays: `a-outline-b-outline` trims to `a-b-outline` |
| Icons.BuildLocalIconPath | src/utils/icons.js:64-70 | the path is `icons/…x.png` |
| Icons.LocalIconPathDistinguishesParts | src/utils/icons.js:64-70 | for one size and density, names with different parts get different local paths |
| Icons.BuildIconURL | src/utils/icons.js:73-89 | the address is the CDN base and ends with the density |
| Icons.MaxOf | src/utils/icons.js:112 | `Math.max`: a listed value, not below any other |
| Icons.SnapLeastAbove | src/utils/icons.js:103-130 | on an ascending list, snapping gives the least listed value not below the request, or the largest when the request is above all |
| Icons.SnapIdempotent | src/utils/icons.js:103-130 | snapping a snapped value changes nothing |
| Icons.SizesAscending | src/utils/icons.js:11 | the available sizes are ascending |
| Icons.DensitiesAscending | src/utils/icons.js:12 | the densities are ascending |
| Icons.SizeSnappingExamples | src/utils/icons.js:103-116 | size 13 snaps to 16, and 64 to 32 |
| Icons.DensitySnappingExamples | src/utils/icons.js:118-130 | density 2.5 snaps to 3, 5 to 4, and 0.5 to 1 |
| Icons.GetIconURL | src/utils/icons.js:98-141 | a name holding `/` is returned as is; otherwise the density snaps, and the local path (built with the requested size) is used when it exists, else the CDN address with the snapped size |
| ModuleIds.Hash | static/compilePlugins.js:120-132 | the hash is a signed 32-bit integer |
| ModuleIds.ComputeHash | desktop/static/compilePlugins.ts:155-167 | the loop `(hash << 5) - hash + chr` with `hash \|= 0` after each character computes `Hash`; the empty string hashes to 0 |
| ModuleIds.ShiftSubtractStep | static/compilePlugins.js:128-129 | `(h << 5) - h + c` cut to 32 bits is `31 * h + c` cut to 32 bits |
| ModuleIds.PolynomialSnoc | static/compilePlugins.js:126-130 | one more character multiplies the polynomial by 31 and adds its code |
| ModuleIds.HashIsPolynomial | static/compilePlugins.js:120-132 | the hash is the base-31 polynomial of the character codes, reduced to a signed 32-bit integer |
| ModuleIds.ModuleIdFactory.constructor | desktop/static/compilePlugins.ts:168 | the shared map starts empty |
| ModuleIds.ModuleIdFactory.ModuleId | static/compilePlugins.js:133-144 | the prelude gets 0 and nothing is remembered; any other path gets its hash, which is remembered, so every remembered id stays the hash of its path |
| Int32.ToUint32 | src/ui/components/data-inspector/DataDescription.tsx:417-420 | the unsigned 32-bit view of a number: in [0, 2^32) and congruent to it modulo 2^32 |
| Int32.ToInt32 | static/compilePlugins.js:129 | `x \| 0`: in [-2^31, 2^31), congruent to x modulo 2^32, and x itself when x is already in range |
| Int32.Byte | src/ui/components/data-inspector/DataDescription.tsx:417-420 | `(x >> 8k) & 0xff` is a byte |
| Int32.ToInt32Congruent | static/compilePlugins.js:128-129 | numbers congruent modulo 2^32 wrap to the same 32-bit value, so wrapping after every step equals wrapping once |
| Int32.ToInt32Uint32 | src/ui/components/data-inspector/DataDescription.tsx:292-298 | the signed and unsigned views of a number agree modulo 2^32 |
| Int32.Pack | src/ui/components/data-inspector/DataDescription.tsx:292-295 | the packed ARGB colour is a signed 32-bit number |
| Int32.PackBytes | src/ui/components/data-inspector/DataDescription.tsx:292-295 | unpacking a packed colour with the shifts of lines 417-420 gives back alpha, red, green and blue |
| Int32.Low24 | src/ui/components/data-inspector/DataDescription.tsx:298 | `x & 0x00ffffff` lies in [0, 2^24) |
| Int32.Low24Bytes | src/ui/components/data-inspector/DataDescription.tsx:298 | the low 24 bits are exactly the red, green and blue bytes |
| DataDescription.HexRunLength | src/ui/components/data-inspector/DataDescription.tsx:449-457 | the leading run that `parseInt(_, 16)` reads: all hex digits, followed by a non-digit or the end, and the whole text when it is all digits |
| DataDescription.ParseHex | src/ui/components/data-inspector/DataDescription.tsx:449-457 | `parseInt(s, 16)` is NaN exactly when s does not start with a hex digit, and the value of the digits when s is all digits |
| DataDescription.Chunks | src/ui/components/data-inspector/DataDescription.tsx:436-437 | `match(/.{1,2}/g)` yields chunks of one or two characters, (n+1)/2 of them for a text of n characters without line terminators |
| DataDescription.ParseColor | src/ui/components/data-inspector/DataDescription.tsx:405-459 | a number gives its four bytes, alpha highest; a non-string non-number, a string without a leading `#`, or one whose digits are not 3, 6 or 8 long gives nothing; alpha is full unless there are 8 digits |
| DataDescription.ChunksOfPairs | src/ui/components/data-inspector/DataDescription.tsx:436-437 | an even-length text without line terminators is cut into its successive pairs |
| DataDescription.ChunksOfDigits | src/ui/components/data-inspector/DataDescription.tsx:431-437 | six or eight hex digits are cut into three or four pairs |
| DataDescription.ParseColorSixDigits | src/ui/components/data-inspector/DataDescription.tsx:425-459 | `#rrggbb` reads as full alpha and the three pairs |
| DataDescription.ParseColorEightDigits | src/ui/components/data-inspector/DataDescription.tsx:443-459 | `#aarrggbb` reads the first pair as alpha and the next three as red, green, blue |
| DataDescription.ParseColorThreeDigitsAsWritten | src/ui/components/data-inspector/DataDescription.tsx:436-457 | as written, `#abc` reads as red 0xabab, green 0xcc and no blue (see Findings) |
| DataDescription.ParseColorCorrected | src/ui/components/data-inspector/DataDescription.tsx:405-459 | the corrected parser agrees with the written one on every value except a `#` and three characters |
| DataDescription.ParseColorCorrectedShorthand | src/ui/components/data-inspector/DataDescription.tsx:431-457 | with the shorthand read digit by digit, each channel of `#rgb` is its digit times 17 |
| DataDescription.PickerAlpha | src/ui/components/data-inspector/DataDescription.tsx:356 | `a \|\| 1`: a missing or zero alpha becomes 1, any other is kept |
| DataDescription.OnChange | src/ui/components/data-inspector/DataDescription.tsx:272-308 | a string value becomes the hex when alpha is 1 and an `rgba(r, g, b, a)` text otherwise; a number becomes a 32-bit colour whose low bytes are the picked channels and whose alpha is forced to 0xff when the previous colour was clear and the RGB changed; other values commit nothing |
| DataDescription.PickedNumber | src/ui/components/data-inspector/DataDescription.tsx:289-305 | the packed number's red, green and blue bytes are the picked ones; its alpha byte is 0xff when the previous colour was fully transparent and its RGB part differs, and the rounded alpha otherwise |
| DataDescription.OnChangeParsesBack | src/ui/components/data-inspector/DataDescription.tsx:290-299 | a number written by the picker parses back (lines 415-421) to the picked red, green and blue |
| DataDescription.EditorFor | src/ui/components/data-inspector/DataDescription.tsx:196-232 | an editor is shown exactly for the types `_hasEditUI` accepts, and the colour editor exactly for `color` |
| DataDescription.KeyDown | src/ui/components/data-inspector/DataDescription.tsx:99-115 | Enter commits and sets the current value (parsed for numbers) and stops editing; Escape restores the original value without keeping it; other keys commit nothing |
| DataDescription.InputChange | src/ui/components/data-inspector/DataDescription.tsx:86-97 | typing keeps the value without setting it or stopping; the value is the parsed number for a number field and the text otherwise |
| DataDescription.TextBlur | src/ui/components/data-inspector/DataDescription.tsx:123-130 | leaving the text editor sets the current value and stops editing |
| DataDescription.ColorBlur | src/ui/components/data-inspector/DataDescription.tsx:263-270 | dismissing the colour popover stops editing and keeps nothing |
| DataDescription.ColorCommit | src/ui/components/data-inspector/DataDescription.tsx:307 | a picked colour is kept and set while editing goes on |
| DataDescription.DataDescriptionState.constructor | src/ui/components/data-inspector/DataDescription.tsx:167-175 | a description starts not editing, with empty original and current values |
| DataDescription.DataDescriptionState.OnEditStart | src/ui/components/data-inspector/DataDescription.tsx:234-240 | editing starts only for a type with an editor; both values become the prop's value |
| DataDescription.DataDescriptionState.Commit | src/ui/components/data-inspector/DataDescription.tsx:177-194 | `setValue(path, value)` is called exactly when the options keep and set and a setter and a path exist; a kept value is stored; `clear` stops editing and resets both values; nothing else changes |
| CompilePlugins.PathList | desktop/static/compilePlugins.ts:183-185 | a single path given as a string becomes a one-element list |
| CompilePlugins.OrDefault | desktop/static/compilePlugins.ts:223 | `s \|\| d`: a present non-empty string is kept, an absent or empty one falls back to the default |
| CompilePlugins.EntryPlugin | desktop/static/compilePlugins.ts:199-236 | a folder entry yields a plugin exactly when it is a directory with a name, its manifest reads and parses, and (when required) its keywords hold `flipper-plugin`; the plugin carries that manifest and its name, its root is the entry's folder and its entry file `main` or `index.js` |
| CompilePlugins.CollectBy | desktop/static/compilePlugins.ts:237-241 | a name reads the plugin of the last entry yielding that name, and nothing when none does |
| CompilePlugins.CollectAbsent | desktop/static/compilePlugins.ts:237-241 | a name is missing from the folder's map exactly when no entry yields a plugin of that name |
| CompilePlugins.CollectLastWins | desktop/static/compilePlugins.ts:238-241 | a name maps to the plugin of the last entry yielding it |
| CompilePlugins.EntryPointsByName | desktop/static/compilePlugins.ts:194-242 | `entryPointForPluginFolder`: a name is present iff some entry yields it, and then maps to the plugin of the last such entry |
| CompilePlugins.AssignAllSnoc | desktop/static/compilePlugins.ts:186-191 | copying one more folder's plugins over the map replaces exactly the names that folder defines |
| CompilePlugins.AssignAllLaterWins | desktop/static/compilePlugins.ts:186-191 | a plugin name defined by several additional paths comes from the last of them |
| CompilePlugins.AssignAllBaseKept | desktop/static/compilePlugins.ts:182-191 | a name no additional path defines keeps its plugin from the default folder |
| CompilePlugins.Folders | desktop/static/compilePlugins.ts:186-187 | one plugin map per additional path, each that path's own |
| CompilePlugins.CopyKeys | desktop/static/compilePlugins.ts:188-190 | copying the keys one by one gives `Object.assign(entryPoints, additionalPlugins)` |
| CompilePlugins.PluginEntryPoints | desktop/static/compilePlugins.ts:180-193 | the plugins of `~/.flipper/node_modules` with each additional path's plugins assigned over them in order |
| CompilePlugins.MostRecentlyChanged | desktop/static/compilePlugins.ts:243-248 | the newest change time: no earlier than the epoch or any file's time, and either the epoch or one of the times |
| CompilePlugins.CacheUsableIff | desktop/static/compilePlugins.ts:282-290 | the cached build is reused iff not forced, the output exists, it is newer than the epoch and every source file changed strictly before it |
| CompilePlugins.CacheFileName | desktop/static/compilePlugins.ts:277-280 | the cache file name ends in `.js` |
| CompilePlugins.CacheFileNameParts | desktop/static/compilePlugins.ts:279 | the cache file name determines the plugin name and version: the version is what follows the last `@`, so scoped names do not collide |
| CompilePlugins.LastSeparatorSplit | desktop/static/compilePlugins.ts:279 | a text cut at its last `@` is cut in one way only |
| CompilePlugins.CompilePlugin | desktop/static/compilePlugins.ts:262-340 | a pre-built bundle is served from the plugin's folder unbuilt; otherwise the cache file is served, unbuilt iff the cache is usable, built iff the build succeeds; a failed build gives `null` when failing silently and is thrown otherwise |
| CompilePlugins.MergeOptions | desktop/static/compilePlugins.ts:27-62 | each option is the caller's when given and the default (force false, failSilently true, recompileOnChanges true) otherwise |
| CompilePlugins.ReadyInfos | desktop/static/compilePlugins.ts:78-80 | the filter keeps exactly the compiled plugins, no more of them than compilations |
| CompilePlugins.Gather | desktop/static/compilePlugins.ts:70-80 | awaiting the compilations rejects iff one threw, and otherwise gives the compiled plugins |
| CompilePlugins.Compilations | desktop/static/compilePlugins.ts:70-76 | one compilation per plugin, in the order the plugins were found, each with the merged options |
| CompilePlugins.CompileAll | desktop/static/compilePlugins.ts:56-83 | failing silently, compiling all plugins never rejects, and it yields at most one plugin per name found |
| LegacyCompilePlugins.CompilePlugin | static/compilePlugins.js:208-272 | the result is the manifest overlaid with root, name, entry and the cache file `<name>@<version>.js`; served unbuilt iff the cache is usable, built iff the build succeeds; a failed build gives `null` when failing silently and is thrown otherwise |
| LegacyCompilePlugins.Compilations | static/compilePlugins.js:41-48 | one compilation per plugin, in the order found, each with the same force and failSilently |
| LegacyCompilePlugins.SharedOptions.constructor | static/compilePlugins.js:33 | the shared options object holds the defaults overridden by the caller's options |
| LegacyCompilePlugins.SharedOptions.SetForce | static/compilePlugins.js:44 | `Object.assign(options, {force})` changes `force` and nothing else |
| LegacyCompilePlugins.CompileInitially | static/compilePlugins.js:41-53 | each plugin is compiled unforced, and when there is a plugin the shared options are left with `force` false |
| LegacyCompilePlugins.CompileAll | static/compilePlugins.js:27-53 | the export compiles every plugin found without the keyword filter, unforced, keeping the caller's failSilently |
| LegacyCompilePlugins.ForceIgnored | static/compilePlugins.js:33-44 | two option sets differing only in `force` give the same result; failing silently, the result is never an error |
| LegacyCompilePlugins.UntaggedPackagesCount | static/compilePlugins.js:175-183 | a package without the `flipper-plugin` keyword counts as a plugin here and not in the desktop compiler (desktop/static/compilePlugins.ts:213) |
| SectionsTree.FillOf | src/plugins/sections/Tree.js:88-95 | a node is lemon iff it triggered a state update, teal iff it did not but was reused, grape iff neither but dirty, and blue-grey otherwise |
| SectionsTree.TreeNode.constructor | src/plugins/sections/Tree.js:97-109 | a node carries the entry's name, the entry as attributes, its fill, and no children |
| SectionsTree.ChildIndices | src/plugins/sections/Tree.js:112-123 | the positions whose parent is the string `id`: all of them, no others, in input order |
| SectionsTree.ListedUnderItsParentOnly | src/plugins/sections/Tree.js:113-116 | an entry is listed under an identifier iff its parent names it, and an entry whose parent is not a string is listed nowhere |
| SectionsTree.Select | src/plugins/sections/Tree.js:117-121 | the nodes at the given positions, in that order |
| SectionsTree.FirstRoot | src/plugins/sections/Tree.js:130 | `find(node => !node.attributes.parent)`: the first entry with a falsy parent, or none when every parent is truthy |
| SectionsTree.MakeNodes | src/plugins/sections/Tree.js:87-110 | one fresh node per entry, mirroring it position by position, with the entry's name and fill |
| SectionsTree.ChildIndicesSnoc | src/plugins/sections/Tree.js:112-123 | one more entry extends the child list of its own parent only |
| SectionsTree.SelectSnoc | src/plugins/sections/Tree.js:119 | `children.concat(cv)` appends the node of the new child |
| SectionsTree.ParentMapStep | src/plugins/sections/Tree.js:117-121 | one `reduce` step keeps the parent map exact: after entry `i` is added under its parent, the map lists for each parent the nodes of the first `i + 1` entries naming it |
| SectionsTree.ParentMap | src/plugins/sections/Tree.js:112-123 | every identifier in the parent map maps to the nodes naming it as parent, in order, and never to an empty list; an identifier missing from it has no children |
| SectionsTree.LinkChildren | src/plugins/sections/Tree.js:125-127 | every node's children become exactly the nodes naming it as parent |
| SectionsTree.TreeFromFlatArray | src/plugins/sections/Tree.js:86-131 | one node per entry, each with the nodes naming it as parent for children, and the root is the node of the first entry with a falsy parent |
| SectionsTree.FindIsFirstRoot | src/plugins/sections/Tree.js:130 | searching the nodes for one with a falsy parent finds the node of the first such entry, and nothing when there is none |
| SectionsTree.TreeFromHierarchy | src/plugins/sections/Tree.js:133-138 | a node named by the component's type with one child per component child |
| SectionsTree.ChildTrees | src/plugins/sections/Tree.js:136 | the children mapped one for one |
| SectionsTree.HierarchyNamesPreserved | src/plugins/sections/Tree.js:133-138 | the tree lists the component types in the hierarchy's pre-order: none lost, added or moved |
| SectionsTree.HierarchyChildrenPreserved | src/plugins/sections/Tree.js:136 | the mapped children list the same types as the component children, in order |
| SectionsTree.TreeView.constructor | src/plugins/sections/Tree.js:140-149 | the initial tree is the one the first data builds, from a flat list or a hierarchy |
| SectionsTree.TreeView.ComponentWillReceiveProps | src/plugins/sections/Tree.js:153-163 | the tree is rebuilt from the new data iff the data reference changed, and kept otherwise |
| SectionsTree.BuildTree | src/plugins/sections/Tree.js:145-147 | a flat list gives the node of its first falsy-parent entry, a hierarchy its mapped tree |
| LayoutInspector.Call | src/plugins/layout/Inspector.js:41-52 | the AX inspector calls the `AX` variant of every client method except `setHighlighted`, and the view inspector the plain names |
| LayoutInspector.CallTablesDisjoint | src/plugins/layout/Inspector.js:41-52 | the two trees share only the highlighting method; every other call differs |
| LayoutInspector.Refreshed | src/plugins/layout/Inspector.js:181-184 | an incoming element keeps all its fields except `expanded`, which is taken from the stored element of the same id |
| LayoutInspector.Keyed | src/plugins/layout/Inspector.js:179-185 | each incoming element is paired with its id and its refreshed copy, position by position |
| LayoutInspector.MergeWithData | src/plugins/layout/Inspector.js:175-195 | no update iff no element came in |
| LayoutInspector.MergeKeepsExpanded | src/plugins/layout/Inspector.js:179-194 | after the merge an incoming id holds the last element with that id, carrying the stored `expanded` |
| LayoutInspector.MergeKeepsOthers | src/plugins/layout/Inspector.js:189-194 | an id no incoming element has keeps its stored element |
| LayoutInspector.Overlay | src/plugins/layout/Inspector.js:210-220 | only the element under `id` changes (and is created if missing); it has every field of `data` and, besides those, exactly the fields it had |
| LayoutInspector.Focused | src/plugins/layout/Inspector.js:72-82 | null outside the AX tree; otherwise the id of the first AX element flagged accessibility-focused, or undefined when none is |
| LayoutInspector.FocusedIsFirstFlagged | src/plugins/layout/Inspector.js:80-81 | in the AX tree, when element `k` is the first one flagged accessibility-focused, the focused id is that element's `id` |
| LayoutInspector.GetNodes | src/plugins/layout/Inspector.js:249-269 | no client call for an empty id list; otherwise the tree's `getNodes` method with the ids and `selected: false` |
| LayoutInspector.Invalidate | src/plugins/layout/Inspector.js:197-201 | an empty id list resolves at once; otherwise the nodes are requested |
| LayoutInspector.Inspector.constructor | src/plugins/layout/Inspector.js:36 | the inspector holds the tree kind and both element maps |
| LayoutInspector.Inspector.SetElements | src/plugins/layout/Inspector.js:186-194 | the inspector's own map is replaced and the other tree's map is untouched |
| LayoutInspector.Inspector.InvalidateWithData | src/plugins/layout/Inspector.js:175-195 | an empty list changes nothing; otherwise the inspector's map becomes the merge and the other map is untouched |
| LayoutInspector.Inspector.UpdateElement | src/plugins/layout/Inspector.js:210-220 | the inspector's map becomes the overlay of `data` on the element `id`, the other map untouched |
| LayoutInspector.Inspector.ReceiveNodes | src/plugins/layout/Inspector.js:262-265 | each returned element is overlaid under its id, in order |
| LayoutInspector.Inspector.OnElementExpanded | src/plugins/layout/Inspector.js:289-291 | the element's `expanded` becomes the negation of its truthiness; a missing element throws and changes nothing |
| LayoutInspector.OverlayAllOthers | src/plugins/layout/Inspector.js:263 | after the returned elements are overlaid, an id no returned element has keeps its element |
| LayoutInspector.ExpandTwice | src/plugins/layout/Inspector.js:289-291 | expanding an element twice restores the truthiness of its `expanded` |
| Databases.FirstTable | src/plugins/databases/index.js:124 | `tables[0]` is present iff there are tables, and is then the first |
| Databases.UpdateDatabases | src/plugins/databases/index.js:112-126 | the new databases are merged over the old; the selected database is kept when truthy and is otherwise the first key; the reducer throws iff no database is selected or the selected one is missing, and otherwise selects its first table and keeps the view mode |
| Databases.UpdateSelectedDatabase | src/plugins/databases/index.js:127-136 | the chosen database is selected with no table; databases and view mode kept |
| Databases.UpdateSelectedDatabaseTable | src/plugins/databases/index.js:137-145 | only the selected table changes |
| Databases.UpdateViewMode | src/plugins/databases/index.js:146-154 | only the view mode changes |
| Databases.UpdateSelectsPresentTable | src/plugins/databases/index.js:116-124 | after a successful update the selected database is in the map and the selected table is one of its tables; a database that came in is stored as it came, and any other is kept |
| Databases.EmptyFirstUpdateThrows | src/plugins/databases/index.js:104-124 | updating the initial state with no databases throws |
| Databases.ChoiceSurvivesUpdate | src/plugins/databases/index.js:118-136 | a database chosen by the user stays selected across an update that lists it, with its first table selected |
| Databases.EmptyUpdateKeepsDatabases | src/plugins/databases/index.js:116-124 | an update with no databases keeps the databases and a present selection |
| ListView.SetAdd | src/chrome/ListView.tsx:147 | `new Set([...s, id])` holds exactly the old elements and `id`, keeps the old ones first and in order, and adds no duplicates |
| ListView.GetDerivedStateFromProps | src/chrome/ListView.tsx:123-134 | no change while something is selected; an empty selection is replaced by the parent's set (multiple) or by its one element (single) |
| ListView.NextSelection | src/chrome/ListView.tsx:136-156 | single mode selects only `id`, or nothing when deselecting; multiple mode holds `id` iff it was selected now and every other element iff it was held before, without duplicates |
| ListView.ListView.constructor | src/chrome/ListView.tsx:122 | a list starts with an empty selection and no `onSelect` calls |
| ListView.ListView.DeriveState | src/chrome/ListView.tsx:123-134 | the selection becomes the derived one when there is one and is kept otherwise |
| ListView.ListView.HandleChange | src/chrome/ListView.tsx:136-160 | the selection becomes the next selection, and `onSelect` receives it iff there are no navigation buttons |
| ListView.ListView.Submit | src/chrome/ListView.tsx:191-193 | Submit passes the current selection to `onSelect` |
| ListView.SelectThenDeselect | src/chrome/ListView.tsx:146-155 | in multiple mode selecting and then deselecting an id drops it and keeps every other element |
| ListView.SingleDeselectIsRefilled | src/chrome/ListView.tsx:123-140 | in single mode deselecting empties the selection, so the next derivation restores the parent's element |
| SelectPluginSheet.PluginSelection.constructor | src/chrome/SelectPluginSheet.tsx:116 | a selection map holds the given entries |
| SelectPluginSheet.PluginSelection.Set | src/chrome/SelectPluginSheet.tsx:157 | `map.set(id, selected)` updates the entry in place, or appends it |
| SelectPluginSheet.SelectedIds | src/chrome/SelectPluginSheet.tsx:125-133 | every submitted id is flagged true in the map, every id flagged true is submitted, and there are no more of them than entries |
| SelectPluginSheet.SelectedIdsExact | src/chrome/SelectPluginSheet.tsx:125-133 | an id is submitted iff the map holds it with the flag true |
| SelectPluginSheet.SelectedIdsInOrder | src/chrome/SelectPluginSheet.tsx:125-133 | the submitted ids follow the map's insertion order: splitting the map splits the list |
| SelectPluginSheet.SelectPluginSheet.constructor | src/chrome/SelectPluginSheet.tsx:116 | the sheet starts with a fresh, empty map and no events |
| SelectPluginSheet.SelectPluginSheet.DeriveState | src/chrome/SelectPluginSheet.tsx:117-122 | a non-empty map is kept; an empty one is replaced by the parent's map object itself |
| SelectPluginSheet.SelectPluginSheet.Toggle | src/chrome/SelectPluginSheet.tsx:156-159 | the plugin's flag is set on the state's map object; every other plugin's flag is unchanged, and the keys are unchanged when the plugin was listed |
| SelectPluginSheet.SelectPluginSheet.OnSubmit | src/chrome/SelectPluginSheet.tsx:124-135 | `onSelect` receives the ids flagged true, in the map's order |
| SelectPluginSheet.SelectPluginSheet.Close | src/chrome/SelectPluginSheet.tsx:137-140 | Close dispatches `unsetShare` and then hides the sheet |
| Strings.ReplaceFirst | src/utils/exportData.tsx:281 | `String.replace` with a string pattern: unchanged when the pattern does not occur; otherwise only the first occurrence is replaced and the text around it is kept |
| Strings.ReplaceFirstContains | src/utils/exportData.tsx:298 | after replacing an occurring pattern, the replacement occurs in the result |
| Strings.ToLower | src/plugins/network/utils.js:14 | `toLowerCase` maps each character and keeps the length |
| OrderedMap.Put | src/plugins/databases/index.js:117 | `m[k] = v`: k maps to v, every other key is unchanged, and a new key is appended to the key order |
| OrderedMap.PutAll | src/plugins/layout/Inspector.js:179-188 | `reduce` of `acc[key] = value` over a list into a new map: reading a key gives the value of the last pair with that key |
| OrderedMap.LastValueAbsent | src/plugins/layout/Inspector.js:179-188 | a key is missing after the puts iff no pair has it |
| OrderedMap.LastValueAt | src/plugins/layout/Inspector.js:179-188 | when pair `i` is the last with its key, that key reads pair `i`'s value |
| OrderedMap.Assign | src/plugins/databases/index.js:117 | `{...m, ...u}`: a key of u takes u's value, any other key keeps m's |

## Left out

- The mobile-side C++ router (plugin registry, responder, step tracker) is not part of this model; only the per-plugin channel it drives is modelled, through `FlipperConnectionMock`.
- `Client.js` (the JavaScript predecessor of `Client.tsx`) is not part of this model.
- Transport and timing are outside the model: the WebSocket/RSocket connection, JSON encoding and decoding, `performance.mark`, the logger, the Redux store and its `dispatch`, and promises. Sent frames and dispatched actions are recorded as sequences, and a promise is a pending-table entry settled by the response handlers.
- Promise settlement order: the model settles a pending stream at most once, but it does not model JavaScript's microtask ordering.
- `FlipperDevicePlugin._init` and the `getDevice` promise of the old server are not modelled beyond the device the client stores.
- The persisting-plugin store and asynchronous `emit` are not part of this model.
- The default export of the connections reducer changes the error list in place: it sets the message of an error already listed, and `push`es the error onto `nextState.errors` when it is missing. For actions that return the previous state or a shallow copy of it (`default`, `PREFER_DEVICE`), that list is also the previous state's, so the previous state changes too. `Connections.Dispatch` builds a new list instead, so the model does not capture this aliasing.
- `localeCompare` is modelled as code-unit order; locale collation is not modelled.
- `dispatchAction` on reducer names inherited from `Object.prototype` (such as `toString`) is not modelled: the reducer table is a plain map.
- The NotificationsHub plugin id is a parameter.
- Plugin `serialize`/`deserialize` functions are opaque parameters.
- `base64Decode`, `pako` decompression and `utf8Decode` in `decodeBody` are parameters.
- Floating point:
  - the picker's alpha is a real, stored as a byte once rounded;
  - the text form of a number (`${a}`, `parseFloat`) is a parameter.
- Unicode case folding (`toLowerCase`) is modelled for ASCII letters only.
- `parseInt` quirks beyond leading hex digits (a sign, `0x` prefixes, whitespace) are not modelled.
- JavaScript strings are sequences of UTF-16 code units, and the model uses Dafny characters.
- `ChangesetDebug.setListener`, which registers the Sections plugin, is not part of this model.
- The shell model behind the quoting findings covers spaces, single quotes and backslash only. Double quotes are not modelled: `AndroidContainer.Words` reads `"` as an ordinary character, and the only fact about them is `PushCommand`'s position of the first `"`. Variable expansion, globbing and other metacharacters are not modelled either.
- React's batching of `setState` calls is not modelled; each update is applied at once.
- The adb client, `getAdbClient` and `readAll` are not part of this model. The command output is a parameter of the classifier.
- `console.warn` for unknown icons and the `ICONS` size table are not modelled; the available sizes are a parameter.
- `fs.existsSync` and `remote` in `getIconURL` are the `localExists` parameter.
- The text form of a size or density is the `show` parameter.
- `path.join` normalisation is not modelled: joining is concatenation with `/`.
- `expandTilde` is not modelled.
- Watchman, `startWatchChanges` and the delayed recompilation on change are not modelled. This includes the legacy `force: true` recompile at static/compilePlugins.js:100, which also leaves the shared options forced.
- `Metro.runBuild` is modelled as the `buildSucceeds` flag of the build environment.
- `pMap` concurrency is not modelled: compilations are listed in plugin order.
- `NODE_ENV`, `getMetroDir`, console output and creating the plugin cache folder are not modelled.
- `Object.assign` copying `undefined` option fields over the defaults is not modelled: an absent option keeps its default.
- File change times are integers, not `Date` objects.
- The React rendering of every component is not modelled. This covers the d3 tree, zoom and translate, `componentDidMount`, the context menus, and the `selected()`/`root()` render of the layout inspector.
- SectionsTree.TreeNode.constructor: the node's `attributes` is the entry itself, not a copy; the `nodeSvgShape` constants other than the fill are not modelled.
- The layout inspector's promise chains are not modelled: `componentDidMount`, `performInitialExpand`, `getChildren`, `getAndExpandPath`, the recursive `invalidate` after the reply, and the deep expansion in `onElementExpanded`. Their state changes are the modelled `UpdateElement` and `ReceiveNodes`.
- `debounce` and `componentDidUpdate`'s linked-node selection in the layout inspector are not modelled.
- Element ids are strings. The ordering JavaScript gives integer-like object keys is not modelled.
- The databases plugin's rendering, initialisation and demo data are not modelled; `undefined` and `null` tables are both absent.
- `ListView` and `SelectPluginSheet` rendering are not modelled; the store dispatch of `unsetShare` is recorded as an event.
- ExportData.ProcessStore: its contract states only the null case, the client count and the salted device id of every client; the full salting of states and notifications is stated by `ExportData.AddSaltToDeviceSerial`.
- reducers/pluginStates (`getPluginKey`) is not part of this model. Its key format is taken as `<target>#<id>`, as in src/PluginContainer.js:61.
- `BaseDevice.toJSON` is not part of this model.
- Strings.ReplaceFirst: the `$&`, `` $` ``, `$'` and `$$` patterns that `String.replace` expands in the replacement are not modelled; the replacement is inserted literally. The replacements the export makes are device serials, taken to contain no `$`.
- LegacyPluginContainer.Container.ComponentWillReceiveProps: when `computeState` throws, the error goes on to React, which is not modelled; the method reports it and leaves the component as it was. A throw in the constructor is kept as an error state.
- NetworkUtils.BuildCurlCommand: the loop of `convertRequestToCurlCommand` takes the quoting as a parameter; `ConvertRequestToCurlCommand` passes `escapedString` as written.

## Findings

| source | as written | input that shows it | evidently intended | confidence | as-written member | corrected member |
|---|---|---|---|---|---|---|
| src/plugin.js:116 | the plugin's `client.call(method, params)` passes the params as the third argument of `Client.call(api, method, fromPlugin, params)`, so they become `fromPlugin` and the call carries no params | any call with params, such as `{"id": 1}` | pass `true` for `fromPlugin` and the params as the fourth argument | not executed; medium: the file's type import names `./Client.js`, which is not part of this model, so the signature is taken from `src/Client.tsx`; the older `Client.call(api, method, params)` at src/server.js:292 takes exactly the three arguments given here, so the discrepancy holds only when the plugin is paired with the four-argument `call` of src/Client.tsx:580 | PluginInstance.ClientCallAsWrittenDropsParams, PluginInstance.FlipperPlugin.ClientCall | PluginInstance.FlipperPlugin.ClientCallCorrected |
| src/plugins/network/utils.js:79-82 | `escapeCharacter` writes `\u` and only two hex digits for the escaped characters (`\u0` and one digit below 16), while bash's `\u` reads up to four, so a hex digit that follows is absorbed | the body `!a` is escaped as `$'\u21a'`, which bash reads as the single character U+021A | pad the code to four hex digits | not executed | NetworkUtils.EscapedStringAsWrittenCorrupts, NetworkUtils.CurlCommandAsWrittenCorruptsBody | NetworkUtils.EscapedStringRoundTrip, NetworkUtils.CurlCommandCarriesBody |
| src/utils/androidContainerUtilityInternal.js:64-80 | the single quotes inside the command close the outer `'…'` of `echo '<cmd>'` | the path `a b` makes `echo` print `cat a b`, which reads two files | escape the inner quotes as `'\''` | not executed | AndroidContainer.ShellLineAsWrittenSplitsPath | AndroidContainer.ShellLine, AndroidContainer.EchoArgumentRoundTrip |
| src/ui/components/data-inspector/DataDescription.tsx:436-457 | `/.{1,2}/g` cuts the three digits of `#abc` into `ab` and `c`, and each chunk is doubled | `#abc` reads as red 0xabab, green 0xcc and no blue | CSS shorthand, each digit doubled | not executed | DataDescription.ParseColorThreeDigitsAsWritten | DataDescription.ParseColorCorrected, DataDescription.ParseColorCorrectedShorthand |
