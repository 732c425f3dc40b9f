/** The `connections` reducer of the desktop app (src/reducers/connections.tsx): the known
    devices and clients, what is selected, starred plugins and the error list, and the
    rule `updateSelection` uses to fall back to a sensible device, app and plugin. */
module Connections {
  import opened Wrappers
  import opened Targets
  import Seqs

  datatype StaticView = NoView | WelcomeScreen | SupportRequestForm | SupportRequestFormV2

  /** What a client setup failed with: an `Error` (its message) or any other value (its
      string conversion `'' + value`). */
  datatype SetupFailure = ErrorObject(message: string) | OtherValue(text: string)

  datatype FlipperError = FlipperError(
    occurrences: Option<int>,
    message: string,
    details: Option<string>,
    error: Option<SetupFailure>)

  datatype UninitializedClient = UninitializedClient(os: string, deviceName: string, appName: string)

  datatype UninitializedEntry = UninitializedEntry(
    client: UninitializedClient,
    deviceId: Option<string>,
    errorMessage: Option<string>)

  datatype State = State(
    devices: seq<Device>,
    androidEmulators: seq<string>,
    selectedDevice: Option<Device>,
    selectedPlugin: Option<string>,
    selectedApp: Option<string>,
    userPreferredDevice: Option<string>,
    userPreferredPlugin: Option<string>,
    userPreferredApp: Option<string>,
    starredPlugins: seq<string>,
    errors: seq<FlipperError>,
    clients: seq<ClientView>,
    uninitializedClients: seq<UninitializedEntry>,
    deepLinkPayload: Option<string>,
    staticView: StaticView)

  datatype Action =
    | SetStaticView(view: StaticView)
    | ResetSupportFormV2State
    | SelectDevice(device: Device)
    | RegisterAndroidEmulators(emulators: seq<string>)
    | RegisterDevice(device: Device)
    | UnregisterDevices(serials: set<string>)
    | SelectPlugin(plugin: Option<string>, app: Option<string>, deepLinkPayload: Option<string>)
    | StarPlugin(starred: string, starredApp: string)
    | SelectUserPreferredPlugin(preferred: string)
    | NewClient(client: ClientView)
    | SelectClient(clientId: string)
    | NewClientSanityCheck(checked: ClientView)
    | ClientRemoved(removedId: string)
    | PreferDevice(title: string)
    | ServerError(serverError: Option<FlipperError>)
    | StartClientSetup(setup: UninitializedClient)
    | FinishClientSetup(finished: UninitializedClient, deviceId: string)
    | ClientSetupError(failed: UninitializedClient, failure: SetupFailure)
    | DismissError(index: int)
    /** An action of another reducer. */
    | OtherAction

  const DefaultPlugin: string := "DeviceLogs"
  /** The ids of plugins every selection offers (the notifications hub). */
  const StaticPluginIds: seq<string> := ["notifications"]

  const InitialState: State :=
    State([], [], None, Some(DefaultPlugin), None, None, None, None, [], [], [], [], None, WelcomeScreen)

  /** A nullable string that is truthy: present and not empty. */
  predicate Present(o: Option<string>) {
    o.Some? && o.value != ""
  }

  /** `a || b` on nullable strings. */
  function Or(a: Option<string>, b: Option<string>): (r: Option<string>)
    ensures Present(a) ==> r == a
    ensures !Present(a) ==> r == b
  {
    if Present(a) then a else b
  }

  // ---------------------------------------------------------------- starred plugins

  /** STAR_PLUGIN: an unstarred plugin is appended; a starred one loses its first entry. */
  function ToggleStar(starred: seq<string>, p: string): (r: seq<string>)
    ensures p !in starred ==> r == starred + [p]
    ensures p in starred ==> |r| == |starred| - 1 && multiset(r) == multiset(starred) - multiset{p}
    ensures Seqs.NoDup(starred) ==> Seqs.NoDup(r) && (p in r <==> p !in starred)
  {
    var idx := Seqs.IndexOfElem(starred, p);
    if idx == -1 then
      assert Seqs.NoDup(starred) ==> Seqs.NoDup(starred + [p]);
      starred + [p]
    else
      if Seqs.NoDup(starred) then
        Seqs.RemoveAtNoDup(starred, idx);
        Seqs.RemoveAt(starred, idx)
      else
        Seqs.RemoveAt(starred, idx)
  }

  /** Starring a plugin twice restores the starred list exactly. */
  lemma ToggleStarTwice(starred: seq<string>, p: string)
    requires p !in starred
    ensures ToggleStar(ToggleStar(starred, p), p) == starred
  {
    var once := starred + [p];
    var idx := Seqs.IndexOfElem(once, p);
    assert forall i :: 0 <= i < |starred| ==> once[i] != p;
    assert idx == |starred|;
    assert Seqs.RemoveAt(once, idx) == starred;
  }

  // ---------------------------------------------------------------- errors

  /** The first index of an error with the given message, or -1. */
  function MessageIndex(errors: seq<FlipperError>, message: string): (r: int)
    ensures -1 <= r < |errors|
    ensures r == -1 <==> forall i :: 0 <= i < |errors| ==> errors[i].message != message
    ensures r >= 0 ==>
      (errors[r].message == message && forall j :: 0 <= j < r ==> errors[j].message != message)
    decreases |errors|
  {
    if |errors| == 0 then -1
    else if errors[0].message == message then 0
    else
      var k := MessageIndex(errors[1..], message);
      assert forall i :: 1 <= i < |errors| ==> errors[i] == errors[1..][i - 1];
      if k == -1 then -1 else k + 1
  }

  /** `mergeError(errors, e)`: an error whose message is already listed replaces that
      entry with its count raised by one; a new message is appended with count 1. */
  function MergeError(errors: seq<FlipperError>, e: FlipperError): (r: seq<FlipperError>)
    ensures MessageIndex(errors, e.message) >= 0 ==>
      var idx := MessageIndex(errors, e.message);
      |r| == |errors|
      && r[idx] == e.(occurrences := Some(errors[idx].occurrences.UnwrapOr(0) + 1))
      && forall j :: 0 <= j < |errors| && j != idx ==> r[j] == errors[j]
    ensures MessageIndex(errors, e.message) == -1 ==> r == errors + [e.(occurrences := Some(1))]
  {
    var idx := MessageIndex(errors, e.message);
    if idx != -1 then
      errors[idx := e.(occurrences := Some(errors[idx].occurrences.UnwrapOr(0) + 1))]
    else
      errors + [e.(occurrences := Some(1))]
  }

  predicate UniqueMessages(errors: seq<FlipperError>) {
    forall i, j :: 0 <= i < j < |errors| ==> errors[i].message != errors[j].message
  }

  /** Merging keeps one entry per message, and the merged message is listed afterwards. */
  lemma MergeErrorKeepsMessagesUnique(errors: seq<FlipperError>, e: FlipperError)
    requires UniqueMessages(errors)
    ensures UniqueMessages(MergeError(errors, e))
    ensures MessageIndex(MergeError(errors, e), e.message) >= 0
  {
    var r := MergeError(errors, e);
    var idx := MessageIndex(errors, e.message);
    if idx >= 0 {
      assert forall j :: 0 <= j < |r| ==> r[j].message == errors[j].message;
    } else {
      assert r[|errors|].message == e.message;
    }
  }

  /** JavaScript `splice(start, 1)`'s position: a negative start counts from the end, and
      a start past the end is the end. */
  function SpliceStart(len: nat, start: int): (k: nat)
    ensures k <= len
    ensures 0 <= start <= len ==> k == start
    ensures start < 0 && len + start >= 0 ==> k == len + start
    ensures len + start < 0 ==> k == 0
    ensures start > len ==> k == len
  {
    if start < 0 then (if len + start < 0 then 0 else len + start)
    else if start > len then len
    else start
  }

  /** `s.splice(start, 1)` on a copy: one entry removed, the rest in order. */
  function RemoveOneAt<T>(s: seq<T>, start: int): (r: seq<T>)
    ensures 0 <= start < |s| ==> r == s[..start] + s[start + 1..]
    ensures start >= |s| ==> r == s
    ensures start < 0 && |s| + start >= 0 ==> r == s[..|s| + start] + s[|s| + start + 1..]
    ensures |s| + start < 0 ==> r == (if |s| == 0 then s else s[1..])
  {
    var k := SpliceStart(|s|, start);
    if k < |s| then Seqs.RemoveAt(s, k) else s
  }

  // ---------------------------------------------------------------- clients

  /** The filter of `getAvailableClients`: a client of this device on an operating system
      the device supports, or an old Android client that does not know its device. */
  predicate ShownUnder(device: Device, c: ClientView) {
    (c.query.os in device.supportedOS && c.query.deviceId == device.serial)
    || c.query.deviceId == "unknown"
  }

  function AppKey(c: ClientView): string {
    c.query.app
  }

  /** `getAvailableClients(device, clients)`: none without a device; otherwise exactly the
      clients shown under it, ordered by app name. */
  function GetAvailableClients(device: Option<Device>, clients: seq<ClientView>): (r: seq<ClientView>)
    ensures device.None? ==> r == []
    ensures device.Some? ==>
      multiset(r) == multiset(Seqs.Filter(clients, (c: ClientView) => ShownUnder(device.value, c)))
    ensures device.Some? ==> forall i :: 0 <= i < |r| ==> r[i] in clients && ShownUnder(device.value, r[i])
    ensures device.Some? ==> forall c :: c in clients && ShownUnder(device.value, c) ==> c in r
    ensures Seqs.SortedBy(r, AppKey)
  {
    if device.None? then []
    else
      var shown := Seqs.Filter(clients, (c: ClientView) => ShownUnder(device.value, c));
      var r := Seqs.SortBy(shown, AppKey);
      Seqs.SameElements(r, shown);
      assert forall i :: 0 <= i < |r| ==> r[i] in shown;
      r
  }

  /** `getClientById(clients, id)`: the first client with that id. */
  function GetClientById(clients: seq<ClientView>, clientId: Option<string>): (r: Option<ClientView>)
    ensures r.None? <==> clientId.None? || forall i :: 0 <= i < |clients| ==> clients[i].id != clientId.value
    ensures r.Some? ==> exists i :: (0 <= i < |clients| && clients[i] == r.value
      && r.value.id == clientId.value && forall j :: 0 <= j < i ==> clients[j].id != clientId.value)
  {
    Seqs.Find(clients, (c: ClientView) => clientId.Some? && c.id == clientId.value)
  }

  /** `getBestAvailableClient`: the preferred client if it is available, else the first
      available one, else none. */
  function GetBestAvailableClient(device: Option<Device>, clients: seq<ClientView>,
                                  preferred: Option<string>): (r: Option<ClientView>)
    ensures r.None? <==> GetAvailableClients(device, clients) == []
    ensures r.Some? ==> r.value in GetAvailableClients(device, clients)
    ensures GetClientById(GetAvailableClients(device, clients), preferred).Some? ==>
      r == GetClientById(GetAvailableClients(device, clients), preferred)
    ensures GetClientById(GetAvailableClients(device, clients), preferred).None? && r.Some? ==>
      r.value == GetAvailableClients(device, clients)[0]
  {
    var available := GetAvailableClients(device, clients);
    if |available| == 0 then None
    else
      var byId := GetClientById(available, preferred);
      if byId.Some? then byId else Some(available[0])
  }

  // ---------------------------------------------------------------- selection

  /** Whether a device may be picked without being asked for (not a Mac). */
  predicate CanBeDefaultDevice(d: Device) {
    d.kind != Mac
  }

  /** The device `updateSelection` settles on: the selected one if it is still known,
      else the one titled as the user prefers, else the first that can be a default. */
  function ChooseDevice(s: State): (r: Option<Device>)
    ensures r.Some? ==> r.value in s.devices
    ensures s.selectedDevice.Some? && s.selectedDevice.value in s.devices ==> r == s.selectedDevice
    ensures (exists i :: 0 <= i < |s.devices| && CanBeDefaultDevice(s.devices[i])) ==> r.Some?
    ensures r.None? ==> forall i :: 0 <= i < |s.devices| ==> !CanBeDefaultDevice(s.devices[i])
  {
    if s.selectedDevice.Some? && s.selectedDevice.value in s.devices then s.selectedDevice
    else
      var byTitle := Seqs.Find(s.devices, (d: Device) => s.userPreferredDevice.Some? && d.title == s.userPreferredDevice.value);
      if byTitle.Some? then byTitle
      else Seqs.Find(s.devices, CanBeDefaultDevice)
  }

  /** Device plugins, then client plugins, then the static ones. */
  function AvailablePlugins(device: Option<Device>, client: Option<ClientView>): (r: seq<string>)
    ensures "notifications" in r
  {
    (if device.Some? then device.value.devicePlugins else [])
    + (if client.Some? then client.value.plugins else [])
    + StaticPluginIds
  }

  /** The plugins the new selection offers. */
  function SelectablePlugins(s: State): seq<string> {
    var device := ChooseDevice(s);
    AvailablePlugins(device, GetBestAvailableClient(device, s.clients, Or(s.selectedApp, s.userPreferredApp)))
  }

  /** The views that `updateSelection` leaves alone. */
  predicate PinnedView(v: StaticView) {
    v != NoView && v != WelcomeScreen
  }

  /** `updateSelection(state)`. */
  function UpdateSelection(s: State): (r: State)
    ensures PinnedView(s.staticView) ==> r == s
    ensures !PinnedView(s.staticView) ==>
      r == s.(staticView := r.staticView, selectedDevice := r.selectedDevice,
              selectedApp := r.selectedApp, selectedPlugin := r.selectedPlugin)
    // A device is picked whenever one can be, and only known devices are picked.
    ensures !PinnedView(s.staticView) ==> r.selectedDevice == ChooseDevice(s)
    // The welcome screen shows exactly when there is no device.
    ensures !PinnedView(s.staticView) ==>
      r.staticView == (if r.selectedDevice.None? then WelcomeScreen else NoView)
    // An app is selected exactly when a client is available for the device.
    ensures !PinnedView(s.staticView) ==>
      (r.selectedApp.None? <==> GetAvailableClients(r.selectedDevice, s.clients) == [])
    ensures !PinnedView(s.staticView) && r.selectedApp.Some? ==>
      exists c :: c in GetAvailableClients(r.selectedDevice, s.clients) && c.id == r.selectedApp.value
    // The app is the best available client, by the selected or else the preferred app.
    ensures !PinnedView(s.staticView) ==>
      var best := GetBestAvailableClient(r.selectedDevice, s.clients, Or(s.selectedApp, s.userPreferredApp));
      r.selectedApp == (if best.Some? then Some(best.value.id) else None)
    // The plugin: the preferred one if offered, else the current one if offered, else the default.
    ensures !PinnedView(s.staticView) ==> r.selectedPlugin.Some?
    ensures !PinnedView(s.staticView) ==>
      r.selectedPlugin.value == DefaultPlugin || r.selectedPlugin.value in SelectablePlugins(s)
    ensures (!PinnedView(s.staticView) && Present(s.userPreferredPlugin)
      && s.userPreferredPlugin.value in SelectablePlugins(s)) ==> r.selectedPlugin == s.userPreferredPlugin
    ensures (!PinnedView(s.staticView)
      && !(Present(s.userPreferredPlugin) && s.userPreferredPlugin.value in SelectablePlugins(s))
      && Present(s.selectedPlugin) && s.selectedPlugin.value in SelectablePlugins(s)) ==>
      r.selectedPlugin == s.selectedPlugin
    ensures (!PinnedView(s.staticView)
      && !(Present(s.userPreferredPlugin) && s.userPreferredPlugin.value in SelectablePlugins(s))
      && !(Present(s.selectedPlugin) && s.selectedPlugin.value in SelectablePlugins(s))) ==>
      r.selectedPlugin == Some(DefaultPlugin)
  {
    if PinnedView(s.staticView) then s
    else
      var device := ChooseDevice(s);
      var client := GetBestAvailableClient(device, s.clients, Or(s.selectedApp, s.userPreferredApp));
      var available := AvailablePlugins(device, client);
      var plugin :=
        if Present(s.userPreferredPlugin) && s.userPreferredPlugin.value in available then s.userPreferredPlugin
        else if !Present(s.selectedPlugin) || s.selectedPlugin.value !in available then Some(DefaultPlugin)
        else s.selectedPlugin;
      s.(staticView := if device.None? then WelcomeScreen else NoView,
         selectedDevice := device,
         selectedApp := if client.Some? then Some(client.value.id) else None,
         selectedPlugin := plugin)
  }

  /** With no client under an empty id, a second `updateSelection` changes nothing. */
  lemma UpdateSelectionIdempotent(s: State)
    requires forall i :: 0 <= i < |s.clients| ==> s.clients[i].id != ""
    ensures UpdateSelection(UpdateSelection(s)) == UpdateSelection(s)
  {
    var r := UpdateSelection(s);
    if !PinnedView(s.staticView) {
      var device := ChooseDevice(s);
      assert ChooseDevice(r) == device by {
        if device.None? {
          assert r.selectedDevice.None?;
        }
      }
      var available := GetAvailableClients(device, s.clients);
      var client := GetBestAvailableClient(device, s.clients, Or(s.selectedApp, s.userPreferredApp));
      var client' := GetBestAvailableClient(device, r.clients, Or(r.selectedApp, r.userPreferredApp));
      assert client' == client by {
        if client.Some? {
          assert Or(r.selectedApp, r.userPreferredApp) == Some(client.value.id);
          BestClientStable(device, s.clients, Or(s.selectedApp, s.userPreferredApp));
        }
      }
      assert SelectablePlugins(r) == SelectablePlugins(s);
    }
  }

  /** Preferring the best available client's own id picks that client again. */
  lemma BestClientStable(device: Option<Device>, clients: seq<ClientView>, preferred: Option<string>)
    requires GetBestAvailableClient(device, clients, preferred).Some?
    ensures var client := GetBestAvailableClient(device, clients, preferred);
      GetBestAvailableClient(device, clients, Some(client.value.id)) == client
  {
    var available := GetAvailableClients(device, clients);
    var client := GetBestAvailableClient(device, clients, preferred);
    if GetClientById(available, preferred).None? {
      assert client.value == available[0];
      assert GetClientById(available, Some(client.value.id)) == Some(available[0]);
    }
  }

  // ---------------------------------------------------------------- the reducer

  function EntryKey(e: UninitializedEntry): string {
    e.client.appName
  }

  /** Each entry for `client` gets `f`, the others stay. */
  function UpdateEntries(entries: seq<UninitializedEntry>, client: UninitializedClient,
                         f: UninitializedEntry -> UninitializedEntry): (r: seq<UninitializedEntry>)
    ensures |r| == |entries|
    ensures forall i :: 0 <= i < |entries| ==>
      r[i] == if entries[i].client == client then f(entries[i]) else entries[i]
  {
    seq(|entries|, i requires 0 <= i < |entries| =>
      if entries[i].client == client then f(entries[i]) else entries[i])
  }

  /** The entries of clients other than `client`, in order. */
  function OtherEntries(entries: seq<UninitializedEntry>, client: UninitializedClient): seq<UninitializedEntry> {
    Seqs.Filter(entries, (e: UninitializedEntry) => e.client != client)
  }

  /** START_CLIENT_SETUP: the client's old entries are replaced by a fresh one, the list
      kept in app-name order. */
  function StartSetup(entries: seq<UninitializedEntry>, client: UninitializedClient): (r: seq<UninitializedEntry>)
    ensures Seqs.SortedBy(r, EntryKey)
    ensures UninitializedEntry(client, None, None) in r
    ensures multiset(r)[UninitializedEntry(client, None, None)] == 1
    ensures forall i :: 0 <= i < |r| && r[i].client == client ==> r[i] == UninitializedEntry(client, None, None)
    ensures forall e :: e in entries && e.client != client ==> e in r
    ensures multiset(r) == multiset(OtherEntries(entries, client) + [UninitializedEntry(client, None, None)])
  {
    var kept := OtherEntries(entries, client);
    var newEntry := UninitializedEntry(client, None, None);
    var r := Seqs.SortBy(kept + [newEntry], EntryKey);
    StartSetupMembers(kept, newEntry, r);
    r
  }

  lemma StartSetupMembers(kept: seq<UninitializedEntry>, newEntry: UninitializedEntry, r: seq<UninitializedEntry>)
    requires forall i :: 0 <= i < |kept| ==> kept[i].client != newEntry.client
    requires multiset(r) == multiset(kept + [newEntry])
    ensures newEntry in r && multiset(r)[newEntry] == 1
    ensures forall i :: 0 <= i < |r| && r[i].client == newEntry.client ==> r[i] == newEntry
    ensures forall e :: e in kept ==> e in r
  {
    assert newEntry !in kept;
    assert multiset(kept)[newEntry] == 0;
    Seqs.SameElements(r, kept + [newEntry]);
    forall i | 0 <= i < |r| && r[i].client == newEntry.client ensures r[i] == newEntry {
      assert r[i] in kept + [newEntry];
    }
  }

  /** The text `CLIENT_SETUP_ERROR` reports for a failure. */
  function FailureText(f: SetupFailure): string {
    match f
    case ErrorObject(m) => m
    case OtherValue(t) => t
  }

  /** The entry CLIENT_SETUP_ERROR merges into the error list. */
  function SetupError(client: UninitializedClient, failure: SetupFailure): FlipperError {
    var message := FailureText(failure);
    FlipperError(None, "Client setup error: " + message,
      Some("Client setup error: " + message + " while setting up client: "
        + client.os + ":" + client.deviceName + ":" + client.appName),
      if failure.ErrorObject? then Some(failure) else None)
  }

  /** The error list after an action: only SERVER_ERROR, CLIENT_SETUP_ERROR and
      DISMISS_ERROR change it. */
  function ErrorsAfter(errors: seq<FlipperError>, action: Action): (r: seq<FlipperError>)
    ensures !(action.ServerError? || action.ClientSetupError? || action.DismissError?) ==> r == errors
    ensures action.ServerError? && action.serverError.None? ==> r == errors
  {
    match action
    case ServerError(e) => if e.None? then errors else MergeError(errors, e.value)
    case ClientSetupError(client, failure) => MergeError(errors, SetupError(client, failure))
    case DismissError(index) => RemoveOneAt(errors, index)
    case _ => errors
  }

  /** The connections reducer: the new state after one action. Its field frame is
      `ReduceChangesOnlyItsFields`; the error list it keeps is stated here. */
  function Reduce(s: State, action: Action): (r: State)
    ensures r.errors == ErrorsAfter(s.errors, action)
  {
    match action
    case SetStaticView(view) =>
      s.(staticView := view, selectedPlugin := if view != NoView then None else s.selectedPlugin)
    case ResetSupportFormV2State =>
      UpdateSelection(s.(staticView := NoView))
    case SelectDevice(d) =>
      UpdateSelection(s.(staticView := NoView, selectedDevice := Some(d), userPreferredDevice := Some(d.title)))
    case RegisterAndroidEmulators(emulators) =>
      s.(androidEmulators := emulators)
    case RegisterDevice(d) =>
      UpdateSelection(s.(devices := s.devices + [d]))
    case UnregisterDevices(serials) =>
      UpdateSelection(s.(devices := Seqs.Filter(s.devices, (d: Device) => d.serial !in serials)))
    case SelectPlugin(plugin, app, _) =>
      UpdateSelection(s.(staticView := NoView,
                         selectedApp := if Present(app) then app else None,
                         selectedPlugin := plugin,
                         userPreferredPlugin := Or(plugin, s.userPreferredPlugin)))
    case StarPlugin(plugin, _) =>
      s.(starredPlugins := ToggleStar(s.starredPlugins, plugin))
    case SelectUserPreferredPlugin(p) =>
      s.(userPreferredPlugin := Some(p))
    case NewClient(c) =>
      UpdateSelection(s.(
        clients := s.clients + [c],
        uninitializedClients := Seqs.Filter(s.uninitializedClients,
          (e: UninitializedEntry) => e.deviceId != Some(c.query.deviceId) || e.client.appName != c.query.app)))
    case SelectClient(clientId) =>
      UpdateSelection(s.(selectedApp := Some(clientId), userPreferredApp := Or(Some(clientId), s.userPreferredApp)))
    case NewClientSanityCheck(_) =>
      s
    case ClientRemoved(clientId) =>
      UpdateSelection(s.(clients := Seqs.Filter(s.clients, (c: ClientView) => c.id != clientId)))
    case PreferDevice(title) =>
      s.(userPreferredDevice := Some(title))
    case ServerError(e) =>
      s.(errors := ErrorsAfter(s.errors, action))
    case StartClientSetup(client) =>
      s.(uninitializedClients := StartSetup(s.uninitializedClients, client))
    case FinishClientSetup(client, deviceId) =>
      s.(uninitializedClients := Seqs.SortBy(
        UpdateEntries(s.uninitializedClients, client, (e: UninitializedEntry) => e.(deviceId := Some(deviceId))), EntryKey))
    case ClientSetupError(client, failure) =>
      s.(uninitializedClients := Seqs.SortBy(
           UpdateEntries(s.uninitializedClients, client, (e: UninitializedEntry) => e.(errorMessage := Some(FailureText(failure)))), EntryKey),
         errors := ErrorsAfter(s.errors, action))
    case DismissError(index) =>
      s.(errors := ErrorsAfter(s.errors, action))
    case OtherAction =>
      s
  }

  /** Each action changes only the fields it is about; the deep-link payload is never set. */
  lemma ReduceChangesOnlyItsFields(s: State, action: Action)
    ensures OnlyItsFields(s, action, Reduce(s, action))
  {
    if Selects(action) {
      SelectingActionFrame(s, action);
    } else {
      assert OnlyItsFields(s, action, Reduce(s, action));
    }
  }

  /** The fields other than the selection, as an action may change them. */
  predicate OnlyItsFields(s: State, action: Action, r: State) {
    && (!action.StarPlugin? ==> r.starredPlugins == s.starredPlugins)
    && (!action.RegisterAndroidEmulators? ==> r.androidEmulators == s.androidEmulators)
    && (!(action.RegisterDevice? || action.UnregisterDevices?) ==> r.devices == s.devices)
    && (!(action.NewClient? || action.ClientRemoved?) ==> r.clients == s.clients)
    && r.errors == ErrorsAfter(s.errors, action)
    && (!(action.NewClient? || action.StartClientSetup? || action.FinishClientSetup? || action.ClientSetupError?) ==>
          r.uninitializedClients == s.uninitializedClients)
    && r.deepLinkPayload == s.deepLinkPayload
  }

  /** The actions the reducer answers with `updateSelection`. */
  predicate Selects(action: Action) {
    action.ResetSupportFormV2State? || action.SelectDevice? || action.RegisterDevice? || action.UnregisterDevices?
    || action.SelectPlugin? || action.NewClient? || action.SelectClient? || action.ClientRemoved?
  }

  lemma SelectingActionFrame(s: State, action: Action)
    requires Selects(action)
    ensures OnlyItsFields(s, action, Reduce(s, action))
  {
    match action
    case ResetSupportFormV2State =>
      UpdateSelectionFrame(s.(staticView := NoView));
    case SelectDevice(d) =>
      UpdateSelectionFrame(s.(staticView := NoView, selectedDevice := Some(d), userPreferredDevice := Some(d.title)));
    case RegisterDevice(d) =>
      UpdateSelectionFrame(s.(devices := s.devices + [d]));
    case UnregisterDevices(serials) =>
      UpdateSelectionFrame(s.(devices := Seqs.Filter(s.devices, (d: Device) => d.serial !in serials)));
    case SelectPlugin(plugin, app, _) =>
      UpdateSelectionFrame(s.(staticView := NoView, selectedApp := if Present(app) then app else None,
                              selectedPlugin := plugin, userPreferredPlugin := Or(plugin, s.userPreferredPlugin)));
    case NewClient(c) =>
      UpdateSelectionFrame(s.(
        clients := s.clients + [c],
        uninitializedClients := Seqs.Filter(s.uninitializedClients,
          (e: UninitializedEntry) => e.deviceId != Some(c.query.deviceId) || e.client.appName != c.query.app)));
    case SelectClient(clientId) =>
      UpdateSelectionFrame(s.(selectedApp := Some(clientId), userPreferredApp := Or(Some(clientId), s.userPreferredApp)));
    case ClientRemoved(clientId) =>
      UpdateSelectionFrame(s.(clients := Seqs.Filter(s.clients, (c: ClientView) => c.id != clientId)));
  }

  /** `updateSelection` changes only the view, device, app and plugin. */
  lemma UpdateSelectionFrame(s: State)
    ensures var r := UpdateSelection(s);
      r.devices == s.devices && r.androidEmulators == s.androidEmulators && r.starredPlugins == s.starredPlugins
      && r.clients == s.clients && r.errors == s.errors && r.uninitializedClients == s.uninitializedClients
      && r.deepLinkPayload == s.deepLinkPayload
  {
  }

  /** No action lists two errors with the same message. */
  lemma ReduceKeepsMessagesUnique(s: State, action: Action)
    requires UniqueMessages(s.errors)
    ensures UniqueMessages(Reduce(s, action).errors)
  {
    ReduceChangesOnlyItsFields(s, action);
    assert Reduce(s, action).errors == ErrorsAfter(s.errors, action);
    match action
    case ServerError(e) =>
      if e.Some? {
        MergeErrorKeepsMessagesUnique(s.errors, e.value);
      }
    case ClientSetupError(client, failure) =>
      MergeErrorKeepsMessagesUnique(s.errors, SetupError(client, failure));
    case DismissError(index) =>
      RemoveOneAtKeepsMessagesUnique(s.errors, index);
    case _ =>
  }

  /** Removing one error keeps the messages unique. */
  lemma RemoveOneAtKeepsMessagesUnique(errors: seq<FlipperError>, start: int)
    requires UniqueMessages(errors)
    ensures UniqueMessages(RemoveOneAt(errors, start))
  {
    var k := SpliceStart(|errors|, start);
    if k < |errors| {
      var r := RemoveOneAt(errors, start);
      forall i, j | 0 <= i < j < |r| ensures r[i].message != r[j].message {
        var i' := if i < k then i else i + 1;
        var j' := if j < k then j else j + 1;
        assert r[i] == errors[i'] && r[j] == errors[j'];
      }
    }
  }

  /** STAR_PLUGIN twice on an unstarred plugin gives back the same state. */
  lemma StarPluginTwice(s: State, plugin: string, app: string)
    requires plugin !in s.starredPlugins
    ensures Reduce(Reduce(s, StarPlugin(plugin, app)), StarPlugin(plugin, app)) == s
  {
    ToggleStarTwice(s.starredPlugins, plugin);
  }

  /** DISMISS_ERROR with an index in range removes exactly that entry; nothing else changes. */
  lemma DismissErrorRemovesEntry(s: State, index: int)
    requires 0 <= index < |s.errors|
    ensures Reduce(s, DismissError(index)) ==
      s.(errors := s.errors[..index] + s.errors[index + 1..])
  {
  }

  /** UNREGISTER_DEVICES keeps exactly the devices whose serial is not listed, in order, and
      never leaves a removed device selected. */
  lemma UnregisterDevicesKeepsOthers(s: State, serials: set<string>)
    requires !PinnedView(s.staticView)
    ensures Reduce(s, UnregisterDevices(serials)).devices == Seqs.Filter(s.devices, (d: Device) => d.serial !in serials)
    ensures Reduce(s, UnregisterDevices(serials)).selectedDevice.Some? ==>
      Reduce(s, UnregisterDevices(serials)).selectedDevice.value.serial !in serials
  {
  }

  /** SELECT_PLUGIN remembers a truthy plugin as the user's preference. */
  lemma SelectPluginRemembersPreference(s: State, plugin: string, app: Option<string>, link: Option<string>)
    requires plugin != ""
    ensures Reduce(s, SelectPlugin(Some(plugin), app, link)).userPreferredPlugin == Some(plugin)
  {
  }

  // ---------------------------------------------------------------- the exported reducer

  const IosNotSupported: string := "iOS Devices are not yet supported"

  /** The reducer wrapped as it is exported: when a physical iOS device is selected but the
      iOS tools are not available (`iosAvailable`), the error list carries the
      "not supported" error, added once. */
  function Dispatch(s: State, action: Action, iosAvailable: bool): (r: State)
    ensures r == Reduce(s, action).(errors := r.errors)
    ensures var next := Reduce(s, action);
      if next.selectedDevice.Some? && next.selectedDevice.value.os == "iOS"
         && next.selectedDevice.value.deviceType == "physical" && !iosAvailable
      then MessageIndex(r.errors, IosNotSupported) >= 0
        && (MessageIndex(next.errors, IosNotSupported) >= 0 ==> r.errors == next.errors)
        && (MessageIndex(next.errors, IosNotSupported) == -1 ==>
             r.errors == next.errors + [FlipperError(None, IosNotSupported, None, None)])
      else r.errors == next.errors
    ensures UniqueMessages(Reduce(s, action).errors) ==> UniqueMessages(r.errors)
  {
    var next := Reduce(s, action);
    if next.selectedDevice.Some? && next.selectedDevice.value.os == "iOS"
       && next.selectedDevice.value.deviceType == "physical" && !iosAvailable
       && MessageIndex(next.errors, IosNotSupported) == -1
    then
      var errors := next.errors + [FlipperError(None, IosNotSupported, None, None)];
      assert errors[|next.errors|].message == IosNotSupported;
      next.(errors := errors)
    else next
  }
}
