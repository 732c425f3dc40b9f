/** Exporting the state of one device (src/utils/exportData.tsx): the clients, plugin
    states and notifications that belong to the device are selected, the plugin states
    are serialised by their plugin classes, and the device serial is replaced by a
    salted one everywhere. Plugin-state keys have the form `<client id>#<plugin id>`
    (or `<serial>#<plugin id>` for a device plugin). */
module ExportData {
  import opened Wrappers
  import opened OrderedMap
  import opened Targets
  import Strings
  import Seqs
  import ArchivedDevices
  import Json

  /** `ClientExport`: what is exported of a client. */
  datatype ClientExport = ClientExport(id: string, query: Query)

  /** A `PluginNotification`: the notification itself is carried along unchanged. */
  datatype PluginNotification = PluginNotification(notification: nat, pluginId: string, client: Option<string>)

  /** The device part of an export (`DeviceExport`). */
  datatype DeviceExport = DeviceExport(
    serial: string, deviceType: string, title: string, os: string, logs: seq<ArchivedDevices.LogEntry>)

  /** `ExportType`: the trace file's contents. */
  datatype ExportType = ExportType(
    fileVersion: string,
    flipperReleaseRevision: Option<string>,
    clients: seq<ClientExport>,
    device: DeviceExport,
    pluginStates: OMap<string>,
    activeNotifications: seq<PluginNotification>)

  // ---------------------------------------------------------------- clients

  /** `processClients`: the clients whose query names the device. */
  function ProcessClients(clients: seq<ClientExport>, serial: string): (r: seq<ClientExport>)
    ensures forall i :: 0 <= i < |r| ==> r[i] in clients && r[i].query.deviceId == serial
    ensures forall i :: 0 <= i < |clients| && clients[i].query.deviceId == serial ==> clients[i] in r
  {
    Seqs.Filter(clients, (c: ClientExport) => c.query.deviceId == serial)
  }

  /** Filtering keeps order: the clients of two lists are those of each, one after the other. */
  lemma ProcessClientsAppend(a: seq<ClientExport>, b: seq<ClientExport>, serial: string)
    ensures ProcessClients(a + b, serial) == ProcessClients(a, serial) + ProcessClients(b, serial)
  {
    Seqs.FilterAppend(a, b, (c: ClientExport) => c.query.deviceId == serial);
  }

  // ---------------------------------------------------------------- plugin classes

  /** What a lookup of `k` finds in `b` laid over `a`. */
  function Override<C>(b: OMap<C>, a: OMap<C>, k: string): Option<C> {
    if HasKey(b, k) then Get(b, k) else Get(a, k)
  }

  /** `pluginsClassMap`: every client plugin, then every device plugin, set into one map,
      so a device plugin replaces a client plugin of the same id. */
  method PluginsClassMap<C>(clientPlugins: OMap<C>, devicePlugins: OMap<C>) returns (m: OMap<C>)
    ensures forall k :: Get(m, k) == Override(devicePlugins, clientPlugins, k)
  {
    m := [];
    var i := 0;
    while i < |clientPlugins|
      invariant 0 <= i <= |clientPlugins|
      invariant forall k :: Get(m, k) == Get(clientPlugins[..i], k)
    {
      var e := clientPlugins[i];
      assert clientPlugins[..i + 1] == clientPlugins[..i] + [e];
      FreshBefore(clientPlugins, i);
      forall k ensures Get(clientPlugins[..i + 1], k) == if k == e.0 then Some(e.1) else Get(clientPlugins[..i], k) {
        GetSnoc(clientPlugins[..i], e, k);
      }
      m := Put(m, e.0, e.1);
      i := i + 1;
    }
    assert clientPlugins[..i] == clientPlugins;
    var j := 0;
    while j < |devicePlugins|
      invariant 0 <= j <= |devicePlugins|
      invariant forall k :: Get(m, k) == Override(devicePlugins[..j], clientPlugins, k)
    {
      var e := devicePlugins[j];
      assert devicePlugins[..j + 1] == devicePlugins[..j] + [e];
      FreshBefore(devicePlugins, j);
      forall k ensures Get(devicePlugins[..j + 1], k) == if k == e.0 then Some(e.1) else Get(devicePlugins[..j], k) {
        GetSnoc(devicePlugins[..j], e, k);
      }
      m := Put(m, e.0, e.1);
      j := j + 1;
    }
    assert devicePlugins[..j] == devicePlugins;
  }

  // ---------------------------------------------------------------- plugin states

  /** The plugin a key belongs to: the piece after its last `#` (`keyArray.pop()`). */
  function PluginNameOf(key: string): string {
    Strings.LastPiece(key, '#')
  }

  /** The client part of a key: the pieces before the last `#`, joined again. */
  function ClientPartOf(key: string): string {
    Strings.PrefixBeforeLast(key, '#')
  }

  /** `keyArray[0]` after the pop: the first piece, absent when the key has no `#`. */
  function FirstSegment(key: string): Option<string> {
    var parts := Strings.Split(key, '#');
    if |parts| >= 2 then Some(parts[0]) else None
  }

  /** The inputs of `processPluginStates` other than the states themselves. */
  datatype ProcessPluginStatesOptions = ProcessPluginStatesOptions(
    clients: seq<ClientExport>, serial: string, devicePlugins: set<string>, selectedPlugins: seq<string>)

  /** A key is dropped when it names a plugin outside a non-empty selection; otherwise it
      is kept when some client id contains its client part, or when it names a device
      plugin and its first segment is the serial. */
  predicate KeepPluginState(key: string, o: ProcessPluginStatesOptions) {
    var name := PluginNameOf(key);
    !(name != "" && |o.selectedPlugins| > 0 && name !in o.selectedPlugins)
    && ((exists i :: 0 <= i < |o.clients| && Strings.Contains(o.clients[i].id, ClientPartOf(key)))
        || (name != "" && name in o.devicePlugins && FirstSegment(key) == Some(o.serial)))
  }

  /** The entries of `m` that `processPluginStates` keeps, in their order. */
  function KeptPluginStates<V>(m: seq<(string, V)>, o: ProcessPluginStatesOptions): (r: seq<(string, V)>)
    ensures forall k :: Get(r, k) == if KeepPluginState(k, o) then Get(m, k) else None
    ensures UniqueKeys(m) ==> UniqueKeys(r)
    decreases |m|
  {
    if |m| == 0 then []
    else
      var rest := KeptPluginStates(m[..|m| - 1], o);
      var e := m[|m| - 1];
      assert m == m[..|m| - 1] + [e];
      forall k ensures Get(m, k) == if HasKey(m[..|m| - 1], k) then Get(m[..|m| - 1], k) else if e.0 == k then Some(e.1) else None {
        GetSnoc(m[..|m| - 1], e, k);
      }
      if KeepPluginState(e.0, o) then
        forall k ensures Get(rest + [e], k) == if HasKey(rest, k) then Get(rest, k) else if e.0 == k then Some(e.1) else None {
          GetSnoc(rest, e, k);
        }
        KeptUnique(m, rest, e, o);
        rest + [e]
      else
        rest
  }

  lemma KeptUnique<V>(m: seq<(string, V)>, rest: seq<(string, V)>, e: (string, V), o: ProcessPluginStatesOptions)
    requires |m| > 0 && e == m[|m| - 1]
    requires forall k :: Get(rest, k) == if KeepPluginState(k, o) then Get(m[..|m| - 1], k) else None
    requires UniqueKeys(m[..|m| - 1]) ==> UniqueKeys(rest)
    ensures UniqueKeys(m) ==> UniqueKeys(rest + [e])
  {
    if UniqueKeys(m) {
      assert UniqueKeys(m[..|m| - 1]);
      FreshBefore(m, |m| - 1);
      assert Get(rest, e.0).None?;
    }
  }

  /** `processPluginStates`: a for-in over the states that spreads each kept entry into a
      fresh object. The result is a subset of the input, in the input's order. */
  method ProcessPluginStates<V>(allPluginStates: OMap<V>, o: ProcessPluginStatesOptions) returns (r: OMap<V>)
    ensures r == KeptPluginStates(allPluginStates, o)
  {
    r := [];
    var i := 0;
    while i < |allPluginStates|
      invariant 0 <= i <= |allPluginStates|
      invariant r == KeptPluginStates(allPluginStates[..i], o)
    {
      var key := allPluginStates[i].0;
      assert allPluginStates[..i + 1][..i] == allPluginStates[..i];
      if KeepPluginState(key, o) {
        FreshBefore(allPluginStates, i);
        assert !HasKey(r, key);
        PutFresh(r, key, allPluginStates[i].1);
        r := Put(r, key, allPluginStates[i].1);
      }
      i := i + 1;
    }
    assert allPluginStates[..i] == allPluginStates;
  }

  // ---------------------------------------------------------------- notifications

  /** A notification is exported when its (non-empty) client is contained in some client
      id, or when it comes from a device plugin and its client is the serial. */
  predicate KeepNotification(n: PluginNotification, clients: seq<ClientExport>, serial: string, devicePlugins: set<string>) {
    (n.client.Some? && n.client.value != ""
      && exists i :: 0 <= i < |clients| && Strings.Contains(clients[i].id, n.client.value))
    || (n.pluginId in devicePlugins && n.client == Some(serial))
  }

  /** `processNotificationStates`. */
  function ProcessNotificationStates(
    clients: seq<ClientExport>, serial: string, notifications: seq<PluginNotification>, devicePlugins: set<string>): (r: seq<PluginNotification>)
    ensures forall i :: 0 <= i < |r| ==> r[i] in notifications && KeepNotification(r[i], clients, serial, devicePlugins)
    ensures forall i :: (0 <= i < |notifications| && KeepNotification(notifications[i], clients, serial, devicePlugins)
      ==> notifications[i] in r)
  {
    Seqs.Filter(notifications, (n: PluginNotification) => KeepNotification(n, clients, serial, devicePlugins))
  }

  // ---------------------------------------------------------------- (de)serialisation

  /** The plugin class a key's plugin name resolves to; an empty name resolves to none. */
  function ClassOf<C>(key: string, classes: OMap<C>): Option<C> {
    var name := PluginNameOf(key);
    if name == "" then None else Get(classes, name)
  }

  /** A value converted by its class, when there are both. */
  function ConvertedValue<C, S, T>(v: Option<S>, c: Option<C>, convert: (C, S) -> T): Option<T> {
    if v.Some? && c.Some? then Some(convert(c.value, v.value)) else None
  }

  /** The entries whose plugin has a class, each value converted by that class. */
  function Converted<C, S, T>(m: seq<(string, S)>, classes: OMap<C>, convert: (C, S) -> T): (r: seq<(string, T)>)
    ensures forall k :: Get(r, k) == ConvertedValue(Get(m, k), ClassOf(k, classes), convert)
    ensures UniqueKeys(m) ==> UniqueKeys(r)
    decreases |m|
  {
    if |m| == 0 then []
    else
      var init := m[..|m| - 1];
      var rest := Converted(init, classes, convert);
      var e := m[|m| - 1];
      assert m == init + [e];
      ConvertedSnoc(init, e, rest, classes, convert);
      match ClassOf(e.0, classes)
      case None => rest
      case Some(c) =>
        var e' := (e.0, convert(c, e.1));
        ConvertedUnique(m, rest, e', classes, convert);
        rest + [e']
  }

  /** One more entry: kept, converted, when its plugin has a class; dropped otherwise. */
  lemma ConvertedSnoc<C, S, T>(init: seq<(string, S)>, e: (string, S), rest: seq<(string, T)>, classes: OMap<C>,
                               convert: (C, S) -> T)
    requires forall k :: Get(rest, k) == ConvertedValue(Get(init, k), ClassOf(k, classes), convert)
    ensures ClassOf(e.0, classes).None? ==>
      forall k :: Get(rest, k) == ConvertedValue(Get(init + [e], k), ClassOf(k, classes), convert)
    ensures ClassOf(e.0, classes).Some? ==>
      var e' := (e.0, convert(ClassOf(e.0, classes).value, e.1));
      forall k :: Get(rest + [e'], k) == ConvertedValue(Get(init + [e], k), ClassOf(k, classes), convert)
  {
    var c := ClassOf(e.0, classes);
    forall k ensures c.None? ==> Get(rest, k) == ConvertedValue(Get(init + [e], k), ClassOf(k, classes), convert) {
      GetSnoc(init, e, k);
    }
    if c.Some? {
      var e' := (e.0, convert(c.value, e.1));
      forall k ensures Get(rest + [e'], k) == ConvertedValue(Get(init + [e], k), ClassOf(k, classes), convert) {
        GetSnoc(init, e, k);
        GetSnoc(rest, e', k);
      }
    }
  }

  lemma ConvertedUnique<C, S, T>(m: seq<(string, S)>, rest: seq<(string, T)>, e': (string, T), classes: OMap<C>, convert: (C, S) -> T)
    requires |m| > 0 && e'.0 == m[|m| - 1].0
    requires forall k :: Get(rest, k).Some? ==> Get(m[..|m| - 1], k).Some?
    requires UniqueKeys(m[..|m| - 1]) ==> UniqueKeys(rest)
    ensures UniqueKeys(m) ==> UniqueKeys(rest + [e'])
  {
    if UniqueKeys(m) {
      assert UniqueKeys(m[..|m| - 1]);
      FreshBefore(m, |m| - 1);
      assert Get(rest, e'.0).None?;
    }
  }

  /** The loop shared by `serializePluginStates` and `deserializePluginStates`: the class
      map is built as `pluginsClassMap` builds it, and every key whose plugin has a class
      gets its value converted by that class; the other keys are dropped. */
  method ConvertPluginStates<C, S, T>(states: OMap<S>, clientPlugins: OMap<C>, devicePlugins: OMap<C>, convert: (C, S) -> T)
    returns (r: OMap<T>, classes: OMap<C>)
    ensures forall k :: Get(classes, k) == Override(devicePlugins, clientPlugins, k)
    ensures r == Converted(states, classes, convert)
  {
    classes := PluginsClassMap(clientPlugins, devicePlugins);
    r := [];
    var i := 0;
    while i < |states|
      invariant 0 <= i <= |states|
      invariant r == Converted(states[..i], classes, convert)
    {
      var key := states[i].0;
      assert states[..i + 1][..i] == states[..i];
      var pluginClass := ClassOf(key, classes);
      if pluginClass.Some? {
        FreshBefore(states, i);
        assert !HasKey(r, key);
        PutFresh(r, key, convert(pluginClass.value, states[i].1));
        r := Put(r, key, convert(pluginClass.value, states[i].1));
      }
      i := i + 1;
    }
    assert states[..i] == states;
  }

  // ---------------------------------------------------------------- salting

  /** The serial the export uses instead of the device's own. */
  function SaltedSerial(salt: string, serial: string): (r: string)
    ensures Strings.EndsWith(r, "-" + serial)
  {
    salt + "-" + serial
  }

  /** A client with its id's first occurrence of the serial replaced and the salted
      serial as its `device_id`. */
  function SaltClient(c: ClientExport, serial: string, newSerial: string): (r: ClientExport)
    ensures r.query.deviceId == newSerial
    ensures r.query.(deviceId := c.query.deviceId) == c.query
    ensures Strings.Contains(c.id, serial) ==> Strings.Contains(r.id, newSerial)
    ensures !Strings.Contains(c.id, serial) ==> r.id == c.id
  {
    var r := c.(id := Strings.ReplaceFirst(c.id, serial, newSerial), query := c.query.(deviceId := newSerial));
    if Strings.Contains(c.id, serial) then
      Strings.ReplaceFirstContains(c.id, serial, newSerial);
      r
    else
      r
  }

  function StateKeyError(key: string, serial: string): string {
    "Error while exporting, plugin state (" + key + ") does not have " + serial + " in its key"
  }

  function NotificationError(pluginId: string, serial: string): string {
    "Error while exporting, plugin state (" + pluginId + ") does not have " + serial + " in it"
  }

  /** The plugin states under their rewritten keys, set one after the other (a later
      entry wins should two keys rewrite to the same one). */
  function Rekeyed<V>(m: seq<(string, V)>, serial: string, newSerial: string): (r: OMap<V>)
    decreases |m|
  {
    if |m| == 0 then []
    else Put(Rekeyed(m[..|m| - 1], serial, newSerial), Strings.ReplaceFirst(m[|m| - 1].0, serial, newSerial), m[|m| - 1].1)
  }

  /** `k` is the rewritten key of some entry of `m`. */
  predicate Rewrites<V>(m: seq<(string, V)>, serial: string, newSerial: string, k: string) {
    exists i :: 0 <= i < |m| && Strings.ReplaceFirst(m[i].0, serial, newSerial) == k
  }

  /** The salted states hold exactly the rewritten keys. */
  lemma {:induction false} RekeyedKeys<V>(m: seq<(string, V)>, serial: string, newSerial: string, k: string)
    ensures HasKey(Rekeyed(m, serial, newSerial), k) <==> Rewrites(m, serial, newSerial, k)
    decreases |m|
  {
    if |m| > 0 {
      var init := m[..|m| - 1];
      RekeyedKeys(init, serial, newSerial, k);
      RekeyedStep(m, serial, newSerial, k);
      RewritesSnoc(m, serial, newSerial, k);
    }
  }

  /** One more entry adds its rewritten key. */
  lemma RekeyedStep<V>(m: seq<(string, V)>, serial: string, newSerial: string, k: string)
    requires |m| > 0
    ensures HasKey(Rekeyed(m, serial, newSerial), k) <==>
      HasKey(Rekeyed(m[..|m| - 1], serial, newSerial), k) || Strings.ReplaceFirst(m[|m| - 1].0, serial, newSerial) == k
  {
    var init := Rekeyed(m[..|m| - 1], serial, newSerial);
    PutGet(init, Strings.ReplaceFirst(m[|m| - 1].0, serial, newSerial), m[|m| - 1].1, k);
  }

  /** A key is a rewritten key of some entry iff it is one of the earlier entries' or
      the last entry's. */
  lemma RewritesSnoc<V>(m: seq<(string, V)>, serial: string, newSerial: string, k: string)
    requires |m| > 0
    ensures Rewrites(m, serial, newSerial, k) <==>
      Rewrites(m[..|m| - 1], serial, newSerial, k) || Strings.ReplaceFirst(m[|m| - 1].0, serial, newSerial) == k
  {
    var init := m[..|m| - 1];
    if Rewrites(m, serial, newSerial, k) {
      var i :| 0 <= i < |m| && Strings.ReplaceFirst(m[i].0, serial, newSerial) == k;
      if i < |init| {
        assert init[i] == m[i];
      }
    }
    if Rewrites(init, serial, newSerial, k) {
      var i :| 0 <= i < |init| && Strings.ReplaceFirst(init[i].0, serial, newSerial) == k;
      assert init[i] == m[i];
    }
  }

  /** The for-in over the plugin states in `addSaltToDeviceSerial`: the first key without
      the serial aborts the export with an error. */
  method SaltPluginStates<V>(pluginStates: OMap<V>, serial: string, newSerial: string) returns (r: Result<OMap<V>, string>)
    ensures r.Err? <==> exists i :: 0 <= i < |pluginStates| && !Strings.Contains(pluginStates[i].0, serial)
    ensures r.Err? ==> exists i :: (0 <= i < |pluginStates| && !Strings.Contains(pluginStates[i].0, serial)
      && r.error == StateKeyError(pluginStates[i].0, serial)
      && forall j :: 0 <= j < i ==> Strings.Contains(pluginStates[j].0, serial))
    ensures r.Ok? ==> r.value == Rekeyed(pluginStates, serial, newSerial)
  {
    var updated: OMap<V> := [];
    var i := 0;
    while i < |pluginStates|
      invariant 0 <= i <= |pluginStates|
      invariant forall j :: 0 <= j < i ==> Strings.Contains(pluginStates[j].0, serial)
      invariant updated == Rekeyed(pluginStates[..i], serial, newSerial)
    {
      var key := pluginStates[i].0;
      if !Strings.Contains(key, serial) {
        return Err(StateKeyError(key, serial));
      }
      assert pluginStates[..i + 1][..i] == pluginStates[..i];
      updated := Put(updated, Strings.ReplaceFirst(key, serial, newSerial), pluginStates[i].1);
      i := i + 1;
    }
    assert pluginStates[..i] == pluginStates;
    r := Ok(updated);
  }

  /** Every key of the salted plugin states holds the salted serial. */
  lemma RekeyedKeysHoldNewSerial<V>(m: seq<(string, V)>, serial: string, newSerial: string)
    requires forall i :: 0 <= i < |m| ==> Strings.Contains(m[i].0, serial)
    ensures forall k :: HasKey(Rekeyed(m, serial, newSerial), k) ==> Strings.Contains(k, newSerial)
  {
    forall k | HasKey(Rekeyed(m, serial, newSerial), k) ensures Strings.Contains(k, newSerial) {
      RekeyedKeys(m, serial, newSerial, k);
      var i :| 0 <= i < |m| && Strings.ReplaceFirst(m[i].0, serial, newSerial) == k;
      Strings.ReplaceFirstContains(m[i].0, serial, newSerial);
    }
  }

  /** `notif.client && notif.client.includes(serial)`: the empty client is falsy. */
  predicate HoldsSerial(n: PluginNotification, serial: string) {
    n.client.Some? && n.client.value != "" && Strings.Contains(n.client.value, serial)
  }

  /** `{...notif, client: notif.client.replace(serial, newSerial)}`. */
  function SaltedNotification(n: PluginNotification, serial: string, newSerial: string): PluginNotification {
    if n.client.Some? then n.(client := Some(Strings.ReplaceFirst(n.client.value, serial, newSerial))) else n
  }

  /** A `map` whose callback throws on the first element that fails `ok`. */
  function MapChecked<T, E>(xs: seq<T>, ok: T -> bool, f: T -> T, err: T -> E): (r: Result<seq<T>, E>)
    ensures r.Err? <==> exists i :: 0 <= i < |xs| && !ok(xs[i])
    ensures r.Ok? ==> |r.value| == |xs| && forall i :: 0 <= i < |xs| ==> r.value[i] == f(xs[i])
    ensures r.Err? ==> exists i :: 0 <= i < |xs| && !ok(xs[i]) && r.error == err(xs[i])
    decreases |xs|
  {
    if |xs| == 0 then Ok([])
    else if !ok(xs[0]) then Err(err(xs[0]))
    else
      var tail := xs[1..];
      assert forall i :: 1 <= i < |xs| ==> tail[i - 1] == xs[i];
      match MapChecked(tail, ok, f, err)
      case Err(e) => Err(e)
      case Ok(rest) => Ok([f(xs[0])] + rest)
  }

  /** The `map` over the notifications in `addSaltToDeviceSerial`: each client has its
      first occurrence of the serial replaced; the first notification without a
      (non-empty) client holding the serial aborts the export. */
  function SaltNotifications(ns: seq<PluginNotification>, serial: string, newSerial: string): (r: Result<seq<PluginNotification>, string>)
    ensures r.Err? <==> exists i :: 0 <= i < |ns| && !HoldsSerial(ns[i], serial)
    ensures r.Ok? ==> |r.value| == |ns| && forall i :: 0 <= i < |ns| ==>
      HoldsSerial(ns[i], serial) && r.value[i] == SaltedNotification(ns[i], serial, newSerial)
    ensures r.Err? ==> exists i :: 0 <= i < |ns| && r.error == NotificationError(ns[i].pluginId, serial)
  {
    MapChecked(ns, n => HoldsSerial(n, serial), n => SaltedNotification(n, serial, newSerial),
               (n: PluginNotification) => NotificationError(n.pluginId, serial))
  }

  /** `addSaltToDeviceSerial`: the version, revision and device logs are inputs here. */
  method AddSaltToDeviceSerial(
    salt: string, device: Device, deviceLogs: seq<ArchivedDevices.LogEntry>, clients: seq<ClientExport>,
    pluginStates: OMap<string>, notifications: seq<PluginNotification>, selectedPlugins: seq<string>,
    fileVersion: string, revision: Option<string>)
    returns (r: Result<ExportType, string>)
    ensures r.Err? <==>
      (exists i :: 0 <= i < |pluginStates| && !Strings.Contains(pluginStates[i].0, device.serial))
      || SaltNotifications(notifications, device.serial, SaltedSerial(salt, device.serial)).Err?
    ensures r.Ok? ==>
      var newSerial := SaltedSerial(salt, device.serial);
      && r.value.device.serial == newSerial
      && r.value.device.deviceType == ArchivedDevices.ArchivedType(device.deviceType)
      && r.value.device.logs == (if "DeviceLogs" in selectedPlugins then deviceLogs else [])
      && |r.value.clients| == |clients|
      && (forall i :: 0 <= i < |clients| ==> r.value.clients[i] == SaltClient(clients[i], device.serial, newSerial))
      && r.value.pluginStates == Rekeyed(pluginStates, device.serial, newSerial)
      && SaltNotifications(notifications, device.serial, newSerial) == Ok(r.value.activeNotifications)
  {
    var serial := device.serial;
    var newSerial := SaltedSerial(salt, serial);
    var newDevice := new ArchivedDevices.ArchivedDevice(newSerial, device.deviceType, device.title, device.os,
      if "DeviceLogs" in selectedPlugins then deviceLogs else []);
    var updatedClients := seq(|clients|, i requires 0 <= i < |clients| => SaltClient(clients[i], serial, newSerial));
    var updatedStates := SaltPluginStates(pluginStates, serial, newSerial);
    if updatedStates.Err? {
      return Err(updatedStates.error);
    }
    var updatedNotifications := SaltNotifications(notifications, serial, newSerial);
    if updatedNotifications.Err? {
      return Err(updatedNotifications.error);
    }
    var logs := newDevice.GetLogs();
    r := Ok(ExportType(fileVersion, revision, updatedClients,
      DeviceExport(newDevice.serial, newDevice.deviceType, newDevice.title, newDevice.os, logs),
      updatedStates.value, updatedNotifications.value));
  }

  // ---------------------------------------------------------------- the whole export

  /** `processStore`: no device, no export. Otherwise the device's clients, plugin states
      and notifications are selected, the states serialised and the serial salted. */
  method ProcessStore<C>(
    notifications: seq<PluginNotification>, device: Option<Device>, deviceLogs: seq<ArchivedDevices.LogEntry>,
    pluginStates: OMap<Json.Value>, clients: seq<ClientExport>,
    devicePlugins: OMap<C>, clientPlugins: OMap<C>, serialize: (C, Json.Value) -> string,
    salt: string, selectedPlugins: seq<string>, fileVersion: string, revision: Option<string>)
    returns (r: Option<Result<ExportType, string>>)
    ensures r.None? <==> device.None?
    ensures r.Some? && r.value.Ok? ==>
      && |r.value.value.clients| == |ProcessClients(clients, device.value.serial)|
      && forall i :: 0 <= i < |r.value.value.clients| ==>
        r.value.value.clients[i].query.deviceId == SaltedSerial(salt, device.value.serial)
  {
    if device.None? {
      return None;
    }
    var serial := device.value.serial;
    var processedClients := ProcessClients(clients, serial);
    var devicePluginIds := set i | 0 <= i < |devicePlugins| :: devicePlugins[i].0;
    var options := ProcessPluginStatesOptions(processedClients, serial, devicePluginIds, selectedPlugins);
    var processedStates := ProcessPluginStates(pluginStates, options);
    var processedNotifications := ProcessNotificationStates(processedClients, serial, notifications, devicePluginIds);
    var exportStates, _ := ConvertPluginStates(processedStates, clientPlugins, devicePlugins, serialize);
    var exported := AddSaltToDeviceSerial(salt, device.value, deviceLogs, processedClients, exportStates,
      processedNotifications, selectedPlugins, fileVersion, revision);
    r := Some(exported);
  }
}
