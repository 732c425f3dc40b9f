/** The component that shows the selected plugin (src/PluginContainer.tsx): which plugin
    class is active, what it runs against (the selected device or a client) and under
    which key its persisted state is stored; what a plugin may ask it to select; and the
    lifecycle of the mounted plugin instance. */
module PluginContainer {
  import opened Wrappers
  import Seqs
  import opened Json
  import opened Targets
  import Plugin

  /** A plugin class as the container sees it: its statics and, possibly, a default
      persisted state. */
  datatype PluginEntry = PluginEntry(cls: Plugin.PluginClass, defaultPersistedState: Option<map<string, Value>>)

  /** What a plugin runs against. */
  datatype Target = DeviceTarget(device: Device) | ClientTarget(client: ClientView)

  /** The persisted-state key of a plugin on a device or client (`getPluginKey`). */
  function PluginKey(targetId: string, pluginId: string): (r: string)
    ensures |r| == |targetId| + 1 + |pluginId| && r[|targetId|] == '#'
  {
    targetId + "#" + pluginId
  }

  /** The props the store gives the container. */
  datatype StateFromProps = StateFromProps(
    pluginState: Value,
    activePlugin: Option<PluginEntry>,
    target: Option<Target>,
    pluginKey: Option<string>,
    isArchivedDevice: bool,
    selectedApp: Option<string>)

  /** The store fields the mapper reads. */
  datatype Selection = Selection(
    selectedPlugin: Option<string>,
    selectedDevice: Option<Device>,
    selectedApp: Option<string>,
    clients: seq<ClientView>)

  /** The client whose id is `selectedApp`, if any (`clients.find`). */
  function ClientById(clients: seq<ClientView>, selectedApp: Option<string>): (r: Option<ClientView>)
    ensures r.Some? ==> r.value in clients && Some(r.value.id) == selectedApp
    ensures r.None? ==> forall i :: 0 <= i < |clients| ==> Some(clients[i].id) != selectedApp
  {
    Seqs.Find(clients, (c: ClientView) => Some(c.id) == selectedApp)
  }


  /** The resolution the mapper makes: no plugin selected resolves nothing; the
      notifications hub, or else a device plugin, applies to a selected device; failing
      that the plugin is looked up among the client plugins and applies to the selected app. */
  function Resolve(sel: Selection, notificationsHub: PluginEntry,
                   devicePlugins: map<string, PluginEntry>, clientPlugins: map<string, PluginEntry>)
    : (r: (Option<PluginEntry>, Option<Target>, Option<string>))
    ensures (sel.selectedPlugin.None? || sel.selectedPlugin.value == "") ==> r == (None, None, None)
    ensures r.2.Some? <==> r.0.Some? && r.1.Some?
    ensures r.1.Some? && r.1.value.DeviceTarget? ==>
      Some(r.1.value.device) == sel.selectedDevice && r.0.Some? && r.2 == Some(PluginKey(r.1.value.device.serial, r.0.value.cls.id))
    ensures r.1.Some? && r.1.value.ClientTarget? ==>
      r.1.value.client in sel.clients && Some(r.1.value.client.id) == sel.selectedApp
      && r.0 == Lookup(clientPlugins, sel.selectedPlugin.value)
      && r.2 == (if r.0.Some? then Some(PluginKey(r.1.value.client.id, r.0.value.cls.id)) else None)
    // With a device selected, the hub or a device plugin runs against that device, and only they do.
    ensures sel.selectedPlugin.Some? && sel.selectedPlugin.value != "" && sel.selectedDevice.Some? ==>
      ((sel.selectedPlugin.value == notificationsHub.cls.id || sel.selectedPlugin.value in devicePlugins)
        <==> r.1 == Some(DeviceTarget(sel.selectedDevice.value)))
    ensures (sel.selectedPlugin.Some? && sel.selectedPlugin.value == notificationsHub.cls.id
      && notificationsHub.cls.id != "" && sel.selectedDevice.Some?) ==> r.0 == Some(notificationsHub)
    ensures (sel.selectedPlugin.Some? && sel.selectedPlugin.value != "" && sel.selectedPlugin.value != notificationsHub.cls.id
      && sel.selectedPlugin.value in devicePlugins && sel.selectedDevice.Some?) ==>
      r.0 == Some(devicePlugins[sel.selectedPlugin.value])
    // Otherwise the client plugin of that id, against the selected app's client if it is connected.
    ensures (sel.selectedPlugin.Some? && sel.selectedPlugin.value != ""
      && !(sel.selectedDevice.Some? && (sel.selectedPlugin.value == notificationsHub.cls.id || sel.selectedPlugin.value in devicePlugins))) ==>
      r.0 == Lookup(clientPlugins, sel.selectedPlugin.value)
      && r.1 == (var c := ClientById(sel.clients, sel.selectedApp); if c.Some? then Some(ClientTarget(c.value)) else None)
  {
    if sel.selectedPlugin.None? || sel.selectedPlugin.value == "" then (None, None, None)
    else
      var selected := sel.selectedPlugin.value;
      var devicePlugin :=
        if selected == notificationsHub.cls.id then Some(notificationsHub) else Lookup(devicePlugins, selected);
      if sel.selectedDevice.Some? && devicePlugin.Some? then
        (devicePlugin, Some(DeviceTarget(sel.selectedDevice.value)),
         Some(PluginKey(sel.selectedDevice.value.serial, devicePlugin.value.cls.id)))
      else
        var client := ClientById(sel.clients, sel.selectedApp);
        var clientPlugin := Lookup(clientPlugins, selected);
        var target := if client.Some? then Some(ClientTarget(client.value)) else None;
        (clientPlugin, target,
         if clientPlugin.Some? && client.Some? then Some(PluginKey(client.value.id, clientPlugin.value.cls.id)) else None)
  }

  /** `m.get(k) || null`. */
  function Lookup(m: map<string, PluginEntry>, k: string): (r: Option<PluginEntry>)
    ensures r.Some? <==> k in m
    ensures r.Some? ==> r.value == m[k]
  {
    if k in m then Some(m[k]) else None
  }

  /** The device plugin wins over a client plugin of the same id when a device is selected. */
  lemma DevicePluginFirst(sel: Selection, notificationsHub: PluginEntry,
                          devicePlugins: map<string, PluginEntry>, clientPlugins: map<string, PluginEntry>)
    requires sel.selectedPlugin.Some? && sel.selectedPlugin.value != ""
    requires sel.selectedPlugin.value != notificationsHub.cls.id && sel.selectedPlugin.value in devicePlugins
    requires sel.selectedDevice.Some?
    ensures Resolve(sel, notificationsHub, devicePlugins, clientPlugins).0 == Some(devicePlugins[sel.selectedPlugin.value])
    ensures Resolve(sel, notificationsHub, devicePlugins, clientPlugins).1 == Some(DeviceTarget(sel.selectedDevice.value))
  {
  }

  /** The connect mapper: the resolution, the stored state under the key (a missing key
      reads the property `"null"`), and whether the selected device is an archive. */
  function MapStateToProps(sel: Selection, notificationsHub: PluginEntry,
                           devicePlugins: map<string, PluginEntry>, clientPlugins: map<string, PluginEntry>,
                           pluginStates: map<string, Value>): (r: StateFromProps)
    ensures (r.activePlugin, r.target, r.pluginKey) == Resolve(sel, notificationsHub, devicePlugins, clientPlugins)
    ensures r.isArchivedDevice <==> sel.selectedDevice.Some? && sel.selectedDevice.value.kind == Archived
    ensures r.pluginKey.Some? && r.pluginKey.value in pluginStates ==> r.pluginState == pluginStates[r.pluginKey.value]
    ensures r.pluginKey.Some? && r.pluginKey.value !in pluginStates ==> r.pluginState == Undefined
    ensures r.selectedApp == sel.selectedApp
  {
    var (activePlugin, target, pluginKey) := Resolve(sel, notificationsHub, devicePlugins, clientPlugins);
    var key := if pluginKey.Some? then pluginKey.value else "null";
    StateFromProps(
      if key in pluginStates then pluginStates[key] else Undefined,
      activePlugin, target, pluginKey,
      sel.selectedDevice.Some? && sel.selectedDevice.value.kind == Archived,
      sel.selectedApp)
  }

  /** The `selectPlugin` callback handed to a plugin: it dispatches and answers true when
      the plugin will be available, that is when the target is a client that lists it or
      is a device; otherwise it answers false and dispatches nothing. */
  function SelectPlugin(target: Option<Target>, pluginId: string, deepLinkPayload: Option<string>)
    : (r: (bool, Option<(string, Option<string>)>))
    ensures r.0 <==> target.Some? && (target.value.DeviceTarget? || pluginId in target.value.client.plugins)
    ensures r.1.Some? <==> r.0
    ensures r.1.Some? ==> r.1.value == (pluginId, deepLinkPayload)
  {
    if target.Some? && target.value.ClientTarget? && pluginId in target.value.client.plugins then
      (true, Some((pluginId, deepLinkPayload)))
    else if target.Some? && target.value.DeviceTarget? then
      (true, Some((pluginId, deepLinkPayload)))
    else
      (false, None)
  }

  /** `persistedState` as rendered: the stored state laid over the default when the class
      has one, the stored state itself otherwise. */
  function PersistedState(activePlugin: PluginEntry, pluginState: Value): (r: Value)
    ensures activePlugin.defaultPersistedState.None? ==> r == pluginState
    ensures activePlugin.defaultPersistedState.Some? ==>
      && r.Obj?
      && r.fields.Keys == activePlugin.defaultPersistedState.value.Keys + SpreadFields(pluginState).Keys
      && (forall k :: k in SpreadFields(pluginState) ==> r.fields[k] == SpreadFields(pluginState)[k])
      && (forall k :: k in activePlugin.defaultPersistedState.value && k !in SpreadFields(pluginState) ==>
            r.fields[k] == activePlugin.defaultPersistedState.value[k])
  {
    if activePlugin.defaultPersistedState.Some? then
      Obj(Spread(activePlugin.defaultPersistedState.value, SpreadFields(pluginState)))
    else pluginState
  }

  /** What `render` hands the plugin: its key, the target and the persisted state. */
  datatype RenderedPlugin = RenderedPlugin(key: string, plugin: PluginEntry, target: Target, persistedState: Value)

  /** `render`: nothing unless the active plugin, the target and the key are all there. */
  function Render(props: StateFromProps): (r: Option<RenderedPlugin>)
    ensures r.None? <==> props.activePlugin.None? || props.target.None? || props.pluginKey.None?
    ensures r.Some? ==> (r.value.key == props.pluginKey.value && r.value.target == props.target.value
      && r.value.persistedState == PersistedState(props.activePlugin.value, props.pluginState))
  {
    if props.activePlugin.None? || props.target.None? || props.pluginKey.None? then None
    else Some(RenderedPlugin(props.pluginKey.value, props.activePlugin.value, props.target.value,
                             PersistedState(props.activePlugin.value, props.pluginState)))
  }

  /** A lifecycle call the container makes on a plugin instance (a handle). */
  datatype LifecycleCall = Teardown(instance: nat) | Init(instance: nat)

  /** The mounted container: `plugin` is the instance it set up last. */
  class Container {
    var plugin: Option<nat>
    var calls: seq<LifecycleCall>

    /** The instance kept is the last one initialised, and nothing happened to it since. */
    predicate Valid()
      reads this
    {
      plugin.Some? ==> |calls| > 0 && calls[|calls| - 1] == Init(plugin.value)
    }

    constructor ()
      ensures Valid()
      ensures plugin.None? && calls == []
    {
      plugin := None;
      calls := [];
    }

    /** `refChanged`: the previous instance is torn down first; the new one is initialised
        and kept only when there is one and the props have a target. */
    method RefChanged(ref: Option<nat>, hasTarget: bool)
      modifies this
      ensures calls == old(calls)
        + (if old(plugin).Some? then [Teardown(old(plugin).value)] else [])
        + (if ref.Some? && hasTarget then [Init(ref.value)] else [])
      ensures plugin == if ref.Some? && hasTarget then ref else None
      ensures Valid()
    {
      if plugin.Some? {
        calls := calls + [Teardown(plugin.value)];
        plugin := None;
      }
      if ref.Some? && hasTarget {
        calls := calls + [Init(ref.value)];
        plugin := ref;
      }
    }

    /** `componentWillUnmount`: the instance kept, if any, is torn down. */
    method ComponentWillUnmount()
      modifies this
      ensures calls == old(calls) + (if old(plugin).Some? then [Teardown(old(plugin).value)] else [])
      ensures plugin.None? && Valid()
    {
      if plugin.Some? {
        calls := calls + [Teardown(plugin.value)];
        plugin := None;
      }
    }
  }
}
