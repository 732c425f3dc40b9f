/** The older plugin container (src/PluginContainer.js): the active plugin and its target
    are computed from the selection when the component is created and again only when the
    selection changes; a plugin that cannot be found is an error. */
module LegacyPluginContainer {
  import opened Wrappers
  import Seqs
  import opened Json
  import opened Targets
  import Plugin

  /** What a plugin runs against. */
  datatype Target = DeviceTarget(device: Device) | ClientTarget(client: ClientView)

  /** The component state `computeState` produces. */
  datatype ContainerState = ContainerState(activePlugin: Plugin.PluginClass, target: Target, pluginKey: string)

  /** The props the container reads. */
  datatype Props = Props(
    selectedDevice: Device,
    selectedPlugin: Option<string>,
    selectedApp: Option<string>,
    clients: seq<ClientView>)

  /** The first class of a list whose id is the selected plugin (`list.find`). */
  function FindPlugin(classes: seq<Plugin.PluginClass>, selected: Option<string>): (r: Option<Plugin.PluginClass>)
    ensures r.Some? ==> r.value in classes && Some(r.value.id) == selected
    ensures r.None? ==> forall i :: 0 <= i < |classes| ==> Some(classes[i].id) != selected
  {
    Seqs.Find(classes, (p: Plugin.PluginClass) => Some(p.id) == selected)
  }


  /** The first client whose id is the selected app. */
  function FindClient(clients: seq<ClientView>, selectedApp: Option<string>): (r: Option<ClientView>)
    ensures r.Some? ==> r.value in clients && Some(r.value.id) == selectedApp
    ensures r.None? ==> forall i :: 0 <= i < |clients| ==> Some(clients[i].id) != selectedApp
  {
    Seqs.Find(clients, (c: ClientView) => Some(c.id) == selectedApp)
  }


  /** The message of the error thrown when the plugin or the client is missing. */
  function NotFound(selectedPlugin: Option<string>): string {
    "Plugin \"" + (if selectedPlugin.Some? then selectedPlugin.value else "") + "\" could not be found."
  }

  /** `computeState`: a device plugin with the selected id runs on the selected device
      under `<serial>#<id>`; otherwise the client plugin with that id runs on the client
      whose id is the selected app under `<client id>#<id>`, and it is an error when
      either is missing. */
  function ComputeState(props: Props, devicePlugins: seq<Plugin.PluginClass>, clientPlugins: seq<Plugin.PluginClass>)
    : (r: Result<ContainerState, string>)
    ensures FindPlugin(devicePlugins, props.selectedPlugin).Some? ==>
      r.Ok? && r.value.target == DeviceTarget(props.selectedDevice)
      && r.value.pluginKey == props.selectedDevice.serial + "#" + r.value.activePlugin.id
      && r.value.activePlugin in devicePlugins
    ensures FindPlugin(devicePlugins, props.selectedPlugin).None? ==>
      (r.Err? <==> FindPlugin(clientPlugins, props.selectedPlugin).None? || FindClient(props.clients, props.selectedApp).None?)
    ensures r.Err? ==> r.error == NotFound(props.selectedPlugin)
    ensures r.Ok? && r.value.target.ClientTarget? ==>
      r.value.target.client in props.clients && Some(r.value.target.client.id) == props.selectedApp
      && r.value.activePlugin in clientPlugins
      && r.value.pluginKey == r.value.target.client.id + "#" + r.value.activePlugin.id
    ensures r.Ok? ==> Some(r.value.activePlugin.id) == props.selectedPlugin
  {
    match FindPlugin(devicePlugins, props.selectedPlugin)
    case Some(p) =>
      Ok(ContainerState(p, DeviceTarget(props.selectedDevice), props.selectedDevice.serial + "#" + p.id))
    case None =>
      var target := FindClient(props.clients, props.selectedApp);
      var activePlugin := FindPlugin(clientPlugins, props.selectedPlugin);
      if activePlugin.None? || target.None? then Err(NotFound(props.selectedPlugin))
      else Ok(ContainerState(activePlugin.value, ClientTarget(target.value), target.value.id + "#" + activePlugin.value.id))
  }

  /** The selection `componentWillReceiveProps` compares: the device object (its handle),
      the app and the plugin. */
  predicate SelectionChanged(prev: Props, next: Props) {
    next.selectedDevice.handle != prev.selectedDevice.handle
    || next.selectedApp != prev.selectedApp
    || next.selectedPlugin != prev.selectedPlugin
  }

  /** `persistedState` as rendered: the stored state, or `{}` when it is missing or falsy. */
  function PersistedState(pluginStates: map<string, Value>, pluginKey: string): (r: Value)
    ensures Truthy(r)
    ensures pluginKey in pluginStates && Truthy(pluginStates[pluginKey]) ==> r == pluginStates[pluginKey]
    ensures !(pluginKey in pluginStates && Truthy(pluginStates[pluginKey])) ==> r == Obj(map[])
  {
    if pluginKey in pluginStates && Truthy(pluginStates[pluginKey]) then pluginStates[pluginKey] else Obj(map[])
  }

  /** A lifecycle call the container makes on a plugin instance (a handle). */
  datatype LifecycleCall = Teardown(instance: nat) | Setup(instance: nat, target: Target) | Init(instance: nat)

  class Container {
    const devicePlugins: seq<Plugin.PluginClass>
    const clientPlugins: seq<Plugin.PluginClass>
    var props: Props
    /** The computed state, or the error computing it threw. */
    var state: Result<ContainerState, string>
    var plugin: Option<nat>
    var calls: seq<LifecycleCall>

    /** The instance kept is the last one initialised, and nothing happened to it since. */
    predicate Valid()
      reads this
    {
      plugin.Some? ==> |calls| > 0 && calls[|calls| - 1] == Init(plugin.value)
    }

    constructor (props: Props, devicePlugins: seq<Plugin.PluginClass>, clientPlugins: seq<Plugin.PluginClass>)
      ensures Valid()
      ensures this.props == props && this.devicePlugins == devicePlugins && this.clientPlugins == clientPlugins
      ensures state == ComputeState(props, devicePlugins, clientPlugins)
      ensures plugin.None? && calls == []
    {
      this.devicePlugins := devicePlugins;
      this.clientPlugins := clientPlugins;
      this.props := props;
      this.state := ComputeState(props, devicePlugins, clientPlugins);
      this.plugin := None;
      this.calls := [];
    }

    /** `componentWillReceiveProps`: the state is recomputed only when the selection
        changed. When recomputing throws, the update is abandoned: `thrown` is set and
        the state and props are those from before. */
    method ComponentWillReceiveProps(nextProps: Props) returns (thrown: bool)
      modifies this`props, this`state
      ensures thrown <==> SelectionChanged(old(props), nextProps) && ComputeState(nextProps, devicePlugins, clientPlugins).Err?
      ensures thrown ==> props == old(props) && state == old(state)
      ensures !thrown ==> props == nextProps
      ensures !thrown && SelectionChanged(old(props), nextProps) ==>
        state == ComputeState(nextProps, devicePlugins, clientPlugins)
      ensures !SelectionChanged(old(props), nextProps) ==> state == old(state)
    {
      thrown := false;
      if SelectionChanged(props, nextProps) {
        var next := ComputeState(nextProps, devicePlugins, clientPlugins);
        if next.Err? {
          thrown := true;
          return;
        }
        state := next;
      }
      props := nextProps;
    }

    /** `refChanged`: the previous instance is torn down first; a new instance is set up
        with the state's target and initialised, and kept, only when there is a target. */
    method RefChanged(ref: Option<nat>)
      modifies this`plugin, this`calls
      ensures Valid()
      ensures calls == old(calls)
        + (if old(plugin).Some? then [Teardown(old(plugin).value)] else [])
        + (if ref.Some? && state.Ok? then [Setup(ref.value, state.value.target), Init(ref.value)] else [])
      ensures plugin == if ref.Some? && state.Ok? then ref else None
    {
      if plugin.Some? {
        calls := calls + [Teardown(plugin.value)];
        plugin := None;
      }
      if ref.Some? && state.Ok? {
        calls := calls + [Setup(ref.value, state.value.target), Init(ref.value)];
        plugin := ref;
      }
    }
  }
}
