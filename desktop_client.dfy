/** A device client as the desktop app sees it (src/Client.tsx): request ids, the pending
    requests of old SDKs, the request/response streams of new ones, the subscription table
    that `execute` messages fan out to, and the set of active plugins that gates calls made
    on a plugin's behalf. */
module DesktopClient {
  import opened Wrappers
  import opened Json
  import opened Protocol
  import Broadcast
  import Seqs
  import Strings
  import Plugin

  /** A `requestResponse` stream that has been opened and has not finished yet. */
  datatype Stream = Stream(meta: RequestMetadata, fromPlugin: bool)

  /** The kinds of connection status the RSocket reports. */
  datatype ConnectionStatus = NotConnected | Connecting | Connected | Closed | Error

  class Client {
    const id: string
    /** `query.sdk_version || 0`. */
    const sdkVersion: int
    /** Whether an RSocket was handed to the constructor. */
    const hasConnection: bool
    var connected: bool
    var plugins: seq<string>
    var messageIdCounter: nat
    /** Pending requests of clients older than SDK 1, answered by a frame with their id. */
    var requestCallbacks: map<nat, RequestMetadata>
    /** Open `requestResponse` streams of clients from SDK 1 on. */
    var streams: map<nat, Stream>
    var broadcastCallbacks: Broadcast.Table<string>
    var activePlugins: set<string>
    var outbox: seq<Transmission>
    var delivered: seq<Delivery>
    var settled: seq<Settlement>
    var reported: seq<Value>

    /** Every outstanding id was handed out already; an SDK uses one of the two request
        mechanisms only; no callback is registered twice. */
    ghost predicate Valid()
      reads this
    {
      (forall k :: k in requestCallbacks ==> k < messageIdCounter)
      && (forall k :: k in streams ==> k < messageIdCounter)
      && (sdkVersion >= 1 ==> requestCallbacks == map[])
      && (sdkVersion < 1 ==> streams == map[])
      && Broadcast.Wellformed(broadcastCallbacks)
    }

    constructor (id: string, sdk: Option<int>, hasConnection: bool, plugins: Option<seq<string>>)
      ensures Valid()
      ensures this.id == id && this.hasConnection == hasConnection
      ensures sdkVersion == (if sdk.Some? && sdk.value != 0 then sdk.value else 0)
      ensures connected && this.plugins == plugins.UnwrapOr([])
      ensures messageIdCounter == 0 && requestCallbacks == map[] && streams == map[]
      ensures broadcastCallbacks == map[] && activePlugins == {}
      ensures outbox == [] && delivered == [] && settled == [] && reported == []
    {
      this.id := id;
      this.sdkVersion := if sdk.Some? then sdk.value else 0;
      this.hasConnection := hasConnection;
      connected := true;
      this.plugins := plugins.UnwrapOr([]);
      messageIdCounter := 0;
      requestCallbacks := map[];
      streams := map[];
      broadcastCallbacks := map[];
      activePlugins := {};
      outbox := [];
      delivered := [];
      settled := [];
      reported := [];
    }

    /** `isAcceptingMessagesFromPlugin(plugin)`: a connection exists and either no plugin
        is named or the plugin is active. */
    predicate IsAcceptingMessagesFromPlugin(plugin: Option<string>)
      reads this
    {
      hasConnection && (plugin.None? || plugin.value == "" || plugin.value in activePlugins)
    }

    /** The check `onComplete` makes before settling: the call was not made on a plugin's
        behalf, or that plugin is still accepted. */
    predicate AnswerAccepted(stream: Stream)
      reads this
    {
      !stream.fromPlugin || IsAcceptingMessagesFromPlugin(PluginOf(stream.meta.params))
    }

    /** The connection-status subscription: an error or a close marks the client as
        disconnected. */
    method OnConnectionStatus(status: ConnectionStatus)
      modifies this`connected
      ensures connected == (if status == Error || status == Closed then false else old(connected))
    {
      if status == Error || status == Closed {
        connected := false;
      }
    }

    /** `rawCall(method, fromPlugin, params)`. Old SDKs get a pending entry and a one-way
        frame; new SDKs get a `requestResponse` stream, which a plugin-originated call only
        opens while the plugin is accepted. */
    method RawCall(methodName: string, fromPlugin: bool, params: Option<Params>) returns (reqId: nat)
      requires Valid()
      modifies this`messageIdCounter, this`requestCallbacks, this`streams, this`outbox
      ensures Valid()
      ensures reqId == old(messageIdCounter) && messageIdCounter == reqId + 1
      ensures reqId !in old(requestCallbacks) && reqId !in old(streams)
      ensures sdkVersion < 1 ==>
        requestCallbacks == old(requestCallbacks)[reqId := RequestMetadata(methodName, reqId, params)]
        && streams == old(streams)
        && outbox == old(outbox) +
             (if hasConnection then [OneWay(Some(reqId), methodName, ParamsValue(params))] else [])
      ensures sdkVersion >= 1 ==> requestCallbacks == old(requestCallbacks)
      ensures sdkVersion >= 1 && hasConnection && (!fromPlugin || IsAcceptingMessagesFromPlugin(PluginOf(params))) ==>
        streams == old(streams)[reqId := Stream(RequestMetadata(methodName, reqId, params), fromPlugin)]
        && outbox == old(outbox) + [RequestResponse(reqId, methodName, ParamsValue(params))]
      ensures sdkVersion >= 1 && !(hasConnection && (!fromPlugin || IsAcceptingMessagesFromPlugin(PluginOf(params)))) ==>
        streams == old(streams) && outbox == old(outbox)
    {
      reqId := messageIdCounter;
      messageIdCounter := messageIdCounter + 1;
      var meta := RequestMetadata(methodName, reqId, params);
      if sdkVersion < 1 {
        requestCallbacks := requestCallbacks[reqId := meta];
        if hasConnection {
          outbox := outbox + [OneWay(Some(reqId), methodName, ParamsValue(params))];
        }
        return;
      }
      if !fromPlugin || IsAcceptingMessagesFromPlugin(PluginOf(params)) {
        if hasConnection {
          outbox := outbox + [RequestResponse(reqId, methodName, ParamsValue(params))];
          streams := streams[reqId := Stream(meta, fromPlugin)];
        }
      }
    }

    /** The `onComplete` of a stream: the answer settles the request unless the call came
        from a plugin that is no longer accepted; `onResponse` reports a rejection's error.
        A stream completes once. */
    method OnStreamComplete(reqId: nat, success: Value, error: Value)
      requires Valid()
      modifies this`streams, this`settled, this`reported
      ensures Valid()
      ensures streams == old(streams) - {reqId}
      ensures (reqId in old(streams) && AnswerAccepted(old(streams)[reqId])) ==>
        settled == old(settled) + Settlements(reqId, success, error)
        && reported == old(reported) + ResponseReports(reqId, success, error)
      ensures !(reqId in old(streams) && AnswerAccepted(old(streams)[reqId])) ==>
        settled == old(settled) && reported == old(reported)
    {
      if reqId !in streams {
        return;
      }
      var stream := streams[reqId];
      streams := streams - {reqId};
      if AnswerAccepted(stream) {
        OnResponseFrame(reqId, success, error);
      }
    }

    /** `onResponse(data, resolve, reject)`: resolve or reject the request, and hand a
        rejection's error to `handleError`. */
    method OnResponseFrame(reqId: nat, success: Value, error: Value)
      modifies this`settled, this`reported
      ensures settled == old(settled) + Settlements(reqId, success, error)
      ensures reported == old(reported) + ResponseReports(reqId, success, error)
    {
      var s := OnResponse(reqId, success, error);
      if s.Some? {
        settled := settled + [s.value];
        if s.value.Rejected? {
          reported := reported + [error];
        }
      }
    }

    /** The `onError` of a stream: the request is rejected only while its plugin is
        accepted (this check does not look at `fromPlugin`). */
    method OnStreamError(reqId: nat, error: Value)
      requires Valid()
      modifies this`streams, this`settled
      ensures Valid()
      ensures streams == old(streams) - {reqId}
      ensures settled == old(settled) +
        (if reqId in old(streams) && IsAcceptingMessagesFromPlugin(PluginOf(old(streams)[reqId].meta.params))
         then [Rejected(reqId, error)] else [])
    {
      if reqId !in streams {
        return;
      }
      var stream := streams[reqId];
      streams := streams - {reqId};
      if IsAcceptingMessagesFromPlugin(PluginOf(stream.meta.params)) {
        settled := settled + [Rejected(reqId, error)];
      }
    }

    /** `onMessage` after decoding. Without an id: a device error is reported, `refreshPlugins`
        asks for the plugin list, `execute` (whose params are required: `thrown` is the
        failed invariant) calls every callback subscribed to its api and method. With an id,
        only an old SDK's pending request of that id is answered, once. */
    method OnMessage(msg: Message) returns (thrown: bool)
      requires Valid()
      modifies this`messageIdCounter, this`requestCallbacks, this`streams, this`outbox,
        this`delivered, this`settled, this`reported
      ensures Valid()
      ensures thrown <==> IsExecute(msg) && msg.params.None?
      // An answer frame settles its pending request at most once.
      ensures (sdkVersion < 1 && NamesPending(msg, old(requestCallbacks))) ==>
        var k := msg.id.value;
        requestCallbacks == old(requestCallbacks) - {k}
        && settled == old(settled) + Settlements(k, msg.success, msg.error)
        && reported == old(reported) + ResponseReports(k, msg.success, msg.error)
      ensures !(sdkVersion < 1 && NamesPending(msg, old(requestCallbacks))) ==> settled == old(settled)
      ensures !(sdkVersion < 1 && NamesPending(msg, old(requestCallbacks))) && !IsRefresh(msg) ==>
        requestCallbacks == old(requestCallbacks)
      // A device error is reported; nothing else reports.
      ensures IsDeviceError(msg) ==> reported == old(reported) + [msg.error]
      ensures !IsDeviceError(msg) && !(sdkVersion < 1 && NamesPending(msg, old(requestCallbacks))) ==> reported == old(reported)
      // Only `refreshPlugins` issues a request: `getPlugins`, as `RawCall` does it.
      ensures !IsRefresh(msg) ==>
        messageIdCounter == old(messageIdCounter) && streams == old(streams) && outbox == old(outbox)
      ensures IsRefresh(msg) ==>
        var reqId := old(messageIdCounter);
        var meta := RequestMetadata("getPlugins", reqId, None);
        messageIdCounter == reqId + 1
        && (sdkVersion < 1 ==>
              requestCallbacks == old(requestCallbacks)[reqId := meta] && streams == old(streams)
              && outbox == old(outbox) + (if hasConnection then [OneWay(Some(reqId), "getPlugins", Undefined)] else []))
        && (sdkVersion >= 1 ==>
              requestCallbacks == old(requestCallbacks)
              && streams == (if hasConnection then old(streams)[reqId := Stream(meta, false)] else old(streams))
              && outbox == old(outbox) + (if hasConnection then [RequestResponse(reqId, "getPlugins", Undefined)] else []))
      // Only `execute` delivers: to every callback under its api and method, in order.
      ensures IsExecute(msg) && msg.params.Some? ==>
        var p := msg.params.value;
        delivered == old(delivered) +
          Deliveries(Broadcast.Callbacks(old(broadcastCallbacks), p.api, p.methodName), p.params)
      ensures !(IsExecute(msg) && msg.params.Some?) ==> delivered == old(delivered)
    {
      thrown := false;
      if msg.id.None? {
        if !IsNullish(msg.error) {
          reported := reported + [msg.error];
        } else if msg.methodName == Some("refreshPlugins") {
          var _ := RawCall("getPlugins", false, None);
        } else if msg.methodName == Some("execute") {
          if msg.params.None? {
            thrown := true;
            return;
          }
          var p := msg.params.value;
          Deliver(Broadcast.Callbacks(broadcastCallbacks, p.api, p.methodName), p.params);
        }
        return;
      }
      var k := msg.id.value;
      if sdkVersion >= 1 || k < 0 || k !in requestCallbacks {
        return;
      }
      requestCallbacks := requestCallbacks - {k};
      OnResponseFrame(k, msg.success, msg.error);
    }

    /** `for (const callback of methodCallbacks) callback(params.params)`. */
    method Deliver(cbs: seq<Broadcast.Callback>, params: Value)
      modifies this`delivered
      ensures delivered == old(delivered) + Deliveries(cbs, params)
    {
      var i := 0;
      while i < |cbs|
        invariant 0 <= i <= |cbs|
        invariant delivered == old(delivered) + Deliveries(cbs[..i], params)
      {
        delivered := delivered + [Delivery(cbs[i], params)];
        i := i + 1;
        assert cbs[..i] == cbs[..i - 1] + [cbs[i - 1]];
      }
      assert cbs[..i] == cbs;
    }

    /** `subscribe(api, method, callback)`. */
    method Subscribe(api: string, methodName: string, callback: Broadcast.Callback)
      requires Valid()
      modifies this`broadcastCallbacks
      ensures Valid()
      ensures broadcastCallbacks == Broadcast.Subscribe(old(broadcastCallbacks), api, methodName, callback)
    {
      broadcastCallbacks := Broadcast.Subscribe(broadcastCallbacks, api, methodName, callback);
    }

    /** `unsubscribe(api, method, callback)`. */
    method Unsubscribe(api: string, methodName: string, callback: Broadcast.Callback)
      requires Valid()
      modifies this`broadcastCallbacks
      ensures Valid()
      ensures broadcastCallbacks == Broadcast.Unsubscribe(old(broadcastCallbacks), api, methodName, callback)
    {
      broadcastCallbacks := Broadcast.Unsubscribe(broadcastCallbacks, api, methodName, callback);
    }

    /** `rawSend(method, params)`: a one-way frame without an id, if there is a connection. */
    method RawSend(methodName: string, params: Value)
      modifies this`outbox
      ensures outbox == old(outbox) + (if hasConnection then [OneWay(None, methodName, params)] else [])
    {
      if hasConnection {
        outbox := outbox + [OneWay(None, methodName, params)];
      }
    }

    /** `initPlugin(id)`: the plugin becomes active and the device is told to start it. */
    method InitPlugin(pluginId: string)
      modifies this`activePlugins, this`outbox
      ensures activePlugins == old(activePlugins) + {pluginId}
      ensures outbox == old(outbox) +
        (if hasConnection then [OneWay(None, "init", PluginParam(pluginId))] else [])
    {
      activePlugins := activePlugins + {pluginId};
      RawSend("init", PluginParam(pluginId));
    }

    /** `deinitPlugin(id)`: the plugin stops being active and the device is told to stop it. */
    method DeinitPlugin(pluginId: string)
      modifies this`activePlugins, this`outbox
      ensures activePlugins == old(activePlugins) - {pluginId}
      ensures outbox == old(outbox) +
        (if hasConnection then [OneWay(None, "deinit", PluginParam(pluginId))] else [])
    {
      activePlugins := activePlugins - {pluginId};
      RawSend("deinit", PluginParam(pluginId));
    }

    /** `call(api, method, fromPlugin, params)`: an `execute` request for `api`. */
    method Call(api: string, methodName: string, fromPlugin: bool, params: Value) returns (reqId: nat)
      requires Valid()
      modifies this`messageIdCounter, this`requestCallbacks, this`streams, this`outbox
      ensures Valid()
      ensures reqId == old(messageIdCounter) && messageIdCounter == reqId + 1
      ensures sdkVersion < 1 ==>
        requestCallbacks == old(requestCallbacks)[reqId :=
          RequestMetadata("execute", reqId, Some(Params(api, methodName, params)))]
        && streams == old(streams)
        && outbox == old(outbox) + (if hasConnection then
             [OneWay(Some(reqId), "execute", ParamsValue(Some(Params(api, methodName, params))))] else [])
      ensures sdkVersion >= 1 ==> requestCallbacks == old(requestCallbacks)
      ensures sdkVersion >= 1 && hasConnection && (!fromPlugin || IsAcceptingMessagesFromPlugin(Some(api))) ==>
        streams == old(streams)[reqId :=
          Stream(RequestMetadata("execute", reqId, Some(Params(api, methodName, params))), fromPlugin)]
        && outbox == old(outbox) + [RequestResponse(reqId, "execute", ParamsValue(Some(Params(api, methodName, params))))]
      ensures sdkVersion >= 1 && !(hasConnection && (!fromPlugin || IsAcceptingMessagesFromPlugin(Some(api)))) ==>
        streams == old(streams) && outbox == old(outbox)
    {
      reqId := RawCall("execute", fromPlugin, Some(Params(api, methodName, params)));
    }

    /** `send(api, method, params)`: an `execute` frame without an answer. */
    method Send(api: string, methodName: string, params: Value)
      modifies this`outbox
      ensures outbox == old(outbox) +
        (if hasConnection then [OneWay(None, "execute", ParamsValue(Some(Params(api, methodName, params))))] else [])
    {
      RawSend("execute", ParamsValue(Some(Params(api, methodName, params))));
    }

    /** `supportsMethod(api, method)`: clients before SDK 2 answer `false` at once (`None`);
        later ones are asked with an `isMethodSupported` request made on the plugin's
        behalf, whose id is returned. */
    method SupportsMethod(api: string, methodName: string) returns (r: Option<nat>)
      requires Valid()
      modifies this`messageIdCounter, this`requestCallbacks, this`streams, this`outbox
      ensures Valid()
      ensures sdkVersion < 2 <==> r.None?
      ensures sdkVersion < 2 ==>
        (messageIdCounter == old(messageIdCounter) && outbox == old(outbox)
         && streams == old(streams) && requestCallbacks == old(requestCallbacks))
      ensures r.Some? ==> r.value == old(messageIdCounter) && messageIdCounter == r.value + 1
      ensures r.Some? && IsAcceptingMessagesFromPlugin(Some(api)) ==>
        outbox == old(outbox) + [RequestResponse(r.value, "isMethodSupported",
          ParamsValue(Some(Params(api, methodName, Undefined))))]
      ensures r.Some? && !IsAcceptingMessagesFromPlugin(Some(api)) ==> outbox == old(outbox)
    {
      if sdkVersion < 2 {
        return None;
      }
      var reqId := RawCall("isMethodSupported", true, Some(Params(api, methodName, Undefined)));
      return Some(reqId);
    }
  }

  /** `{plugin: id}`. */
  function PluginParam(pluginId: string): (v: Value)
    ensures Field(v, "plugin") == Str(pluginId)
  {
    Obj(map["plugin" := Str(pluginId)])
  }

  // ---------------------------------------------------------------- plugin ordering

  const MaxMinimumPlugins := 5
  const ShowRemainingPluginIfLessThan := 3
  const SavedPluginsCount := MaxMinimumPlugins + ShowRemainingPluginIfLessThan

  /** How many LRU slots count: five once there are at least eight plugins, else all. */
  function ShowPluginsCount(pluginsCount: int): (n: int)
    ensures pluginsCount >= 8 ==> n == 5
    ensures pluginsCount < 8 ==> n == pluginsCount
  {
    if pluginsCount >= SavedPluginsCount then MaxMinimumPlugins else pluginsCount
  }

  /** A plugin's position among the shown LRU slots, or the slot count when it is not
      among them. */
  function LruRank(lessPlugins: seq<string>, showCount: int, pluginId: string): (r: int)
    ensures r == showCount || (0 <= r < showCount && r < |lessPlugins| && lessPlugins[r] == pluginId)
  {
    var idx := Seqs.IndexOfElem(lessPlugins, pluginId);
    if idx < 0 || idx >= showCount then showCount else idx
  }

  /** `a.title || a.id`. */
  function Label(c: Plugin.PluginClass): string {
    if c.title != "" then c.title else c.id
  }

  /** `byClientLRU(pluginsCount, a, b)`: plugins in a shown LRU slot come first, earlier
      slots first; the rest, and every pair when there is no LRU list, by label. */
  function ByClientLRU(lessPlugins: Option<seq<string>>, pluginsCount: int,
                       a: Plugin.PluginClass, b: Plugin.PluginClass): (r: int)
    ensures r == 1 || r == -1
  {
    if lessPlugins.Some?
      && LruRank(lessPlugins.value, ShowPluginsCount(pluginsCount), a.id)
         != LruRank(lessPlugins.value, ShowPluginsCount(pluginsCount), b.id)
    then
      if LruRank(lessPlugins.value, ShowPluginsCount(pluginsCount), a.id)
         > LruRank(lessPlugins.value, ShowPluginsCount(pluginsCount), b.id)
      then 1 else -1
    else if Strings.Less(Label(b), Label(a)) then 1 else -1
  }

  /** A plugin in a shown LRU slot goes before any plugin that is not in one. */
  lemma RecentPluginFirst(less: seq<string>, pluginsCount: int, a: Plugin.PluginClass, b: Plugin.PluginClass, i: int)
    requires 0 <= i < |less| && i < ShowPluginsCount(pluginsCount) && less[i] == a.id
    requires forall j :: 0 <= j < |less| && j < ShowPluginsCount(pluginsCount) ==> less[j] != b.id
    ensures ByClientLRU(Some(less), pluginsCount, a, b) == -1
    ensures ByClientLRU(Some(less), pluginsCount, b, a) == 1
  {
    var n := ShowPluginsCount(pluginsCount);
    var ra := LruRank(less, n, a.id);
    assert a.id in less;
  }

  /** The order is antisymmetric wherever it separates two plugins: by rank, or by label. */
  lemma {:induction false} ByClientLRUAntisymmetric(lessPlugins: Option<seq<string>>, pluginsCount: int,
                                                    a: Plugin.PluginClass, b: Plugin.PluginClass)
    requires Label(a) != Label(b)
      || (lessPlugins.Some?
          && LruRank(lessPlugins.value, ShowPluginsCount(pluginsCount), a.id)
             != LruRank(lessPlugins.value, ShowPluginsCount(pluginsCount), b.id))
    ensures ByClientLRU(lessPlugins, pluginsCount, a, b) == -ByClientLRU(lessPlugins, pluginsCount, b, a)
  {
    Strings.LessAsymmetric(Label(a), Label(b));
    Strings.LessTotal(Label(a), Label(b));
  }

  /** Two plugins with the same label and rank each sort before the other: the comparator
      never answers 0. */
  lemma ByClientLRUTie(lessPlugins: Option<seq<string>>, pluginsCount: int,
                       a: Plugin.PluginClass, b: Plugin.PluginClass)
    requires Label(a) == Label(b)
    requires lessPlugins.Some? ==>
      LruRank(lessPlugins.value, ShowPluginsCount(pluginsCount), a.id)
      == LruRank(lessPlugins.value, ShowPluginsCount(pluginsCount), b.id)
    ensures ByClientLRU(lessPlugins, pluginsCount, a, b) == -1
    ensures ByClientLRU(lessPlugins, pluginsCount, b, a) == -1
  {
    Strings.LessAsymmetric(Label(a), Label(b));
  }
}
