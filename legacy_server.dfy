/** The WebSocket server of the older desktop app (src/server.js): a `Client` per device
    connection, which numbers requests, keeps their pending entries until the answer
    frame arrives and fans `execute` messages out to subscribed callbacks, and a `Server`
    that keeps one entry per connection id. */
module LegacyServer {
  import opened Wrappers
  import opened Json
  import opened Protocol
  import Broadcast
  import Strings

  /** `{app, os, device, device_id}` from the connection URL. */
  datatype ClientQuery = ClientQuery(app: string, os: string, device: string, deviceId: Option<string>)

  class Client {
    const id: string
    const query: ClientQuery
    const hasConnection: bool
    /** The WebSocket's `readyState`; 1 means open. */
    var readyState: int
    var connected: bool
    var plugins: seq<string>
    var messageIdCounter: nat
    var requestCallbacks: map<nat, RequestMetadata>
    var broadcastCallbacks: Broadcast.Table<Option<string>>
    /** Frames handed to `connection.send`, oldest first. */
    var outbox: seq<Transmission>
    /** Callback invocations, oldest first. */
    var delivered: seq<Delivery>
    /** Promise settlements of requests, oldest first. */
    var settled: seq<Settlement>
    /** Device errors passed to the error reporter. */
    var reported: seq<Value>

    /** Every pending id was handed out already; no callback is registered twice. */
    ghost predicate Valid()
      reads this
    {
      (forall k :: k in requestCallbacks ==> k < messageIdCounter)
      && Broadcast.Wellformed(broadcastCallbacks)
    }

    constructor (id: string, query: ClientQuery, hasConnection: bool, readyState: int)
      ensures Valid()
      ensures this.id == id && this.query == query && this.hasConnection == hasConnection
      ensures this.readyState == readyState && connected && plugins == []
      ensures messageIdCounter == 0 && requestCallbacks == map[] && broadcastCallbacks == map[]
      ensures outbox == [] && delivered == [] && settled == [] && reported == []
    {
      this.id := id;
      this.query := query;
      this.hasConnection := hasConnection;
      this.readyState := readyState;
      connected := true;
      plugins := [];
      messageIdCounter := 0;
      requestCallbacks := map[];
      broadcastCallbacks := map[];
      outbox := [];
      delivered := [];
      settled := [];
      reported := [];
    }

    /** The connection can carry a frame now. */
    predicate CanSend()
      reads this
    {
      hasConnection && readyState == 1
    }

    /** `getDevice()`: no device without a `device_id`, otherwise what the application
        finds for that serial. */
    function GetDevice<D>(lookup: string -> Option<D>): (r: Option<D>)
      reads this
      ensures query.deviceId.None? ==> r.None?
      ensures query.deviceId.Some? ==> r == lookup(query.deviceId.value)
    {
      if query.deviceId.None? then None else lookup(query.deviceId.value)
    }

    /** `getFirstSupportedPlugin()`: the first id of the plugin registry this client
        supports, if any. */
    method GetFirstSupportedPlugin(registry: seq<string>) returns (r: Option<string>)
      ensures r.None? <==> forall i :: 0 <= i < |registry| ==> registry[i] !in plugins
      ensures r.Some? ==> r.value in plugins && exists i ::
        (0 <= i < |registry| && registry[i] == r.value && forall j :: 0 <= j < i ==> registry[j] !in plugins)
    {
      var i := 0;
      while i < |registry|
        invariant 0 <= i <= |registry|
        invariant forall j :: 0 <= j < i ==> registry[j] !in plugins
      {
        if registry[i] in plugins {
          return Some(registry[i]);
        }
        i := i + 1;
      }
      return None;
    }

    /** The WebSocket's `close` event. */
    method OnClose()
      modifies this`connected
      ensures !connected
    {
      connected := false;
    }

    /** `rawCall(method, params)`: a fresh id, a pending entry kept for every request,
        and the frame sent only while the socket is open. */
    method RawCall(methodName: string, params: Option<Params>) returns (reqId: nat)
      requires Valid()
      modifies this`messageIdCounter, this`requestCallbacks, this`outbox
      ensures Valid()
      ensures reqId == old(messageIdCounter) && messageIdCounter == reqId + 1
      ensures reqId !in old(requestCallbacks)
      ensures requestCallbacks == old(requestCallbacks)[reqId := RequestMetadata(methodName, reqId, params)]
      ensures outbox == old(outbox) +
        (if CanSend() then [OneWay(Some(reqId), methodName, ParamsValue(params))] else [])
    {
      reqId := messageIdCounter;
      messageIdCounter := messageIdCounter + 1;
      requestCallbacks := requestCallbacks[reqId := RequestMetadata(methodName, reqId, params)];
      if CanSend() {
        outbox := outbox + [OneWay(Some(reqId), methodName, ParamsValue(params))];
      }
    }

    /** `rawSend(method, params)`: a one-way frame, sent only while the socket is open. */
    method RawSend(methodName: string, params: Value)
      modifies this`outbox
      ensures outbox == old(outbox) + (if CanSend() then [OneWay(None, methodName, params)] else [])
    {
      if CanSend() {
        outbox := outbox + [OneWay(None, methodName, params)];
      }
    }

    /** `call(api, method, params)`: an `execute` request. */
    method Call(api: string, methodName: string, params: Value) returns (reqId: nat)
      requires Valid()
      modifies this`messageIdCounter, this`requestCallbacks, this`outbox
      ensures Valid()
      ensures reqId == old(messageIdCounter) && messageIdCounter == reqId + 1
      ensures requestCallbacks ==
        old(requestCallbacks)[reqId := RequestMetadata("execute", reqId, Some(Params(api, methodName, params)))]
      ensures outbox == old(outbox) +
        (if CanSend() then [OneWay(Some(reqId), "execute", ParamsValue(Some(Params(api, methodName, params))))] else [])
    {
      reqId := RawCall("execute", Some(Params(api, methodName, params)));
    }

    /** `send(api, method, params)`: an `execute` frame without an answer. */
    method Send(api: string, methodName: string, params: Value)
      modifies this`outbox
      ensures outbox == old(outbox) +
        (if CanSend() then [OneWay(None, "execute", ParamsValue(Some(Params(api, methodName, params))))] else [])
    {
      RawSend("execute", ParamsValue(Some(Params(api, methodName, params))));
    }

    /** `subscribe(api = null, method, callback)`. */
    method Subscribe(api: Option<string>, methodName: string, callback: Broadcast.Callback)
      requires Valid()
      modifies this`broadcastCallbacks
      ensures Valid()
      ensures broadcastCallbacks == Broadcast.Subscribe(old(broadcastCallbacks), api, methodName, callback)
    {
      broadcastCallbacks := Broadcast.Subscribe(broadcastCallbacks, api, methodName, callback);
    }

    /** `unsubscribe(api = null, method, callback)`. */
    method Unsubscribe(api: Option<string>, methodName: string, callback: Broadcast.Callback)
      requires Valid()
      modifies this`broadcastCallbacks
      ensures Valid()
      ensures broadcastCallbacks == Broadcast.Unsubscribe(old(broadcastCallbacks), api, methodName, callback)
    {
      broadcastCallbacks := Broadcast.Unsubscribe(broadcastCallbacks, api, methodName, callback);
    }

    /** `onMessage` for a decoded frame. A frame without an id is a device error, a
        `refreshPlugins` request or an `execute` message (whose params are required:
        `thrown` is the failed invariant); a frame with an id answers the pending request
        of that id once. */
    method OnMessage(msg: Message) returns (thrown: bool)
      requires Valid()
      modifies this`messageIdCounter, this`requestCallbacks, this`outbox,
        this`delivered, this`settled, this`reported
      ensures Valid()
      ensures thrown <==> IsExecute(msg) && msg.params.None?
      // An answer frame settles its pending request at most once.
      ensures NamesPending(msg, old(requestCallbacks)) ==>
        var k := msg.id.value;
        requestCallbacks == old(requestCallbacks) - {k}
        && settled == old(settled) + Settlements(k, msg.success, msg.error)
      ensures !NamesPending(msg, old(requestCallbacks)) ==> settled == old(settled)
      ensures !NamesPending(msg, old(requestCallbacks)) && !IsRefresh(msg) ==>
        requestCallbacks == old(requestCallbacks)
      // A device error is reported, and nothing else is.
      ensures reported == old(reported) + (if IsDeviceError(msg) then [msg.error] else [])
      // Only `refreshPlugins` issues a request: `getPlugins`, as `RawCall` does it.
      ensures !IsRefresh(msg) ==> messageIdCounter == old(messageIdCounter) && outbox == old(outbox)
      ensures IsRefresh(msg) ==>
        var reqId := old(messageIdCounter);
        messageIdCounter == reqId + 1
        && requestCallbacks == old(requestCallbacks)[reqId := RequestMetadata("getPlugins", reqId, None)]
        && outbox == old(outbox) + (if CanSend() then [OneWay(Some(reqId), "getPlugins", Undefined)] else [])
      // Only `execute` delivers: to every callback under its api and method, in order.
      ensures IsExecute(msg) && msg.params.Some? ==>
        var p := msg.params.value;
        delivered == old(delivered) +
          Deliveries(Broadcast.Callbacks(old(broadcastCallbacks), Some(p.api), p.methodName), p.params)
      ensures !(IsExecute(msg) && msg.params.Some?) ==> delivered == old(delivered)
    {
      thrown := false;
      if msg.id.None? {
        if !IsNullish(msg.error) {
          reported := reported + [msg.error];
        } else if msg.methodName == Some("refreshPlugins") {
          var _ := RawCall("getPlugins", None);
        } else if msg.methodName == Some("execute") {
          if msg.params.None? {
            thrown := true;
            return;
          }
          var p := msg.params.value;
          Deliver(Broadcast.Callbacks(broadcastCallbacks, Some(p.api), p.methodName), p.params);
        }
        return;
      }
      var k := msg.id.value;
      if k < 0 || k !in requestCallbacks {
        return;
      }
      requestCallbacks := requestCallbacks - {k};
      var s := OnResponse(k, msg.success, msg.error);
      if s.Some? {
        settled := settled + [s.value];
      }
    }

    /** `for (const callback of methodCallbacks) callback(params.params)`. */
    method Deliver(cbs: seq<Broadcast.Callback>, params: Value)
      modifies this`delivered
      ensures delivered == old(delivered) + Deliveries(cbs, params)
    {
      var i := 0;
      while i < |cbs|
        invariant 0 <= i <= |cbs|
        invariant delivered == old(delivered) + Deliveries(cbs[..i], params)
      {
        delivered := delivered + [Delivery(cbs[i], params)];
        i := i + 1;
        assert cbs[..i] == cbs[..i - 1] + [cbs[i - 1]];
      }
      assert cbs[..i] == cbs;
    }
  }

  /** What the server keeps for a connection id: the client (an opaque handle) and its
      WebSocket, absent for a fake client. */
  datatype ClientInfo = ClientInfo(client: nat, connection: Option<nat>)

  /** Events the server emits, and the `close` it makes a client emit. */
  datatype ServerEvent =
    | Terminated(connection: nat)
    | ClientClosed(client: nat)
    | ClientsChanged
    | NewClient(client: nat)
    | PluginsChanged(client: nat)

  /** `${app}-${os}-${device}`: the id a connection is known by. */
  function ConnectionId(query: ClientQuery): (r: string)
    ensures Strings.StartsWith(r, query.app + "-")
  {
    query.app + "-" + query.os + "-" + query.device
  }

  class Server {
    var connections: map<string, ClientInfo>
    var events: seq<ServerEvent>

    constructor ()
      ensures connections == map[] && events == []
    {
      connections := map[];
      events := [];
    }

    /** `addConnection`: the id is known at once; the client is only registered when
        its `init()` has finished (see `ClientInitialised`). */
    method AddConnection(query: ClientQuery) returns (id: string)
      ensures id == ConnectionId(query)
    {
      id := ConnectionId(query);
    }

    /** The continuation of `client.init()` in `addConnection`: a zombie connection under
        the same id is terminated and removed, then the new client takes the id. */
    method ClientInitialised(id: string, info: ClientInfo)
      modifies this
      ensures connections == old(connections)[id := info]
      ensures events == old(events)
        + (if id in old(connections) then
             (if old(connections)[id].connection.Some? then [Terminated(old(connections)[id].connection.value)] else [])
             + [ClientClosed(old(connections)[id].client), ClientsChanged]
           else [])
        + [NewClient(info.client), ClientsChanged, PluginsChanged(info.client)]
    {
      if id in connections {
        var previous := connections[id];
        if previous.connection.Some? {
          events := events + [Terminated(previous.connection.value)];
        }
        RemoveConnection(id);
      }
      connections := connections[id := info];
      events := events + [NewClient(info.client), ClientsChanged, PluginsChanged(info.client)];
    }

    /** `attachFakeClient`: registers a client without a connection, replacing any entry
        under its id without closing it. */
    method AttachFakeClient(clientId: string, client: nat)
      modifies this`connections
      ensures connections == old(connections)[clientId := ClientInfo(client, None)]
    {
      connections := connections[clientId := ClientInfo(client, None)];
    }

    /** `removeConnection(id)`: closes and forgets the client under `id`, if any. */
    method RemoveConnection(id: string)
      modifies this
      ensures connections == old(connections) - {id}
      ensures events == old(events) +
        (if id in old(connections) then [ClientClosed(old(connections)[id].client), ClientsChanged] else [])
    {
      if id in connections {
        var info := connections[id];
        events := events + [ClientClosed(info.client)];
        connections := connections - {id};
        events := events + [ClientsChanged];
      }
    }
  }

  /** Connection ids are the query's three parts joined by `-`, so two queries that
      differ only in their device name get different ids. */
  lemma ConnectionIdSeparatesDevices(q1: ClientQuery, q2: ClientQuery)
    requires q1.app == q2.app && q1.os == q2.os && q1.device != q2.device
    ensures ConnectionId(q1) != ConnectionId(q2)
  {
    var prefix := q1.app + "-" + q1.os + "-";
    assert ConnectionId(q1) == prefix + q1.device;
    assert ConnectionId(q2) == prefix + q2.device;
    assert ConnectionId(q1)[|prefix|..] == q1.device;
    assert ConnectionId(q2)[|prefix|..] == q2.device;
  }
}
