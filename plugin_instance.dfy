/** A running client plugin (`FlipperPlugin` in src/plugin.js): the `client` it is handed
    forwards every call under the plugin's id, the subscriptions it makes are recorded so
    that `_teardown` can undo them, and `_init`/`_teardown` tell the device to start and
    stop the plugin around the plugin's own `init`/`teardown`. */
module PluginInstance {
  import opened Wrappers
  import opened Json
  import opened Protocol
  import Broadcast
  import Plugin
  import DesktopClient

  /** An entry of `subscriptions`: `{method, callback}`. */
  datatype Subscription = Subscription(methodName: string, callback: Broadcast.Callback)

  /** A call of the plugin's own `init()` or `teardown()`, with the number of frames the
      client had sent by then. */
  datatype Hook = InitHook(framesBefore: nat) | TeardownHook(framesBefore: nat)

  /** The table after unsubscribing each recorded subscription of `api`, in order. */
  function UnsubscribeAll(t: Broadcast.Table<string>, api: string, subs: seq<Subscription>): Broadcast.Table<string>
    decreases |subs|
  {
    if |subs| == 0 then t
    else
      var last := subs[|subs| - 1];
      Broadcast.Unsubscribe(UnsubscribeAll(t, api, subs[..|subs| - 1]), api, last.methodName, last.callback)
  }

  /** After the teardown loop no recorded callback is still subscribed under the plugin's
      id, and the subscriptions of every other api are as they were. */
  lemma {:induction false} UnsubscribeAllRemoves(t: Broadcast.Table<string>, api: string, subs: seq<Subscription>)
    ensures forall i :: 0 <= i < |subs| ==>
      subs[i].callback !in Broadcast.Callbacks(UnsubscribeAll(t, api, subs), api, subs[i].methodName)
    ensures forall a, m :: a != api ==>
      Broadcast.Callbacks(UnsubscribeAll(t, api, subs), a, m) == Broadcast.Callbacks(t, a, m)
    ensures Broadcast.Wellformed(t) ==> Broadcast.Wellformed(UnsubscribeAll(t, api, subs))
    decreases |subs|
  {
    if |subs| > 0 {
      var init := subs[..|subs| - 1];
      var last := subs[|subs| - 1];
      UnsubscribeAllRemoves(t, api, init);
      var before := UnsubscribeAll(t, api, init);
      var after := Broadcast.Unsubscribe(before, api, last.methodName, last.callback);
      forall i | 0 <= i < |subs|
        ensures subs[i].callback !in Broadcast.Callbacks(after, api, subs[i].methodName)
      {
        if i < |subs| - 1 {
          assert subs[i] == init[i];
          UnsubscribeKeepsAbsent(before, api, last.methodName, last.callback, subs[i].methodName, subs[i].callback);
        }
      }
    }
  }

  /** Unsubscribing never brings a callback back. */
  lemma UnsubscribeKeepsAbsent(t: Broadcast.Table<string>, api: string, m: string, cb: Broadcast.Callback,
                               m': string, cb': Broadcast.Callback)
    requires cb' !in Broadcast.Callbacks(t, api, m')
    ensures cb' !in Broadcast.Callbacks(Broadcast.Unsubscribe(t, api, m, cb), api, m')
  {
    var r := Broadcast.Unsubscribe(t, api, m, cb);
    if m' == m {
      var after := Broadcast.Callbacks(r, api, m');
      assert forall i :: 0 <= i < |after| ==> after[i] in Broadcast.Callbacks(t, api, m');
    }
  }

  /** The `execute` body of a call for `api`: `{api, method, params}`. */
  function CallBody(api: string, methodName: string, params: Value): (r: Value)
    ensures r.Obj? && "api" in r.fields && "method" in r.fields && "params" in r.fields
    ensures r.fields["api"] == Str(api) && r.fields["method"] == Str(methodName) && r.fields["params"] == params
  {
    ParamsValue(Some(Params(api, methodName, params)))
  }

  /** The body `client.call(method, params)` sends as written: the params are not in it. */
  function CallBodyAsWritten(api: string, methodName: string, params: Value): (r: Value)
    ensures r == CallBody(api, methodName, Undefined)
  {
    ParamsValue(Some(Params(api, methodName, Undefined)))
  }

  /** As written, a call with params sends a body that differs from the intended one:
      its `params` field is `undefined`. The corrected body carries them. */
  lemma ClientCallAsWrittenDropsParams(api: string, methodName: string, params: Value)
    requires params != Undefined
    ensures CallBodyAsWritten(api, methodName, params).fields["params"] == Undefined
    ensures CallBodyAsWritten(api, methodName, params) != CallBody(api, methodName, params)
    ensures CallBody(api, methodName, params).fields["params"] == params
  {
    assert CallBody(api, methodName, params).fields["params"] == params;
  }

  class FlipperPlugin {
    const pluginClass: Plugin.PluginClass
    const realClient: DesktopClient.Client
    var subscriptions: seq<Subscription>
    var hooks: seq<Hook>

    ghost predicate Valid()
      reads this, realClient
    {
      realClient.Valid()
    }

    constructor (pluginClass: Plugin.PluginClass, realClient: DesktopClient.Client)
      ensures this.pluginClass == pluginClass && this.realClient == realClient
      ensures subscriptions == [] && hooks == []
    {
      this.pluginClass := pluginClass;
      this.realClient := realClient;
      subscriptions := [];
      hooks := [];
    }

    /** `client.call(method, params)` as written: `realClient.call(id, method, params)`.
        `call` takes `(api, method, fromPlugin, params)`, so the plugin's params arrive as
        `fromPlugin`, where only their truthiness counts, and the request carries none. */
    method ClientCall(methodName: string, params: Value) returns (reqId: nat)
      requires Valid()
      modifies realClient`messageIdCounter, realClient`requestCallbacks, realClient`streams, realClient`outbox
      ensures Valid()
      ensures reqId == old(realClient.messageIdCounter) && realClient.messageIdCounter == reqId + 1
      ensures realClient.sdkVersion < 1 ==>
        realClient.requestCallbacks == old(realClient.requestCallbacks)[reqId :=
          RequestMetadata("execute", reqId, Some(Params(pluginClass.id, methodName, Undefined)))]
        && realClient.outbox == old(realClient.outbox) +
             (if realClient.hasConnection then [OneWay(Some(reqId), "execute", CallBodyAsWritten(pluginClass.id, methodName, params))] else [])
      ensures (realClient.sdkVersion >= 1 && realClient.hasConnection
        && (!Truthy(params) || realClient.IsAcceptingMessagesFromPlugin(Some(pluginClass.id)))) ==>
        realClient.outbox == old(realClient.outbox) +
          [RequestResponse(reqId, "execute", CallBodyAsWritten(pluginClass.id, methodName, params))]
      ensures (realClient.sdkVersion >= 1
        && !(realClient.hasConnection && (!Truthy(params) || realClient.IsAcceptingMessagesFromPlugin(Some(pluginClass.id))))) ==>
        realClient.outbox == old(realClient.outbox) && realClient.streams == old(realClient.streams)
    {
      reqId := realClient.Call(pluginClass.id, methodName, Truthy(params), Undefined);
    }

    /** `client.call(method, params)` with `call`'s arguments in their order: a
        plugin-originated `execute` request carrying the plugin's params. */
    method ClientCallCorrected(methodName: string, params: Value) returns (reqId: nat)
      requires Valid()
      modifies realClient`messageIdCounter, realClient`requestCallbacks, realClient`streams, realClient`outbox
      ensures Valid()
      ensures reqId == old(realClient.messageIdCounter) && realClient.messageIdCounter == reqId + 1
      ensures realClient.sdkVersion < 1 ==>
        realClient.requestCallbacks == old(realClient.requestCallbacks)[reqId :=
          RequestMetadata("execute", reqId, Some(Params(pluginClass.id, methodName, params)))]
        && realClient.outbox == old(realClient.outbox) +
             (if realClient.hasConnection then [OneWay(Some(reqId), "execute", CallBody(pluginClass.id, methodName, params))] else [])
      ensures realClient.sdkVersion >= 1 && realClient.IsAcceptingMessagesFromPlugin(Some(pluginClass.id)) ==>
        realClient.outbox == old(realClient.outbox) +
          [RequestResponse(reqId, "execute", CallBody(pluginClass.id, methodName, params))]
      ensures realClient.sdkVersion >= 1 && !realClient.IsAcceptingMessagesFromPlugin(Some(pluginClass.id)) ==>
        realClient.outbox == old(realClient.outbox) && realClient.streams == old(realClient.streams)
    {
      reqId := realClient.Call(pluginClass.id, methodName, true, params);
    }

    /** `client.send(method, params)`: an `execute` frame under the plugin's id. */
    method ClientSend(methodName: string, params: Value)
      modifies realClient`outbox
      ensures realClient.outbox == old(realClient.outbox) + (if realClient.hasConnection then
        [OneWay(None, "execute", ParamsValue(Some(Params(pluginClass.id, methodName, params))))] else [])
    {
      realClient.Send(pluginClass.id, methodName, params);
    }

    /** `client.subscribe(method, callback)`: recorded, then subscribed under the plugin's id. */
    method ClientSubscribe(methodName: string, callback: Broadcast.Callback)
      requires Valid()
      modifies this`subscriptions, realClient`broadcastCallbacks
      ensures Valid()
      ensures subscriptions == old(subscriptions) + [Subscription(methodName, callback)]
      ensures realClient.broadcastCallbacks ==
        Broadcast.Subscribe(old(realClient.broadcastCallbacks), pluginClass.id, methodName, callback)
    {
      subscriptions := subscriptions + [Subscription(methodName, callback)];
      realClient.Subscribe(pluginClass.id, methodName, callback);
    }

    /** `_init()`: the device is told to start the plugin, then the plugin's `init()` runs. */
    method Init()
      modifies this`hooks, realClient`outbox
      ensures realClient.outbox == old(realClient.outbox) + (if realClient.hasConnection then
        [OneWay(None, "init", DesktopClient.PluginParam(pluginClass.id))] else [])
      ensures hooks == old(hooks) + [InitHook(|realClient.outbox|)]
    {
      realClient.RawSend("init", DesktopClient.PluginParam(pluginClass.id));
      hooks := hooks + [InitHook(|realClient.outbox|)];
    }

    /** `_teardown()`: every recorded subscription is unsubscribed, the plugin's `teardown()`
        runs, and a connected client tells the device to stop the plugin. The record of
        subscriptions itself is not cleared. */
    method Teardown()
      requires Valid()
      modifies this`hooks, realClient`broadcastCallbacks, realClient`outbox
      ensures Valid()
      ensures subscriptions == old(subscriptions)
      ensures realClient.broadcastCallbacks ==
        UnsubscribeAll(old(realClient.broadcastCallbacks), pluginClass.id, subscriptions)
      ensures hooks == old(hooks) + [TeardownHook(|old(realClient.outbox)|)]
      ensures realClient.outbox == old(realClient.outbox) +
        (if realClient.connected && realClient.hasConnection then
           [OneWay(None, "deinit", DesktopClient.PluginParam(pluginClass.id))] else [])
    {
      var i := 0;
      while i < |subscriptions|
        invariant 0 <= i <= |subscriptions|
        invariant realClient.Valid()
        invariant realClient.broadcastCallbacks ==
          UnsubscribeAll(old(realClient.broadcastCallbacks), pluginClass.id, subscriptions[..i])
        invariant realClient.outbox == old(realClient.outbox) && hooks == old(hooks)
      {
        var s := subscriptions[i];
        realClient.Unsubscribe(pluginClass.id, s.methodName, s.callback);
        assert subscriptions[..i + 1][..i] == subscriptions[..i];
        i := i + 1;
      }
      assert subscriptions[..i] == subscriptions;
      hooks := hooks + [TeardownHook(|realClient.outbox|)];
      if realClient.connected {
        realClient.RawSend("deinit", DesktopClient.PluginParam(pluginClass.id));
      }
    }
  }
}
