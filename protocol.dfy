/** The message shapes exchanged between the desktop app and a device client, and the
    names under which a request is timed and logged (`getPerformanceMark`,
    `getLogEventName`, identical in src/Client.tsx and src/server.js). */
module Protocol {
  import opened Wrappers
  import opened Json
  import Strings

  /** `{api, method, params?}`: the body of an `execute` call or of a subscription message. */
  datatype Params = Params(api: string, methodName: string, params: Value)

  /** A decoded incoming frame: `{id?, method?, params?, success?, error?}`.
      `id == null` (absent, null or undefined) is `None`. */
  datatype Message = Message(
    id: Option<int>,
    methodName: Option<string>,
    params: Option<Params>,
    success: Value,
    error: Value)

  /** The JSON object a `Params` record is sent as. */
  function ParamsValue(params: Option<Params>): Value {
    if params.None? then Undefined
    else Obj(map["api" := Str(params.value.api), "method" := Str(params.value.methodName),
                 "params" := params.value.params])
  }

  /** An id-less frame carrying a device error. */
  predicate IsDeviceError(msg: Message) {
    msg.id.None? && !IsNullish(msg.error)
  }

  /** An id-less `refreshPlugins` request. */
  predicate IsRefresh(msg: Message) {
    msg.id.None? && IsNullish(msg.error) && msg.methodName == Some("refreshPlugins")
  }

  /** An id-less `execute` message. */
  predicate IsExecute(msg: Message) {
    msg.id.None? && IsNullish(msg.error) && msg.methodName == Some("execute")
  }

  /** A frame whose id names one of the pending requests. */
  predicate NamesPending(msg: Message, pending: map<nat, RequestMetadata>) {
    msg.id.Some? && msg.id.value >= 0 && msg.id.value in pending
  }

  /** What is handed to the transport: a one-way frame `{id?, method, params}`
      (`fireAndForget` on an RSocket, `send` on a WebSocket), or a `requestResponse`
      request whose answer comes back on its own stream. */
  datatype Transmission =
    | OneWay(frameId: Option<nat>, methodName: string, params: Value)
    | RequestResponse(requestId: nat, methodName: string, params: Value)

  /** The bookkeeping kept for a request until its answer arrives (`RequestMetadata`). */
  datatype RequestMetadata = RequestMetadata(methodName: string, id: nat, params: Option<Params>)

  /** One invocation `callback(params.params)` of a subscribed callback. */
  datatype Delivery = Delivery(callback: nat, params: Value)

  /** Invoking each callback of a list, in order, with the same parameters. */
  function Deliveries(cbs: seq<nat>, params: Value): (r: seq<Delivery>)
    ensures |r| == |cbs|
    ensures forall i :: 0 <= i < |cbs| ==> r[i] == Delivery(cbs[i], params)
  {
    seq(|cbs|, i requires 0 <= i < |cbs| => Delivery(cbs[i], params))
  }

  /** A plugin named in `params.api`, if any. */
  function PluginOf(params: Option<Params>): Option<string> {
    if params.Some? then Some(params.value.api) else None
  }

  const MarkPrefix: string := "request_response_"

  /** `request_response_${method}_${id}`. */
  function GetPerformanceMark(methodName: string, id: nat): (r: string)
    ensures Strings.StartsWith(r, MarkPrefix + methodName + "_")
  {
    MarkPrefix + methodName + "_" + Strings.NatToText(id, Strings.Decimal)
  }

  /** Two requests get the same performance mark only if they have the same method
      and the same id: the id's digits hold no `_`, so the last `_` separates them. */
  lemma {:induction false} PerformanceMarkInjective(m1: string, i1: nat, m2: string, i2: nat)
    ensures GetPerformanceMark(m1, i1) == GetPerformanceMark(m2, i2) ==> m1 == m2 && i1 == i2
  {
    var d1 := Strings.NatToText(i1, Strings.Decimal);
    var d2 := Strings.NatToText(i2, Strings.Decimal);
    if GetPerformanceMark(m1, i1) == GetPerformanceMark(m2, i2) {
      DigitsHaveNoUnderscore(d1);
      DigitsHaveNoUnderscore(d2);
      assert (MarkPrefix + m1) + "_" + d1 == (MarkPrefix + m2) + "_" + d2;
      SplitAtLastSeparator(MarkPrefix + m1, d1, MarkPrefix + m2, d2, '_');
      assert m1 == (MarkPrefix + m1)[|MarkPrefix|..];
      assert m2 == (MarkPrefix + m2)[|MarkPrefix|..];
      Strings.NatToTextInjective(i1, i2, Strings.Decimal);
    }
  }

  lemma DigitsHaveNoUnderscore(d: string)
    requires Strings.AllDigits(d, Strings.Decimal)
    ensures '_' !in d
  {
    assert forall i :: 0 <= i < |d| ==> d[i] != '_';
  }

  /** If `a c x == b c y` and neither `x` nor `y` holds `c`, the two splits agree. */
  lemma SplitAtLastSeparator(a: string, x: string, b: string, y: string, c: char)
    requires c !in x && c !in y
    requires a + [c] + x == b + [c] + y
    ensures a == b && x == y
  {
    var s := a + [c] + x;
    assert forall i :: |a| < i < |s| ==> s[i] == x[i - |a| - 1];
    assert forall i :: |b| < i < |s| ==> s[i] == y[i - |b| - 1];
    assert s[|a|] == c && s[|b|] == c;
    assert |a| == |b|;
    assert a == s[..|a|] && b == s[..|b|];
    assert x == s[|a| + 1..] && y == s[|b| + 1..];
  }

  /** `params && params.api && params.methodName ? request_response_${method}_${api}_${m}
      : request_response_${method}`. */
  function GetLogEventName(methodName: string, params: Option<Params>): (r: string)
    ensures Strings.StartsWith(r, MarkPrefix + methodName)
    ensures (params.Some? && params.value.api != "" && params.value.methodName != "")
      <==> |r| > |MarkPrefix + methodName|
  {
    if params.Some? && params.value.api != "" && params.value.methodName != "" then
      MarkPrefix + methodName + "_" + params.value.api + "_" + params.value.methodName
    else
      MarkPrefix + methodName
  }

  /** What `onResponse` does with a response frame: resolve with `success` when it is
      truthy, otherwise reject with `error` when it is truthy, otherwise nothing. */
  datatype Settlement = Resolved(id: int, value: Value) | Rejected(id: int, reason: Value)

  function OnResponse(id: int, success: Value, error: Value): (r: Option<Settlement>)
    ensures r.Some? <==> Truthy(success) || Truthy(error)
    ensures r.Some? ==> r.value.id == id
    ensures r.Some? && r.value.Resolved? <==> Truthy(success)
    ensures r.Some? && r.value.Resolved? ==> r.value.value == success
    ensures r.Some? && r.value.Rejected? ==> r.value.reason == error
  {
    if Truthy(success) then Some(Resolved(id, success))
    else if Truthy(error) then Some(Rejected(id, error))
    else None
  }

  /** The settlements one response frame causes: none or one. */
  function Settlements(id: int, success: Value, error: Value): (r: seq<Settlement>)
    ensures |r| <= 1
    ensures r == [] <==> OnResponse(id, success, error).None?
    ensures r != [] ==> r[0] == OnResponse(id, success, error).value
  {
    var s := OnResponse(id, success, error);
    if s.Some? then [s.value] else []
  }

  /** The errors a response frame hands to `handleError` in src/Client.tsx: the error of a
      rejection, and nothing otherwise. */
  function ResponseReports(id: int, success: Value, error: Value): (r: seq<Value>)
    ensures |r| <= 1
    ensures r != [] <==> OnResponse(id, success, error).Some? && OnResponse(id, success, error).value.Rejected?
    ensures r != [] ==> r[0] == error
  {
    if !Truthy(success) && Truthy(error) then [error] else []
  }
}
