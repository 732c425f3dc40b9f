/** The test double of a plugin's connection to the desktop
    (xplat/FlipperTestLib/FlipperConnectionMock.h): it remembers, per method, the last
    parameters sent and the last receiver registered, and ignores errors. */
module ConnectionMock {
  import opened Json
  import opened Wrappers

  /** A receiver callback, as an opaque handle. */
  type Receiver = nat

  class FlipperConnectionMock {
    var sent: map<string, Value>
    var receivers: map<string, Receiver>
    /** The methods ever passed to `receive`. */
    ghost var received: set<string>

    /** Exactly the methods ever registered have a receiver. */
    ghost predicate Valid()
      reads this
    {
      receivers.Keys == received
    }

    constructor ()
      ensures Valid()
      ensures sent == map[] && receivers == map[] && received == {}
    {
      sent := map[];
      receivers := map[];
      received := {};
    }

    /** `send`: the parameters are stored under the method, replacing earlier ones;
        nothing else changes. */
    method Send(methodName: string, params: Value)
      modifies this`sent
      ensures sent == old(sent)[methodName := params]
      ensures forall m :: m in old(sent) && m != methodName ==> m in sent && sent[m] == old(sent)[m]
    {
      sent := sent[methodName := params];
    }

    /** `receive`: the receiver is stored under the method, replacing an earlier one. */
    method Receive(methodName: string, receiver: Receiver)
      requires Valid()
      modifies this`receivers, this`received
      ensures Valid()
      ensures receivers == old(receivers)[methodName := receiver]
      ensures received == old(received) + {methodName}
    {
      receivers := receivers[methodName := receiver];
      received := received + {methodName};
    }

    /** `error`: nothing is recorded. */
    method Error(message: string, stacktrace: string)
      ensures sent == old(sent) && receivers == old(receivers)
    {
    }
  }

  /** The `sent` map after a series of sends from `start`, as `Send` builds it. */
  function Replay(start: map<string, Value>, sends: seq<(string, Value)>): map<string, Value>
    decreases |sends|
  {
    if |sends| == 0 then start
    else Replay(start, sends[..|sends| - 1])[sends[|sends| - 1].0 := sends[|sends| - 1].1]
  }

  /** The parameters of the last send of `m` in the series, if any. */
  function LastSent(sends: seq<(string, Value)>, m: string): (r: Option<Value>)
    ensures r.None? <==> forall i :: 0 <= i < |sends| ==> sends[i].0 != m
    decreases |sends|
  {
    if |sends| == 0 then None
    else if sends[|sends| - 1].0 == m then Some(sends[|sends| - 1].1)
    else
      var r := LastSent(sends[..|sends| - 1], m);
      assert forall i :: 0 <= i < |sends| - 1 ==> sends[..|sends| - 1][i] == sends[i];
      r
  }

  /** Whether the series sends `m` at index `i` and not later. */
  predicate LastSendAt(sends: seq<(string, Value)>, m: string, i: int) {
    0 <= i < |sends| && sends[i].0 == m && forall j :: i < j < |sends| ==> sends[j].0 != m
  }

  /** `LastSent` is the send at the last index that sends `m`. */
  lemma {:induction false} LastSentAt(sends: seq<(string, Value)>, m: string, i: int)
    requires LastSendAt(sends, m, i)
    ensures LastSent(sends, m) == Some(sends[i].1)
    decreases |sends|
  {
    if i < |sends| - 1 {
      var init := sends[..|sends| - 1];
      assert LastSendAt(init, m, i);
      LastSentAt(init, m, i);
    }
  }

  /** After a series of sends the map holds, for each method, the parameters of the last
      send of that method, and keeps the starting entry of a method never sent. */
  lemma {:induction false} ReplayLastWins(start: map<string, Value>, sends: seq<(string, Value)>, m: string)
    ensures LastSent(sends, m).Some? ==> m in Replay(start, sends) && Replay(start, sends)[m] == LastSent(sends, m).value
    ensures LastSent(sends, m).None? ==>
      (m in Replay(start, sends) <==> m in start) && (m in start ==> Replay(start, sends)[m] == start[m])
    decreases |sends|
  {
    if |sends| > 0 {
      ReplayLastWins(start, sends[..|sends| - 1], m);
    }
  }
}
