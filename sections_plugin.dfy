/** The Android plugin that reports section-tree changesets to the desktop
    (android/src/main/java/com/facebook/flipper/plugins/sections/SectionsFlipperPlugin.java).
    Once it holds a connection, each applied changeset is reported as four messages, in a
    fixed order. The connection is a handle; what is sent through it is recorded in order. */
module SectionsPlugin {
  import opened Wrappers
  import opened Json

  /** A message sent through the connection `connection`. */
  datatype Sent = Sent(connection: nat, methodName: string, params: Value)

  /** The timestamps and durations the plugin reports are fixed placeholders. */
  const PlaceholderTimestamp: int := 10000
  const PlaceholderDuration: int := 0

  /** The names of the four messages. */
  const AddEvent: string := "addEvent"
  const HierarchyGeneration: string := "updateTreeGenerationHierarchyGeneration"
  const ChangesetGeneration: string := "updateTreeGenerationChangesetGeneration"
  const ChangesetApplication: string := "updateTreeGenerationChangesetApplication"

  /** The `type` of the changeset generation and application messages. */
  const Generated: string := "CHANGESET_GENERATED"
  const Applied: string := "CHANGESET_APPLIED"

  /** `update_mode`: 0 for an asynchronous changeset, 1 for a synchronous one. */
  function UpdateMode(isAsync: bool): (r: int)
    ensures r == 0 <==> isAsync
    ensures r == 0 || r == 1
  {
    if isAsync then 0 else 1
  }

  /** The `addEvent` parameters. */
  function AddEventParams(name: string, isAsync: bool, surfaceId: string, id: string): (r: Value)
    ensures r.Obj? && Field(r, "id") == Str(id) && Field(r, "update_mode") == Num(UpdateMode(isAsync))
    ensures Field(r, "reason") == Str(name) && Field(r, "surface_key") == Str(surfaceId)
  {
    Obj(map[
      "id" := Str(id),
      "update_mode" := Num(UpdateMode(isAsync)),
      "reason" := Str(name),
      "surface_key" := Str(surfaceId),
      "tree_generation_timestamp" := Num(PlaceholderTimestamp),
      "stack_trace" := Arr([]),
      "payload" := Obj(map[])])
  }

  /** The hierarchy-generation parameters. */
  function HierarchyParams(name: string, id: string, tree: Value): (r: Value)
    ensures r.Obj? && Field(r, "id") == Str(id) && Field(r, "reason") == Str(name) && Field(r, "tree") == tree
  {
    Obj(map[
      "id" := Str(id),
      "hierarchy_generation_timestamp" := Num(PlaceholderTimestamp),
      "hierarchy_generation_duration" := Num(PlaceholderDuration),
      "tree" := tree,
      "reason" := Str(name)])
  }

  /** The parameters of the changeset generation (`CHANGESET_GENERATED`) or application
      (`CHANGESET_APPLIED`) message. */
  function ChangesetParams(kind: string, id: string, changesetData: Value): (r: Value)
    ensures r.Obj? && Field(r, "type") == Str(kind) && Field(r, "identifier") == Str(id)
    ensures Field(r, "tree_generation_id") == Str(id) && Field(r, "changeset") == changesetData
  {
    Obj(map[
      "type" := Str(kind),
      "identifier" := Str(id),
      "tree_generation_id" := Str(id),
      "timestamp" := Num(PlaceholderTimestamp),
      "duration" := Num(PlaceholderDuration),
      "changeset" := changesetData])
  }

  /** The four messages reporting one changeset: the event, the hierarchy generation,
      the changeset generation and the changeset application. */
  function ChangesetMessages(name: string, isAsync: bool, surfaceId: string, id: string,
                             tree: Value, changesetData: Value): (r: seq<(string, Value)>)
    ensures |r| == 4
    ensures r[0].0 == AddEvent && r[1].0 == HierarchyGeneration
      && r[2].0 == ChangesetGeneration && r[3].0 == ChangesetApplication
    ensures r[0].1.Obj? && r[1].1.Obj? && r[2].1.Obj? && r[3].1.Obj?
    ensures Field(r[0].1, "id") == Str(id) && Field(r[1].1, "id") == Str(id)
    ensures Field(r[0].1, "update_mode") == Num(UpdateMode(isAsync))
    ensures Field(r[0].1, "reason") == Str(name) && Field(r[1].1, "reason") == Str(name)
    ensures Field(r[0].1, "surface_key") == Str(surfaceId)
    ensures Field(r[1].1, "tree") == tree
    ensures Field(r[2].1, "type") == Str(Generated) && Field(r[3].1, "type") == Str(Applied)
    ensures Field(r[2].1, "identifier") == Str(id) && Field(r[3].1, "identifier") == Str(id)
    ensures Field(r[2].1, "changeset") == changesetData && Field(r[3].1, "changeset") == changesetData
  {
    [(AddEvent, AddEventParams(name, isAsync, surfaceId, id)),
     (HierarchyGeneration, HierarchyParams(name, id, tree)),
     (ChangesetGeneration, ChangesetParams(Generated, id, changesetData)),
     (ChangesetApplication, ChangesetParams(Applied, id, changesetData))]
  }

  /** The messages of a changeset, as sent through `connection`. */
  function SentThrough(connection: nat, messages: seq<(string, Value)>): (r: seq<Sent>)
    ensures |r| == |messages|
    ensures forall k :: 0 <= k < |r| ==> r[k] == Sent(connection, messages[k].0, messages[k].1)
  {
    seq(|messages|, k requires 0 <= k < |messages| => Sent(connection, messages[k].0, messages[k].1))
  }

  lemma SentThroughFour(c: nat, m: seq<(string, Value)>)
    requires |m| == 4
    ensures SentThrough(c, m) == [Sent(c, m[0].0, m[0].1)] + [Sent(c, m[1].0, m[1].1)]
      + [Sent(c, m[2].0, m[2].1)] + [Sent(c, m[3].0, m[3].1)]
  {
  }

  lemma AppendFour<T>(s: seq<T>, a: T, b: T, c: T, d: T)
    ensures s + [a] + [b] + [c] + [d] == s + ([a] + [b] + [c] + [d])
  {
  }

  class SectionsFlipperPlugin {
    /** `mConnection`: none until `onConnect`. */
    var connection: Option<nat>
    /** Everything sent through a connection, oldest first. */
    var sent: seq<Sent>

    constructor ()
      ensures connection.None? && sent == []
    {
      connection := None;
      sent := [];
    }

    /** `getId`. */
    method GetId() returns (id: string)
      ensures id == "Sections"
    {
      id := "Sections";
    }

    /** `runInBackground`: the plugin only runs while it is shown. */
    method RunInBackground() returns (r: bool)
      ensures !r
    {
      r := false;
    }

    /** `onConnect`: the connection is kept. */
    method OnConnect(c: nat)
      modifies this`connection
      ensures connection == Some(c)
    {
      connection := Some(c);
    }

    /** `onDisconnect`: nothing happens; in particular the connection is kept. */
    method OnDisconnect()
      ensures connection == old(connection) && sent == old(sent)
    {
    }

    /** `onChangesetApplied`: nothing without a connection; otherwise the four messages
        of the changeset, in order, through the connection held. */
    method OnChangesetApplied(name: string, isAsync: bool, surfaceId: string, id: string,
                              tree: Value, changesetData: Value)
      modifies this`sent
      ensures connection.None? ==> sent == old(sent)
      ensures connection.Some? ==>
        sent == old(sent) + SentThrough(connection.value, ChangesetMessages(name, isAsync, surfaceId, id, tree, changesetData))
    {
      if connection.None? {
        return;
      }
      var messages := ChangesetMessages(name, isAsync, surfaceId, id, tree, changesetData);
      SendFour(connection.value, messages);
    }

    /** The four `send` calls, one message after another through connection `c`. */
    method SendFour(c: nat, messages: seq<(string, Value)>)
      requires |messages| == 4
      modifies this`sent
      ensures sent == old(sent) + SentThrough(c, messages)
    {
      ghost var before := sent;
      var m0, m1, m2, m3 := messages[0], messages[1], messages[2], messages[3];
      sent := sent + [Sent(c, m0.0, m0.1)];
      sent := sent + [Sent(c, m1.0, m1.1)];
      sent := sent + [Sent(c, m2.0, m2.1)];
      sent := sent + [Sent(c, m3.0, m3.1)];
      SentThroughFour(c, messages);
      AppendFour(before, Sent(c, m0.0, m0.1), Sent(c, m1.0, m1.1), Sent(c, m2.0, m2.1), Sent(c, m3.0, m3.1));
    }
  }
}
