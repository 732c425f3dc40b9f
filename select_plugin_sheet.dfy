/** The sheet that asks which plugins' data to export (src/chrome/SelectPluginSheet.tsx).
    The selection is a JavaScript `Map` from plugin id to a flag. When the sheet takes the
    parent's map into its state it takes the object itself, and a row toggle sets the
    flag on that object in place. */
module SelectPluginSheet {
  import opened Wrappers
  import OrderedMap

  /** A `Map<string, boolean>` object. */
  class PluginSelection {
    var entries: OrderedMap.OMap<bool>

    constructor (entries0: OrderedMap.OMap<bool>)
      ensures entries == entries0
    {
      entries := entries0;
    }

    /** `map.set(id, selected)`. */
    method Set(id: string, selected: bool)
      modifies this
      ensures entries == OrderedMap.Put(old(entries), id, selected)
    {
      entries := OrderedMap.Put(entries, id, selected);
    }
  }

  /** The ids flagged true, in the map's insertion order. */
  function SelectedIds(entries: seq<(string, bool)>): (r: seq<string>)
    ensures forall x :: x in r ==> exists i :: 0 <= i < |entries| && entries[i] == (x, true)
    ensures forall i :: 0 <= i < |entries| && entries[i].1 ==> entries[i].0 in r
    ensures |r| <= |entries|
  {
    if |entries| == 0 then []
    else
      var init := SelectedIds(entries[..|entries| - 1]);
      assert forall i :: 0 <= i < |entries| - 1 ==> entries[..|entries| - 1][i] == entries[i];
      if entries[|entries| - 1].1 then init + [entries[|entries| - 1].0] else init
  }

  /** An id is submitted iff the map flags it true. */
  lemma SelectedIdsExact(m: OrderedMap.OMap<bool>, id: string)
    ensures id in SelectedIds(m) <==> OrderedMap.Get(m, id) == Some(true)
  {
    if id in SelectedIds(m) {
      var i :| 0 <= i < |m| && m[i] == (id, true);
      OrderedMap.GetAt(m, i);
    }
    if OrderedMap.Get(m, id) == Some(true) {
      var i :| 0 <= i < |m| && m[i] == (id, true);
    }
  }

  /** Submitting the ids flagged true keeps them in the order the map lists them. */
  lemma {:induction false} SelectedIdsInOrder(m: seq<(string, bool)>, a: seq<(string, bool)>, b: seq<(string, bool)>)
    requires m == a + b
    ensures SelectedIds(m) == SelectedIds(a) + SelectedIds(b)
    decreases |b|
  {
    if |b| > 0 {
      var n := |b| - 1;
      assert m[..|m| - 1] == a + b[..n];
      SelectedIdsInOrder(m[..|m| - 1], a, b[..n]);
      assert (a + b)[|m| - 1] == b[n];
      assert b[..|b| - 1] == b[..n];
    } else {
      assert m == a;
    }
  }

  /** What the sheet has asked of the outside world. */
  datatype Event = UnsetShare | Hide | Select(plugins: seq<string>)

  class SelectPluginSheet {
    const propsPlugins: PluginSelection
    var plugins: PluginSelection
    var events: seq<Event>

    /** The state initialiser: a new, empty `Map`. */
    constructor (propsPlugins0: PluginSelection)
      ensures propsPlugins == propsPlugins0
      ensures fresh(plugins) && plugins.entries == [] && events == []
    {
      propsPlugins := propsPlugins0;
      plugins := new PluginSelection([]);
      events := [];
    }

    /** `getDerivedStateFromProps`: a non-empty selection is kept; an empty one is
        replaced by the parent's map object. */
    method DeriveState()
      modifies this`plugins
      ensures |old(plugins.entries)| > 0 ==> plugins == old(plugins)
      ensures |old(plugins.entries)| == 0 ==> plugins == propsPlugins
    {
      if |plugins.entries| == 0 {
        plugins := propsPlugins;
      }
    }

    /** A row's checkbox: the flag set on the state's map object in place. Only that
        plugin's flag changes; when the map is the parent's, the parent sees it too. */
    method Toggle(id: string, selected: bool)
      modifies plugins
      ensures OrderedMap.Get(plugins.entries, id) == Some(selected)
      ensures forall k :: k != id ==> OrderedMap.Get(plugins.entries, k) == OrderedMap.Get(old(plugins.entries), k)
      ensures OrderedMap.HasKey(old(plugins.entries), id) ==>
        OrderedMap.Keys(plugins.entries) == OrderedMap.Keys(old(plugins.entries))
    {
      plugins.Set(id, selected);
    }

    /** `onSubmit(plugins)`: the ids flagged true, collected in a loop, to `onSelect`. */
    method OnSubmit(selection: PluginSelection)
      modifies this`events
      ensures events == old(events) + [Select(SelectedIds(selection.entries))]
    {
      var entries := selection.entries;
      var acc: seq<string> := [];
      var i := 0;
      while i < |entries|
        invariant 0 <= i <= |entries|
        invariant acc == SelectedIds(entries[..i])
      {
        assert entries[..i + 1][..i] == entries[..i];
        if entries[i].1 {
          acc := acc + [entries[i].0];
        }
        i := i + 1;
      }
      assert entries[..i] == entries;
      events := events + [Select(acc)];
    }

    /** The Close button: `unsetShare` is dispatched, then the sheet is hidden. */
    method Close()
      modifies this`events
      ensures events == old(events) + [UnsetShare, Hide]
    {
      events := events + [UnsetShare];
      events := events + [Hide];
    }
  }
}
