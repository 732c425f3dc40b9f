/** The layout plugin's inspector (src/plugins/layout/Inspector.js). It keeps two element
    maps in the plugin's persisted state, one for the view tree and one for the
    accessibility (AX) tree; `ax` chooses which one an inspector works on and which client
    methods it calls. Elements are JSON objects keyed by their `id`. */
module LayoutInspector {
  import opened Wrappers
  import opened Json
  import OrderedMap
  import Seqs

  /** An element: its fields, among them `id`, `children` and `expanded`. */
  type Element = map<string, Value>

  /** The client methods an inspector calls (`call()`). */
  datatype MethodNames = MethodNames(getRoot: string, invalidate: string, getNodes: string,
                                     setHighlighted: string, select: string, invalidateWithData: string)

  function Call(ax: bool): (r: MethodNames)
    ensures r.setHighlighted == "setHighlighted"
    ensures ax <==> r.getRoot == "getAXRoot"
    ensures ax ==> r == MethodNames("getAXRoot", "invalidateAX", "getAXNodes", "setHighlighted",
                                    "selectAX", "invalidateWithDataAX")
    ensures !ax ==> r == MethodNames("getRoot", "invalidate", "getNodes", "setHighlighted",
                                     "select", "invalidateWithData")
  {
    MethodNames(if ax then "getAXRoot" else "getRoot",
                if ax then "invalidateAX" else "invalidate",
                if ax then "getAXNodes" else "getNodes",
                "setHighlighted",
                if ax then "selectAX" else "select",
                if ax then "invalidateWithDataAX" else "invalidateWithData")
  }

  /** The two trees talk to different client methods, except for highlighting. */
  lemma CallTablesDisjoint()
    ensures var a, v := Call(true), Call(false);
      a.setHighlighted == v.setHighlighted
      && a.getRoot != v.getRoot && a.invalidate != v.invalidate && a.getNodes != v.getNodes
      && a.select != v.select && a.invalidateWithData != v.invalidateWithData
  {
    var a, v := Call(true), Call(false);
    assert a.invalidate[|a.invalidate| - 1] != v.invalidate[|v.invalidate| - 1];
    assert a.getRoot[3] != v.getRoot[3] && a.getNodes[3] != v.getNodes[3];
    assert |a.select| != |v.select| && |a.invalidateWithData| != |v.invalidateWithData|;
  }

  /** The property key an element is stored under: its `id` (ids are strings; a
      missing id is the key "undefined"). */
  function IdOf(e: Element): string {
    if "id" in e && e["id"].Str? then e["id"].s else "undefined"
  }

  /** `elements[id]?.expanded`. */
  function ExpandedOf(elements: OrderedMap.OMap<Element>, id: string): Value {
    match OrderedMap.Get(elements, id)
      case None => Undefined
      case Some(el) => if "expanded" in el then el["expanded"] else Undefined
  }

  /** `{...element, expanded: elements[element.id]?.expanded}`. */
  function Refreshed(elements: OrderedMap.OMap<Element>, e: Element): (r: Element)
    ensures r.Keys == e.Keys + {"expanded"}
    ensures r["expanded"] == ExpandedOf(elements, IdOf(e))
    ensures forall f :: f in e && f != "expanded" ==> r[f] == e[f]
  {
    Spread(e, map["expanded" := ExpandedOf(elements, IdOf(e))])
  }

  /** `updatedElements`: each incoming element, refreshed, put under its id, in order. */
  function Updated(elements: OrderedMap.OMap<Element>, es: seq<Element>): OrderedMap.OMap<Element> {
    OrderedMap.PutAll(Keyed(elements, es), |es|)
  }

  /** The (id, refreshed element) pair of each incoming element. */
  function Keyed(elements: OrderedMap.OMap<Element>, es: seq<Element>): (r: seq<(string, Element)>)
    ensures |r| == |es|
    ensures forall j :: 0 <= j < |es| ==> r[j].0 == IdOf(es[j])
    ensures forall j :: 0 <= j < |es| ==> r[j].1 == Refreshed(elements, es[j])
  {
    seq(|es|, j requires 0 <= j < |es| => (IdOf(es[j]), Refreshed(elements, es[j])))
  }

  /** The new element map, or none when no element came in. */
  function MergeWithData(elements: OrderedMap.OMap<Element>, es: seq<Element>): (r: Option<OrderedMap.OMap<Element>>)
    ensures r.None? <==> |es| == 0
  {
    if |es| == 0 then None else Some(OrderedMap.Assign(elements, Updated(elements, es)))
  }

  /** Each incoming element replaces the stored one under its id but carries the stored
      element's `expanded`; an element whose id does not come in is unchanged. */
  lemma MergeKeepsExpanded(elements: OrderedMap.OMap<Element>, es: seq<Element>, id: string, i: int)
    requires |es| > 0
    requires 0 <= i < |es| && IdOf(es[i]) == id && forall j :: i < j < |es| ==> IdOf(es[j]) != id
    ensures OrderedMap.Get(MergeWithData(elements, es).value, id) == Some(Refreshed(elements, es[i]))
    ensures Refreshed(elements, es[i])["expanded"] == ExpandedOf(elements, id)
  {
    var kvs := Keyed(elements, es);
    OrderedMap.LastValueAt(kvs, id, i, |es|);
  }

  lemma MergeKeepsOthers(elements: OrderedMap.OMap<Element>, es: seq<Element>, id: string)
    requires |es| > 0
    requires forall j :: 0 <= j < |es| ==> IdOf(es[j]) != id
    ensures OrderedMap.Get(MergeWithData(elements, es).value, id) == OrderedMap.Get(elements, id)
  {
    var kvs := Keyed(elements, es);
    assert forall j :: 0 <= j < |kvs| ==> kvs[j].0 != id;
    OrderedMap.LastValueAbsent(kvs, id, |es|);
  }

  /** `{...elements, [id]: {...elements[id], ...data}}`. */
  function Overlay(elements: OrderedMap.OMap<Element>, id: string, data: Element): (r: OrderedMap.OMap<Element>)
    ensures OrderedMap.HasKey(elements, id) ==> OrderedMap.Keys(r) == OrderedMap.Keys(elements)
    ensures forall k :: k != id ==> OrderedMap.Get(r, k) == OrderedMap.Get(elements, k)
    ensures OrderedMap.Get(r, id).Some?
    ensures var e := OrderedMap.Get(r, id).value;
      (forall f :: f in data ==> f in e && e[f] == data[f])
      && (forall f :: f !in data ==>
            (f in e <==> OrderedMap.HasKey(elements, id) && f in OrderedMap.Get(elements, id).value))
  {
    var old_ := match OrderedMap.Get(elements, id) case None => map[] case Some(el) => el;
    OrderedMap.Put(elements, id, Spread(old_, data))
  }

  /** `focused()`: null outside the AX tree; otherwise the id of the first AX element
      whose `data.Accessibility['accessibility-focused']` is truthy, or undefined. */
  function Focused(ax: bool, axElements: OrderedMap.OMap<Element>): (r: Value)
    ensures !ax ==> r == Null
    ensures ax && (forall k :: 0 <= k < |axElements| ==> !FocusFlag(axElements[k].1)) ==> r == Undefined
  {
    if !ax then Null
    else match Seqs.Find(axElements, IsFocused)
      case None => Undefined
      case Some(e) => Field(Obj(e.1), "id")
  }

  /** `i?.data?.Accessibility?.['accessibility-focused']` is truthy. */
  predicate FocusFlag(e: Element) {
    Truthy(Field(Field(Field(Obj(e), "data"), "Accessibility"), "accessibility-focused"))
  }

  predicate IsFocused(entry: (string, Element)) {
    FocusFlag(entry.1)
  }

  /** In the AX tree the focused id is that of the first flagged element. */
  lemma FocusedIsFirstFlagged(axElements: OrderedMap.OMap<Element>, k: int)
    requires 0 <= k < |axElements| && FocusFlag(axElements[k].1)
    requires forall j :: 0 <= j < k ==> !FocusFlag(axElements[j].1)
    ensures Focused(true, axElements) == Field(Obj(axElements[k].1), "id")
  {
    Seqs.FindFirst(axElements, IsFocused, k);
  }

  /** A `getNodes` request to the client. */
  datatype NodesRequest = NodesRequest(clientMethod: string, ids: seq<string>, forAccessibilityEvent: bool, selected: bool)

  /** `getNodes(ids, options)`: no client call for an empty id list. */
  function GetNodes(ax: bool, ids: seq<string>, forAccessibilityEvent: bool): (r: Option<NodesRequest>)
    ensures r.None? <==> |ids| == 0
    ensures r.Some? ==> r.value.clientMethod == Call(ax).getNodes && r.value.ids == ids && !r.value.selected
  {
    if |ids| > 0 then Some(NodesRequest(Call(ax).getNodes, ids, forAccessibilityEvent, false)) else None
  }

  /** The first step of `invalidate(ids)`: resolved with [] for no ids, otherwise a
      request for the nodes. */
  datatype InvalidateStep = ResolvedEmpty | Request(request: NodesRequest)

  function Invalidate(ax: bool, ids: seq<string>): (r: InvalidateStep)
    ensures r.ResolvedEmpty? <==> |ids| == 0
    ensures r.Request? ==> Some(r.request) == GetNodes(ax, ids, false)
  {
    if |ids| == 0 then ResolvedEmpty else Request(GetNodes(ax, ids, false).value)
  }

  /** The inspector's share of the persisted state. */
  class Inspector {
    const ax: bool
    var elements: OrderedMap.OMap<Element>
    var axElements: OrderedMap.OMap<Element>

    constructor (ax0: bool, elements0: OrderedMap.OMap<Element>, axElements0: OrderedMap.OMap<Element>)
      ensures ax == ax0 && elements == elements0 && axElements == axElements0
    {
      ax := ax0;
      elements := elements0;
      axElements := axElements0;
    }

    /** `elements()`: the map of the tree this inspector shows. */
    function Elements(): OrderedMap.OMap<Element>
      reads this
    {
      if ax then axElements else elements
    }

    /** `setPersistedState({[ax ? 'AXelements' : 'elements']: m})`. */
    method SetElements(m: OrderedMap.OMap<Element>)
      modifies this
      ensures Elements() == m
      ensures ax ==> elements == old(elements)
      ensures !ax ==> axElements == old(axElements)
    {
      if ax {
        axElements := m;
      } else {
        elements := m;
      }
    }

    /** `invalidateWithData(elements)`: no state update for an empty list; otherwise the
        incoming elements merged in, keeping the stored `expanded` flags. */
    method InvalidateWithData(es: seq<Element>)
      modifies this
      ensures |es| == 0 ==> elements == old(elements) && axElements == old(axElements)
      ensures |es| > 0 ==> Elements() == MergeWithData(old(Elements()), es).value
      ensures ax ==> elements == old(elements)
      ensures !ax ==> axElements == old(axElements)
    {
      if |es| == 0 {
        return;
      }
      var merged := MergeWithData(Elements(), es);
      SetElements(merged.value);
    }

    /** `updateElement(id, data)`. */
    method UpdateElement(id: string, data: Element)
      modifies this
      ensures Elements() == Overlay(old(Elements()), id, data)
      ensures ax ==> elements == old(elements)
      ensures !ax ==> axElements == old(axElements)
    {
      SetElements(Overlay(Elements(), id, data));
    }

    /** The state part of `getNodes`' reply: each returned element overlaid in turn. */
    method ReceiveNodes(returned: seq<Element>)
      modifies this
      ensures Elements() == OverlayAll(old(Elements()), returned)
      ensures ax ==> elements == old(elements)
      ensures !ax ==> axElements == old(axElements)
    {
      ghost var start := Elements();
      var i := 0;
      while i < |returned|
        invariant 0 <= i <= |returned|
        invariant Elements() == OverlayAll(start, returned[..i])
        invariant ax ==> elements == old(elements)
        invariant !ax ==> axElements == old(axElements)
      {
        ghost var next := Overlay(Elements(), IdOf(returned[i]), returned[i]);
        OverlayAllSnoc(start, returned, i);
        assert next == OverlayAll(start, returned[..i + 1]);
        UpdateElement(IdOf(returned[i]), returned[i]);
        i := i + 1;
      }
      assert returned[..i] == returned;
    }

    /** The state part of `onElementExpanded(id, deep)`: the element's `expanded` is
        negated. A missing element makes the handler throw. */
    method OnElementExpanded(id: string) returns (r: Result<bool, ()>)
      modifies this
      ensures r.Err? <==> !OrderedMap.HasKey(old(Elements()), id)
      ensures r.Err? ==> elements == old(elements) && axElements == old(axElements)
      ensures r.Ok? ==> r.value == !Truthy(ExpandedOf(old(Elements()), id))
      ensures r.Ok? ==> Elements() == Overlay(old(Elements()), id, map["expanded" := Bool(r.value)])
      ensures ax ==> elements == old(elements)
      ensures !ax ==> axElements == old(axElements)
    {
      if !OrderedMap.HasKey(Elements(), id) {
        return Err(());
      }
      var expanded := !Truthy(ExpandedOf(Elements(), id));
      UpdateElement(id, map["expanded" := Bool(expanded)]);
      r := Ok(expanded);
    }
  }

  /** Overlaying each element under its own id, in order. */
  function OverlayAll(elements: OrderedMap.OMap<Element>, es: seq<Element>): OrderedMap.OMap<Element>
    decreases |es|
  {
    if |es| == 0 then elements
    else Overlay(OverlayAll(elements, es[..|es| - 1]), IdOf(es[|es| - 1]), es[|es| - 1])
  }

  /** An id no returned element has keeps its element. */
  lemma {:induction false} OverlayAllOthers(elements: OrderedMap.OMap<Element>, es: seq<Element>, k: string)
    requires forall j :: 0 <= j < |es| ==> IdOf(es[j]) != k
    ensures OrderedMap.Get(OverlayAll(elements, es), k) == OrderedMap.Get(elements, k)
    decreases |es|
  {
    if |es| > 0 {
      var init := es[..|es| - 1];
      assert forall j :: 0 <= j < |init| ==> init[j] == es[j];
      OverlayAllOthers(elements, init, k);
      assert IdOf(es[|es| - 1]) != k;
    }
  }

  lemma OverlayAllSnoc(elements: OrderedMap.OMap<Element>, es: seq<Element>, i: int)
    requires 0 <= i < |es|
    ensures OverlayAll(elements, es[..i + 1]) == Overlay(OverlayAll(elements, es[..i]), IdOf(es[i]), es[i])
  {
    assert es[..i + 1][..i] == es[..i];
  }

  /** Overlaying `expanded` on a stored element sets its flag and keeps it stored. */
  lemma OverlayExpanded(elements: OrderedMap.OMap<Element>, id: string, v: Value)
    requires OrderedMap.HasKey(elements, id)
    ensures var r := Overlay(elements, id, map["expanded" := v]);
      OrderedMap.HasKey(r, id) && ExpandedOf(r, id) == v
  {
    var r := Overlay(elements, id, map["expanded" := v]);
    assert OrderedMap.Keys(r) == OrderedMap.Keys(elements);
    assert "expanded" in map["expanded" := v];
  }

  /** Expanding twice restores the flag's truth value. */
  lemma ExpandTwice(elements: OrderedMap.OMap<Element>, id: string)
    requires OrderedMap.HasKey(elements, id)
    ensures var once := Overlay(elements, id, map["expanded" := Bool(!Truthy(ExpandedOf(elements, id)))]);
      ExpandedOf(once, id) == Bool(!Truthy(ExpandedOf(elements, id)))
      && var twice := Overlay(once, id, map["expanded" := Bool(!Truthy(ExpandedOf(once, id)))]);
      Truthy(ExpandedOf(twice, id)) == Truthy(ExpandedOf(elements, id))
  {
    var v1 := Bool(!Truthy(ExpandedOf(elements, id)));
    OverlayExpanded(elements, id, v1);
    var once := Overlay(elements, id, map["expanded" := v1]);
    var v2 := Bool(!Truthy(ExpandedOf(once, id)));
    OverlayExpanded(once, id, v2);
  }
}
