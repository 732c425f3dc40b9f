/** The sections plugin's tree view (src/plugins/sections/Tree.js). Its data is either a
    flat list of components, each naming its parent by identifier, or a nested hierarchy.
    The flat list becomes one node object per entry, whose `children` are filled in place
    from a parent map; the hierarchy is mapped recursively. */
module SectionsTree {
  import opened Wrappers
  import Seqs

  /** A `parent` field: an identifier string, or the number 0 for "no parent". */
  datatype Parent = ParentId(id: string) | NoParent

  /** JavaScript truthiness of a parent: 0 and the empty string are falsy. */
  predicate ParentTruthy(p: Parent) {
    p.ParentId? && p.id != ""
  }

  datatype Entry = Entry(identifier: string, name: string, parent: Parent,
                         didTriggerStateUpdate: bool, isReused: bool, isDirty: bool)

  datatype Fill = BlueGreyTint70 | Lemon | Teal | Grape

  /** The node colour: a state update wins over reuse, reuse over dirtiness. */
  function FillOf(n: Entry): (r: Fill)
    ensures r == Lemon <==> n.didTriggerStateUpdate
    ensures r == Teal <==> !n.didTriggerStateUpdate && n.isReused
    ensures r == Grape <==> !n.didTriggerStateUpdate && !n.isReused && n.isDirty
    ensures r == BlueGreyTint70 <==> !n.didTriggerStateUpdate && !n.isReused && !n.isDirty
  {
    if n.didTriggerStateUpdate then Lemon
    else if n.isReused then Teal
    else if n.isDirty then Grape
    else BlueGreyTint70
  }

  /** A node of the flat-list tree; only its `children` change after it is made. */
  class TreeNode {
    const name: string
    const attributes: Entry
    const fill: Fill
    var children: seq<TreeNode>

    constructor (n: Entry)
      ensures name == n.name && attributes == n && fill == FillOf(n) && children == []
    {
      name := n.name;
      attributes := n;
      fill := FillOf(n);
      children := [];
    }
  }

  /** The positions of the entries whose parent is the string `id`, in input order. */
  function ChildIndices(data: seq<Entry>, id: string): (r: seq<nat>)
    ensures forall k :: 0 <= k < |r| ==> r[k] < |data| && data[r[k]].parent == ParentId(id)
    ensures forall j :: 0 <= j < |data| && data[j].parent == ParentId(id) ==> j in r
    ensures forall k, l :: 0 <= k < l < |r| ==> r[k] < r[l]
  {
    if |data| == 0 then []
    else
      var init := ChildIndices(data[..|data| - 1], id);
      if data[|data| - 1].parent == ParentId(id) then init + [|data| - 1] else init
  }

  /** Every entry has at most one parent: it is listed under exactly the identifier its
      parent names, and an entry whose parent is not a string is listed nowhere. */
  lemma ListedUnderItsParentOnly(data: seq<Entry>, j: nat, id: string)
    requires j < |data|
    ensures j in ChildIndices(data, id) <==> data[j].parent == ParentId(id)
    ensures data[j].parent.NoParent? ==> j !in ChildIndices(data, id)
  {
    var r := ChildIndices(data, id);
    if j in r {
      var k :| 0 <= k < |r| && r[k] == j;
    }
  }

  /** The nodes at the given positions. */
  function Select(nodes: seq<TreeNode>, ix: seq<nat>): (r: seq<TreeNode>)
    requires forall k :: 0 <= k < |ix| ==> ix[k] < |nodes|
    ensures |r| == |ix| && forall k :: 0 <= k < |ix| ==> r[k] == nodes[ix[k]]
  {
    seq(|ix|, k requires 0 <= k < |ix| => nodes[ix[k]])
  }

  /** What `children` of the node for `n` ends up as: the nodes naming it as parent. */
  function ChildrenOf(nodes: seq<TreeNode>, data: seq<Entry>, id: string): seq<TreeNode>
    requires |nodes| == |data|
  {
    Select(nodes, ChildIndices(data, id))
  }

  /** The position of the first entry with a falsy parent, if any. */
  function FirstRoot(data: seq<Entry>): (r: Option<nat>)
    ensures r.Some? ==> (r.value < |data| && !ParentTruthy(data[r.value].parent)
      && forall j :: 0 <= j < r.value ==> ParentTruthy(data[j].parent))
    ensures r.None? ==> forall j :: 0 <= j < |data| ==> ParentTruthy(data[j].parent)
  {
    if |data| == 0 then None
    else if !ParentTruthy(data[0].parent) then Some(0)
    else match FirstRoot(data[1..])
      case None => None
      case Some(k) => Some(k + 1)
  }

  /** Nodes whose attributes are the entries, position by position. */
  predicate Mirrors(nodes: seq<TreeNode>, data: seq<Entry>) {
    |nodes| == |data| && forall k :: 0 <= k < |data| ==> nodes[k].attributes == data[k]
  }

  /** The `map` step: one fresh node per entry, with no children yet. */
  method MakeNodes(data: seq<Entry>) returns (nodes: seq<TreeNode>)
    ensures Mirrors(nodes, data)
    ensures forall k :: 0 <= k < |data| ==> nodes[k].name == data[k].name && nodes[k].fill == FillOf(data[k])
    ensures forall n :: n in nodes ==> fresh(n)
  {
    nodes := [];
    var i := 0;
    while i < |data|
      invariant 0 <= i <= |data|
      invariant Mirrors(nodes, data[..i])
      invariant forall k :: 0 <= k < i ==> nodes[k].name == data[k].name && nodes[k].fill == FillOf(data[k])
      invariant forall n :: n in nodes ==> fresh(n)
    {
      var n := new TreeNode(data[i]);
      nodes := nodes + [n];
      i := i + 1;
    }
  }

  /** One more entry extends the child list of its parent only. */
  lemma ChildIndicesSnoc(data: seq<Entry>, i: nat, p: string)
    requires i < |data|
    ensures ChildIndices(data[..i + 1], p)
         == ChildIndices(data[..i], p) + (if data[i].parent == ParentId(p) then [i] else [])
  {
    assert data[..i + 1][..i] == data[..i];
  }

  lemma SelectSnoc(nodes: seq<TreeNode>, ix: seq<nat>, i: nat)
    requires i < |nodes| && forall k :: 0 <= k < |ix| ==> ix[k] < |nodes|
    ensures Select(nodes, ix + [i]) == Select(nodes, ix) + [nodes[i]]
  {
  }

  /** The parent map after the first `i` entries: each string parent seen so far mapped
      to the nodes naming it, in order. */
  ghost predicate ParentMapUpTo(nodes: seq<TreeNode>, data: seq<Entry>, m: map<string, seq<TreeNode>>, i: nat)
    requires Mirrors(nodes, data) && i <= |data|
  {
    (forall p :: p in m ==> m[p] == Select(nodes, ChildIndices(data[..i], p)) && m[p] != [])
    && (forall p :: p !in m ==> ChildIndices(data[..i], p) == [])
  }

  /** One `reduce` step: the node appended under its parent, if that is a string. */
  function AddChild(m: map<string, seq<TreeNode>>, parent: Parent, n: TreeNode): map<string, seq<TreeNode>> {
    if !parent.ParentId? then m
    else if parent.id in m then m[parent.id := m[parent.id] + [n]]
    else m[parent.id := [n]]
  }

  lemma ParentMapStep(nodes: seq<TreeNode>, data: seq<Entry>, m: map<string, seq<TreeNode>>, i: nat)
    requires Mirrors(nodes, data) && i < |data|
    requires ParentMapUpTo(nodes, data, m, i)
    ensures ParentMapUpTo(nodes, data, AddChild(m, data[i].parent, nodes[i]), i + 1)
  {
    var m' := AddChild(m, data[i].parent, nodes[i]);
    forall p | p in m' ensures m'[p] == Select(nodes, ChildIndices(data[..i + 1], p)) && m'[p] != [] {
      ChildIndicesSnoc(data, i, p);
      if data[i].parent == ParentId(p) {
        SelectSnoc(nodes, ChildIndices(data[..i], p), i);
      }
    }
    forall p | p !in m' ensures ChildIndices(data[..i + 1], p) == [] {
      ChildIndicesSnoc(data, i, p);
    }
  }

  /** The `reduce` step: each string parent mapped to its children's nodes, in order. */
  method ParentMap(nodes: seq<TreeNode>, data: seq<Entry>) returns (m: map<string, seq<TreeNode>>)
    requires Mirrors(nodes, data)
    ensures forall p :: p in m ==> m[p] == ChildrenOf(nodes, data, p) && m[p] != []
    ensures forall p :: p !in m ==> ChildIndices(data, p) == []
  {
    m := map[];
    var i := 0;
    while i < |nodes|
      invariant 0 <= i <= |nodes|
      invariant ParentMapUpTo(nodes, data, m, i)
    {
      ParentMapStep(nodes, data, m, i);
      var parent := nodes[i].attributes.parent;
      if parent.ParentId? {
        if parent.id in m {
          m := m[parent.id := m[parent.id] + [nodes[i]]];
        } else {
          m := m[parent.id := [nodes[i]]];
        }
      }
      i := i + 1;
    }
    assert data[..i] == data;
  }

  /** The `forEach` step: every node's children taken from the parent map, or none. */
  method LinkChildren(nodes: seq<TreeNode>, data: seq<Entry>, m: map<string, seq<TreeNode>>)
    requires Mirrors(nodes, data)
    requires forall p :: p in m ==> m[p] == ChildrenOf(nodes, data, p)
    requires forall p :: p !in m ==> ChildIndices(data, p) == []
    modifies set n | n in nodes
    ensures forall k :: 0 <= k < |nodes| ==> nodes[k].children == ChildrenOf(nodes, data, data[k].identifier)
  {
    var i := 0;
    while i < |nodes|
      invariant 0 <= i <= |nodes|
      invariant forall k :: 0 <= k < i ==> nodes[k].children == ChildrenOf(nodes, data, data[k].identifier)
    {
      var id := nodes[i].attributes.identifier;
      var children := if id in m then m[id] else [];
      assert children == ChildrenOf(nodes, data, data[i].identifier);
      // A node listed twice carries the same entry, so it gets the same children.
      assert forall k :: 0 <= k < i && nodes[k] == nodes[i] ==> data[k].identifier == id;
      nodes[i].children := children;
      i := i + 1;
    }
  }

  /** `treeFromFlatArray`: the nodes, one per entry, each with the nodes naming it as
      parent for children, and the root, the node of the first entry whose parent is
      falsy (none when every parent is truthy). */
  method TreeFromFlatArray(data: seq<Entry>) returns (nodes: seq<TreeNode>, root: Option<TreeNode>)
    ensures Mirrors(nodes, data)
    ensures forall k :: 0 <= k < |data| ==> nodes[k].name == data[k].name && nodes[k].fill == FillOf(data[k])
    ensures forall k :: 0 <= k < |data| ==> nodes[k].children == ChildrenOf(nodes, data, data[k].identifier)
    ensures root == match FirstRoot(data) case None => None case Some(k) => Some(nodes[k])
  {
    nodes := MakeNodes(data);
    if |data| > 0 {
      var m := ParentMap(nodes, data);
      LinkChildren(nodes, data, m);
    }
    root := Seqs.Find(nodes, IsRoot);
    FindIsFirstRoot(nodes, data);
  }

  /** A node whose entry has a falsy parent. */
  predicate IsRoot(n: TreeNode) {
    !ParentTruthy(n.attributes.parent)
  }

  /** The `find` for a root picks the node of the first entry with a falsy parent. */
  lemma FindIsFirstRoot(nodes: seq<TreeNode>, data: seq<Entry>)
    requires Mirrors(nodes, data)
    ensures Seqs.Find(nodes, IsRoot) == match FirstRoot(data) case None => None case Some(k) => Some(nodes[k])
  {
    var root := Seqs.Find(nodes, IsRoot);
    var f := FirstRoot(data);
    if f.Some? {
      assert IsRoot(nodes[f.value]);
    }
    if root.Some? {
      var k :| 0 <= k < |nodes| && nodes[k] == root.value && IsRoot(nodes[k])
        && forall j :: 0 <= j < k ==> !IsRoot(nodes[j]);
      assert f.Some? && f.value == k;
    }
  }

  /** A component of the nested hierarchy. An absent `children` and an empty one build
      the same node, so both are the empty sequence here. */
  datatype Hierarchy = Hierarchy(kind: string, children: seq<Hierarchy>)

  /** A node of the hierarchy tree. */
  datatype HierarchyNode = HierarchyNode(name: string, children: seq<HierarchyNode>)

  /** `treeFromHierarchy`: the component's type as the name, children mapped in order. */
  function TreeFromHierarchy(h: Hierarchy): (r: HierarchyNode)
    ensures r.name == h.kind && |r.children| == |h.children|
    decreases h
  {
    HierarchyNode(h.kind, ChildTrees(h, h.children))
  }

  function ChildTrees(h: Hierarchy, cs: seq<Hierarchy>): (r: seq<HierarchyNode>)
    requires forall k :: 0 <= k < |cs| ==> cs[k] in h.children
    ensures |r| == |cs|
    decreases h, |cs|
  {
    if |cs| == 0 then [] else [TreeFromHierarchy(cs[0])] + ChildTrees(h, cs[1..])
  }

  /** Component types in pre-order. */
  function Kinds(h: Hierarchy): seq<string>
    decreases h
  {
    [h.kind] + KindsOf(h, h.children)
  }

  function KindsOf(h: Hierarchy, cs: seq<Hierarchy>): seq<string>
    requires forall k :: 0 <= k < |cs| ==> cs[k] in h.children
    decreases h, |cs|
  {
    if |cs| == 0 then [] else Kinds(cs[0]) + KindsOf(h, cs[1..])
  }

  /** Node names in pre-order. */
  function Names(n: HierarchyNode): seq<string>
    decreases n
  {
    [n.name] + NamesOf(n, n.children)
  }

  function NamesOf(n: HierarchyNode, ns: seq<HierarchyNode>): seq<string>
    requires forall k :: 0 <= k < |ns| ==> ns[k] in n.children
    decreases n, |ns|
  {
    if |ns| == 0 then [] else Names(ns[0]) + NamesOf(n, ns[1..])
  }

  /** The tree lists the component types in the same pre-order as the hierarchy: no
      component is lost, added or moved. */
  lemma {:induction false} HierarchyNamesPreserved(h: Hierarchy)
    ensures Names(TreeFromHierarchy(h)) == Kinds(h)
    decreases h, 1
  {
    var t := TreeFromHierarchy(h);
    HierarchyChildrenPreserved(h, h.children, t);
  }

  lemma {:induction false} HierarchyChildrenPreserved(h: Hierarchy, cs: seq<Hierarchy>, t: HierarchyNode)
    requires forall k :: 0 <= k < |cs| ==> cs[k] in h.children
    requires t == TreeFromHierarchy(h)
    requires forall k :: 0 <= k < |ChildTrees(h, cs)| ==> ChildTrees(h, cs)[k] in t.children
    ensures NamesOf(t, ChildTrees(h, cs)) == KindsOf(h, cs)
    decreases h, 0, |cs|
  {
    if |cs| > 0 {
      var ts := ChildTrees(h, cs);
      HierarchyNamesPreserved(cs[0]);
      assert ts[1..] == ChildTrees(h, cs[1..]);
      HierarchyChildrenPreserved(h, cs[1..], t);
    }
  }

  /** The plugin's data: a flat list or a hierarchy, with its object identity. */
  datatype Data = Flat(entries: seq<Entry>) | Nested(hierarchy: Hierarchy)
  datatype Props = Props(dataRef: nat, data: Data)

  datatype TreeState = FlatTree(root: Option<TreeNode>) | NestedTree(tree: HierarchyNode)

  /** The tree view's props and the tree in its state. */
  class TreeView {
    var props: Props
    var tree: TreeState

    /** The state initialiser: the tree built from the first props. */
    constructor (props0: Props)
      ensures props == props0
      ensures Builds(props0.data, tree)
    {
      props := props0;
      var t := BuildTree(props0.data);
      tree := t;
    }

    /** `componentWillReceiveProps`: the tree is rebuilt only when the `data` reference
        changes; React then installs the new props. */
    method ComponentWillReceiveProps(next: Props)
      modifies this
      ensures props == next
      ensures old(props).dataRef == next.dataRef ==> tree == old(tree)
      ensures old(props).dataRef != next.dataRef ==> Builds(next.data, tree)
    {
      if props.dataRef != next.dataRef {
        var t := BuildTree(next.data);
        tree := t;
      }
      props := next;
    }
  }

  /** `tree` is what the data builds: a flat list gives the node of its first falsy
      parent entry, a hierarchy its mapped tree. */
  predicate Builds(data: Data, tree: TreeState) {
    match data
      case Flat(entries) =>
        tree.FlatTree? && tree.root.Some? == FirstRoot(entries).Some?
        && (tree.root.Some? ==> tree.root.value.attributes == entries[FirstRoot(entries).value])
      case Nested(h) => tree == NestedTree(TreeFromHierarchy(h))
  }

  /** `Array.isArray(data) ? treeFromFlatArray(data) : treeFromHierarchy(data)`. */
  method BuildTree(data: Data) returns (tree: TreeState)
    ensures Builds(data, tree)
  {
    match data
      case Flat(entries) =>
        var nodes, root := TreeFromFlatArray(entries);
        tree := FlatTree(root);
      case Nested(h) =>
        tree := NestedTree(TreeFromHierarchy(h));
  }
}
