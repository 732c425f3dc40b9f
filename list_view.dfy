/** The checkbox list (src/chrome/ListView.tsx): a single- or multiple-selection list
    whose selection is a JavaScript `Set`, kept here as its elements in insertion order. */
module ListView {
  import opened Wrappers
  import Seqs

  /** The selection mode and the selection the parent passes in. */
  datatype SubType = Multiple(selectedElements: seq<string>) | Single(selectedElement: string)

  /** `new Set([...s, id])`: `id` added at the end unless present. */
  function SetAdd(s: seq<string>, id: string): (r: seq<string>)
    ensures forall x :: x in r <==> x in s || x == id
    ensures Seqs.NoDup(s) ==> Seqs.NoDup(r)
    ensures |r| >= |s| && r[..|s|] == s
  {
    if id in s then s else s + [id]
  }

  /** `getDerivedStateFromProps`: no change (`None`) while something is selected; an
      empty selection is replaced by the parent's selection. */
  function GetDerivedStateFromProps(props: SubType, selected: seq<string>): (r: Option<seq<string>>)
    ensures |selected| > 0 <==> r.None?
    ensures r.Some? && props.Single? ==> r.value == [props.selectedElement]
    ensures r.Some? && props.Multiple? ==> r.value == props.selectedElements
  {
    if |selected| > 0 then None
    else match props
      case Multiple(elements) => Some(elements)
      case Single(element) => Some([element])
  }

  /** The selection `handleChange(id, selected)` builds. */
  function NextSelection(props: SubType, current: seq<string>, id: string, selected: bool): (r: seq<string>)
    ensures props.Single? && selected ==> r == [id]
    ensures props.Single? && !selected ==> r == []
    ensures props.Multiple? ==> forall x :: x in r <==> (if x == id then selected else x in current)
    ensures props.Multiple? && Seqs.NoDup(current) ==> Seqs.NoDup(r)
  {
    if props.Single? then (if selected then [id] else [])
    else if selected then SetAdd(current, id)
    else Seqs.Without(current, id)
  }

  /** The list's selection and the calls it has made to `onSelect`. */
  class ListView {
    const props: SubType
    const showNavButtons: bool
    var selectedElements: seq<string>
    var onSelectCalls: seq<seq<string>>

    /** The state initialiser: an empty `Set`. */
    constructor (props0: SubType, showNavButtons0: bool)
      ensures props == props0 && showNavButtons == showNavButtons0
      ensures selectedElements == [] && onSelectCalls == []
    {
      props := props0;
      showNavButtons := showNavButtons0;
      selectedElements := [];
      onSelectCalls := [];
    }

    /** React applies `getDerivedStateFromProps` before each render. */
    method DeriveState()
      modifies this`selectedElements
      ensures selectedElements == match GetDerivedStateFromProps(props, old(selectedElements))
        case None => old(selectedElements)
        case Some(s) => s
    {
      var derived := GetDerivedStateFromProps(props, selectedElements);
      if derived.Some? {
        selectedElements := derived.value;
      }
    }

    /** `handleChange(id, selected)`: the new selection, passed at once to `onSelect`
        when there are no navigation buttons. */
    method HandleChange(id: string, selected: bool)
      modifies this`selectedElements, this`onSelectCalls
      ensures selectedElements == NextSelection(props, old(selectedElements), id, selected)
      ensures onSelectCalls == old(onSelectCalls) + if showNavButtons then [] else [selectedElements]
    {
      var next: seq<string> := [];
      if props.Single? {
        if selected {
          next := [id];
        }
      } else if selected {
        next := SetAdd(selectedElements, id);
      } else {
        next := Seqs.Without(selectedElements, id);
      }
      selectedElements := next;
      if !showNavButtons {
        onSelectCalls := onSelectCalls + [next];
      }
    }

    /** The Submit button: the current selection to `onSelect`. */
    method Submit()
      modifies this`onSelectCalls
      ensures onSelectCalls == old(onSelectCalls) + [selectedElements]
    {
      onSelectCalls := onSelectCalls + [selectedElements];
    }
  }

  /** In multiple mode, selecting an id and then deselecting it leaves the other
      elements selected and drops the id. */
  lemma SelectThenDeselect(elements: seq<string>, current: seq<string>, id: string)
    ensures var props := Multiple(elements);
      var after := NextSelection(props, NextSelection(props, current, id, true), id, false);
      forall x :: x in after <==> x in current && x != id
  {
  }

  /** In single mode, deselecting empties the selection, so the derivation that runs
      before the next render puts the parent's element back. */
  lemma SingleDeselectIsRefilled(element: string, current: seq<string>, id: string)
    ensures var next := NextSelection(Single(element), current, id, false);
      GetDerivedStateFromProps(Single(element), next) == Some([element])
  {
  }
}
