/**
 * The single-selection toggle shared by the case-study cards, the workflow
 * panels and the diagram nodes: `setX(x === id ? <none> : id)`.
 */
module Selection {
  import opened Wrappers

  /** Clicking `id`: deselect it when it is the selection, otherwise select it instead. */
  function Toggle(current: Option<string>, id: string): (next: Option<string>)
    ensures next.Some? <==> current != Some(id)
    ensures next.Some? ==> next.value == id
  {
    if current == Some(id) then None else Some(id)
  }

  /** Clicking the same id twice: back to nothing from "nothing" or from "that id"; else nothing. */
  lemma ToggleTwice(current: Option<string>, id: string)
    ensures Toggle(Toggle(current, id), id) == if current == Some(id) then current else None
  {
  }

  /** Per item, whether it is the selected one (`selected === item.id`). */
  function SelectedFlags(ids: seq<string>, selected: Option<string>): (flags: seq<bool>)
    ensures |flags| == |ids|
  {
    seq(|ids|, i requires 0 <= i < |ids| => selected == Some(ids[i]))
  }

  predicate Distinct(ids: seq<string>)
  {
    forall i, j :: 0 <= i < j < |ids| ==> ids[i] != ids[j]
  }

  /** The number of true flags. */
  function CountTrue(flags: seq<bool>): nat
  {
    if flags == [] then 0 else (if flags[0] then 1 else 0) + CountTrue(flags[1..])
  }

  /** With distinct ids, exactly one item is selected when the selection names an item, else none. */
  lemma {:induction false} SelectedCount(ids: seq<string>, selected: Option<string>)
    requires Distinct(ids)
    ensures CountTrue(SelectedFlags(ids, selected)) == if selected.Some? && selected.value in ids then 1 else 0
  {
    if ids != [] {
      assert SelectedFlags(ids, selected)[1..] == SelectedFlags(ids[1..], selected);
      SelectedCount(ids[1..], selected);
      if selected == Some(ids[0]) {
        assert selected.value !in ids[1..];
      }
    }
  }

  /** Consequently at most one item is selected. */
  lemma AtMostOneSelected(ids: seq<string>, selected: Option<string>)
    requires Distinct(ids)
    ensures CountTrue(SelectedFlags(ids, selected)) <= 1
  {
    SelectedCount(ids, selected);
  }
}
