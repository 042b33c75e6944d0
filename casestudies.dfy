/** The case-studies list: one expandable card at a time. */
module CaseStudies {
  import opened Wrappers
  import Selection

  /** The component's one state cell, `expandedId`, and its toggle handler. */
  class CaseStudiesSection {
    var expandedId: Option<string>

    /** Initially no card is expanded. */
    constructor ()
      ensures expandedId == None
    {
      expandedId := None;
    }

    /** `handleToggle(id)`: collapse the expanded card, or expand this one in place of any other. */
    method HandleToggle(id: string)
      modifies this
      ensures expandedId == Selection.Toggle(old(expandedId), id)
      ensures old(expandedId) == Some(id) ==> expandedId == None
      ensures old(expandedId) != Some(id) ==> expandedId == Some(id)
    {
      if expandedId == Some(id) {
        expandedId := None;
      } else {
        expandedId := Some(id);
      }
    }

    /** `isExpanded` for each card, in list order. */
    function ExpandedCards(cardIds: seq<string>): (flags: seq<bool>)
      reads this
      ensures |flags| == |cardIds|
      ensures forall i :: 0 <= i < |cardIds| ==> (flags[i] <==> expandedId == Some(cardIds[i]))
      ensures Selection.Distinct(cardIds) ==> Selection.CountTrue(flags) <= 1
    {
      var flags := Selection.SelectedFlags(cardIds, expandedId);
      if Selection.Distinct(cardIds) then
        Selection.AtMostOneSelected(cardIds, expandedId);
        flags
      else flags
    }
  }

  /** From the initial state, toggling a card twice leaves every card collapsed. */
  method ToggleTwiceFromInitial(id: string) returns (after: Option<string>)
    ensures after == None
  {
    var section := new CaseStudiesSection();
    section.HandleToggle(id);
    assert section.expandedId == Some(id);
    section.HandleToggle(id);
    after := section.expandedId;
  }
}
