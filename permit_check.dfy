/**
 * The permit-check page: where the skip is to be placed, whether the road
 * warning shows, and whether "Continue" is enabled. The skip selected on the
 * previous page arrives as an optional value (absent when none was stored).
 */
module PermitCheck {

  import opened Wrappers
  import opened Schema

  datatype Placement = Private | Public

  /** `selectedSkip?.allowed_on_road`: absent when no skip is loaded. */
  function CanPlaceOnRoad(skip: Option<Skip>): Option<bool>
  {
    match skip
    case None => None
    case Some(s) => Some(s.allowedOnRoad)
  }

  /**
   * `selectedPlacement === 'public' && !canPlaceOnRoad`. Negating an absent
   * value gives true, so a public placement with no skip loaded warns.
   */
  function ShowRoadWarning(placement: Option<Placement>, skip: Option<Skip>): (w: bool)
    ensures w <==> placement == Some(Public) && (skip.None? || !skip.value.allowedOnRoad)
  {
    placement == Some(Public) && CanPlaceOnRoad(skip) != Some(true)
  }

  /** The Continue button is enabled unless `!selectedPlacement || showRoadWarning`. */
  function ContinueEnabled(placement: Option<Placement>, skip: Option<Skip>): (e: bool)
    ensures e <==> placement == Some(Private) ||
                   (placement == Some(Public) && skip.Some? && skip.value.allowedOnRoad)
  {
    assert placement.Some? ==> placement.value.Private? || placement.value.Public?;
    !(placement.None? || ShowRoadWarning(placement, skip))
  }

  /** A private placement never warns. */
  lemma PrivateNeverWarns(skip: Option<Skip>)
    ensures !ShowRoadWarning(Some(Private), skip)
    ensures ContinueEnabled(Some(Private), skip)
  {
  }

  /** With no placement chosen nothing warns and Continue is disabled. */
  lemma NoPlacementDisabled(skip: Option<Skip>)
    ensures !ShowRoadWarning(None, skip) && !ContinueEnabled(None, skip)
  {
  }

  class PermitCheckPage {
    var selectedPlacement: Option<Placement>
    var selectedSkip: Option<Skip>

    /** The page opens with no placement and the skip restored from the previous stage. */
    constructor (restored: Option<Skip>)
      ensures selectedPlacement == None && selectedSkip == restored
    {
      selectedPlacement := None;
      selectedSkip := restored;
    }

    /** `handlePlacementSelect`: the last choice wins. */
    method SelectPlacement(p: Placement)
      modifies this
      ensures selectedPlacement == Some(p) && selectedSkip == old(selectedSkip)
    {
      selectedPlacement := Some(p);
    }

    function RoadWarning(): bool
      reads this
    {
      ShowRoadWarning(selectedPlacement, selectedSkip)
    }

    function CanContinue(): bool
      reads this
    {
      ContinueEnabled(selectedPlacement, selectedSkip)
    }

    /**
     * `handleContinue`: records the placement only when both a placement and
     * a skip are present; otherwise does nothing. The road warning is not
     * consulted here (the disabled button is what keeps it from being reached).
     */
    method Continue() returns (recorded: Option<Placement>)
      ensures recorded.Some? <==> selectedPlacement.Some? && selectedSkip.Some?
      ensures recorded.Some? ==> recorded == selectedPlacement
    {
      if selectedPlacement.Some? && selectedSkip.Some? {
        recorded := selectedPlacement;
      } else {
        recorded := None;
      }
    }
  }

  /**
   * Continue may be enabled while no skip is loaded (a private placement),
   * and then pressing it records nothing.
   */
  method EnabledWithoutSkip() returns (enabled: bool, recorded: Option<Placement>)
    ensures enabled && recorded == None
  {
    var page := new PermitCheckPage(None);
    page.SelectPlacement(Private);
    enabled := page.CanContinue();
    recorded := page.Continue();
  }
}
