/** The county map component (`components/Map.new.tsx`): the fill colour of each
    county, and the tooltip and hovered-county state driven by the mouse. Pointer
    coordinates are modelled as integers. */
module CountyMap {
  import opened Wrappers
  import Seqs

  /** One element of the component's `users` prop. */
  datatype User = User(id: string, name: string, score: int, counties: seq<string>, color: Option<string>)

  /** The tooltip state cell. */
  datatype Tooltip = Tooltip(visible: bool, x: int, y: int, name: string)

  const DefaultColor: string := "#6f9c76"
  const HoverColor: string := "#4a6b51"

  /** `countyOwners[countyId]` is truthy: the county has an owner id that is not
      the empty string. */
  predicate Owned(countyOwners: map<string, string>, countyId: string)
  {
    countyId in countyOwners && countyOwners[countyId] != ""
  }

  /** Lines 74-93: the fill of a county. The active county is drawn in the hover
      colour even when it is owned; another owned county in the colour of the FIRST
      user whose id is its owner, falling back to the default colour when there is
      no such user or that user has no (or an empty) colour; an unowned county in
      the default colour. */
  function CountyFill(activeCounty: Option<string>, countyOwners: map<string, string>,
                      users: seq<User>, countyId: string): (fill: string)
    ensures activeCounty == Some(countyId) ==> fill == HoverColor
    ensures activeCounty != Some(countyId) && !Owned(countyOwners, countyId) ==> fill == DefaultColor
    ensures activeCounty != Some(countyId) && Owned(countyOwners, countyId) ==>
              forall k :: 0 <= k < |users| && users[k].id == countyOwners[countyId]
                          && (forall j :: 0 <= j < k ==> users[j].id != countyOwners[countyId]) ==>
                          fill == (if users[k].color.Some? && users[k].color.value != "" then users[k].color.value
                                   else DefaultColor)
    ensures activeCounty != Some(countyId) && Owned(countyOwners, countyId)
            && (forall k :: 0 <= k < |users| ==> users[k].id != countyOwners[countyId]) ==>
              fill == DefaultColor
  {
    if activeCounty == Some(countyId) then HoverColor
    else if Owned(countyOwners, countyId) then
      var ownerId := countyOwners[countyId];
      match Seqs.FirstMatch(users, (u: User) => u.id == ownerId)
      case Some(k) => if users[k].color.Some? && users[k].color.value != "" then users[k].color.value else DefaultColor
      case None => DefaultColor
    else DefaultColor
  }

  /** Every fill is the hover colour, the default colour, or the colour of one of the
      users. */
  lemma FillIsKnownColor(activeCounty: Option<string>, countyOwners: map<string, string>,
                         users: seq<User>, countyId: string)
    ensures var fill := CountyFill(activeCounty, countyOwners, users, countyId);
            fill == HoverColor || fill == DefaultColor || exists k :: 0 <= k < |users| && users[k].color == Some(fill)
  {
    if activeCounty != Some(countyId) && Owned(countyOwners, countyId) {
      var ownerId := countyOwners[countyId];
      match Seqs.FirstMatch(users, (u: User) => u.id == ownerId)
      case Some(k) =>
      case None =>
    }
  }

  /** The component's state cells. */
  class MapView {
    var tooltip: Tooltip
    var activeCounty: Option<string>

    /** Lines 40-46: a hidden, empty tooltip at the origin and no active county. */
    constructor ()
      ensures tooltip == Tooltip(false, 0, 0, "") && activeCounty == None
    {
      tooltip := Tooltip(false, 0, 0, "");
      activeCounty := None;
    }

    /** Lines 48-60: show the tooltip with the county name at the pointer, and make
        the hovered element the active county when it has a non-empty id. */
    method HandleMouseOver(clientX: int, clientY: int, name: string, targetId: string)
      modifies this
      ensures tooltip == Tooltip(true, clientX, clientY, name)
      ensures activeCounty == if targetId != "" then Some(targetId) else old(activeCounty)
    {
      tooltip := Tooltip(true, clientX, clientY, name);
      if targetId != "" {
        activeCounty := Some(targetId);
      }
    }

    /** Lines 62-65: hide the tooltip, keeping its position and name, and clear the
        active county. */
    method HandleMouseOut()
      modifies this
      ensures tooltip == old(tooltip).(visible := false)
      ensures activeCounty == None
    {
      tooltip := tooltip.(visible := false);
      activeCounty := None;
    }

    /** Lines 67-72: a click makes the county active and asks for the next question,
        but only when the `onNextQuestion` callback is present; `requested` says
        whether it was called. */
    method HandleCountyClick(countyId: string, countyName: string, hasOnNextQuestion: bool)
        returns (requested: bool)
      modifies this
      ensures requested == hasOnNextQuestion
      ensures activeCounty == if hasOnNextQuestion then Some(countyId) else old(activeCounty)
      ensures tooltip == old(tooltip)
    {
      requested := false;
      if hasOnNextQuestion {
        activeCounty := Some(countyId);
        requested := true;
      }
    }
  }
}
