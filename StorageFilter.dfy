/** The storage-place filter: chips that toggle places in and out of the selection, and a
  * "すべて" chip that clears it (an empty selection shows every place). */
module StorageFilter {
  import opened Wrappers
  import opened SeqUtil

  /** `handleToggle`: a selected place leaves the selection (every copy of it), any other place
    * joins it at the end. */
  function Toggle(selected: seq<string>, location: string): (r: seq<string>)
    ensures location in selected ==> r == Remove(selected, location)
    ensures location !in selected ==> r == selected + [location]
    ensures location in r <==> location !in selected
    ensures forall x :: x != location ==> (x in r <==> x in selected)
    ensures Distinct(selected) ==> Distinct(r)
  {
    if location in selected then
      DistinctRemoveIf(selected, location);
      Remove(selected, location)
    else selected + [location]
  }

  /** Toggling a place that was not selected twice gives the selection back. */
  lemma ToggleTwice(selected: seq<string>, location: string)
    requires location !in selected
    ensures Toggle(Toggle(selected, location), location) == selected
  {
    RemoveAppendedAbsent(selected, location);
  }

  /** `handleSelectAll`: the empty selection. */
  const SelectAll: seq<string> := []

  /** A chip of the filter: its text and whether it is lit. */
  datatype Chip = Chip(text: string, active: bool)

  const AllLabel := "すべて"

  function PlaceChips(locations: seq<string>, selected: seq<string>): (r: seq<Chip>)
    ensures |r| == |locations|
    ensures forall i :: 0 <= i < |locations| ==> r[i] == Chip(locations[i], locations[i] in selected)
  {
    if locations == [] then [] else [Chip(locations[0], locations[0] in selected)] + PlaceChips(locations[1..], selected)
  }

  /** What the filter shows: nothing without places; otherwise the "すべて" chip, lit when the
    * selection is empty, then one chip per place, lit when it is selected. */
  function Render(locations: seq<string>, selected: seq<string>): (r: Option<seq<Chip>>)
    ensures r.None? <==> locations == []
    ensures r.Some? ==> |r.value| == |locations| + 1 && r.value[0] == Chip(AllLabel, selected == [])
    ensures r.Some? ==> forall i :: 0 <= i < |locations| ==>
      r.value[i + 1] == Chip(locations[i], locations[i] in selected)
  {
    if locations == [] then None else Some([Chip(AllLabel, selected == [])] + PlaceChips(locations, selected))
  }

  /** After "すべて" only that chip is lit. */
  lemma SelectAllLightsOnlyAll(locations: seq<string>)
    requires locations != []
    ensures var chips := Render(locations, SelectAll).value;
      chips[0].active && forall i :: 1 <= i < |chips| ==> !chips[i].active
  {
    var chips := Render(locations, SelectAll).value;
    forall i | 1 <= i < |chips| ensures !chips[i].active {
      assert chips[(i - 1) + 1] == Chip(locations[i - 1], locations[i - 1] in SelectAll);
    }
  }

  /** Toggling a place flips its own chip and no other place's. */
  lemma ToggleFlipsOneChip(locations: seq<string>, selected: seq<string>, location: string, i: int)
    requires 0 <= i < |locations|
    ensures var before := Render(locations, selected).value;
      var after := Render(locations, Toggle(selected, location)).value;
      (locations[i] == location ==> after[i + 1].active == !before[i + 1].active)
      && (locations[i] != location ==> after[i + 1].active == before[i + 1].active)
  {
  }
}
