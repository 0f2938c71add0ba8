/** The organisation part of the master-data page: drilling down the organisation tree with a
  * breadcrumb trail, the layers that can be added at the current level, and saving a unit. */
module MasterManagement {
  import opened Wrappers
  import opened SeqUtil
  import opened Strings
  import opened StockTypes
  import opened MasterStore

  // ---------------------------------------------------------------- navigation

  datatype Crumb = Crumb(id: string, name: string)

  /** Where the page is in the tree: the unit whose children are listed (none at the root), and
    * the trail of units drilled into. */
  datatype NavState = NavState(currentParentId: Option<string>, breadcrumbs: seq<Crumb>) {
    /** At the root exactly when the trail is empty; otherwise at the last unit of the trail. */
    predicate Valid() {
      (currentParentId.None? <==> breadcrumbs == [])
      && (breadcrumbs != [] ==> currentParentId == Some(breadcrumbs[|breadcrumbs| - 1].id))
    }
  }

  const Root := NavState(None, [])

  /** `handleDrillDown(unit)`: a Location has no children and is not entered; any other unit
    * becomes the current one and is pushed onto the trail. */
  function DrillDown(s: NavState, unit: OrgUnit): (r: NavState)
    ensures s.Valid() ==> r.Valid()
    ensures unit.layer == Location ==> r == s
    ensures unit.layer != Location ==> r.currentParentId == Some(unit.id) && |r.breadcrumbs| == |s.breadcrumbs| + 1
  {
    if unit.layer == Location then s
    else NavState(Some(unit.id), s.breadcrumbs + [Crumb(unit.id, unit.name)])
  }

  /** `handleNavigateUp(index)`: -1 goes back to the root; otherwise to the `index`-th unit of the
    * trail, dropping the entries after it. */
  function NavigateUp(s: NavState, index: int): (r: NavState)
    requires -1 <= index < |s.breadcrumbs|
    ensures s.Valid() ==> r.Valid()
    ensures index == -1 ==> r == Root
    ensures index >= 0 ==> r.currentParentId == Some(s.breadcrumbs[index].id) && r.breadcrumbs == s.breadcrumbs[..index + 1]
  {
    if index == -1 then Root
    else NavState(Some(s.breadcrumbs[index].id), s.breadcrumbs[..index + 1])
  }

  /** Drilling into a unit and then clicking the trail entry before it returns to where the page
    * was; clicking the root returns to the root. */
  lemma DrillDownThenUp(s: NavState, unit: OrgUnit)
    requires s.Valid() && unit.layer != Location
    ensures NavigateUp(DrillDown(s, unit), |s.breadcrumbs| - 1) == s
  {
    if s.breadcrumbs == [] {
    } else {
      assert (s.breadcrumbs + [Crumb(unit.id, unit.name)])[..|s.breadcrumbs|] == s.breadcrumbs;
    }
  }

  /** The page's navigation state. */
  class Navigator {
    var currentParentId: Option<string>
    var breadcrumbs: seq<Crumb>

    function State(): NavState
      reads this
    {
      NavState(currentParentId, breadcrumbs)
    }

    constructor()
      ensures State() == Root
    {
      currentParentId := None;
      breadcrumbs := [];
    }

    method HandleDrillDown(unit: OrgUnit)
      modifies this
      ensures State() == DrillDown(old(State()), unit)
    {
      if unit.layer == Location {
        return;
      }
      currentParentId := Some(unit.id);
      breadcrumbs := breadcrumbs + [Crumb(unit.id, unit.name)];
    }

    method HandleNavigateUp(index: int)
      requires -1 <= index < |breadcrumbs|
      modifies this
      ensures State() == NavigateUp(old(State()), index)
    {
      if index == -1 {
        currentParentId := None;
        breadcrumbs := [];
      } else {
        var target := breadcrumbs[index];
        currentParentId := Some(target.id);
        breadcrumbs := breadcrumbs[..index + 1];
      }
    }
  }

  // ---------------------------------------------------------------- what can be added

  /** The depth of a layer in the tree. */
  function Depth(layer: OrgLayer): nat {
    match layer
    case Branch => 0
    case Department => 1
    case Location => 2
  }

  /** `getAddOptions`: Branches at the root; Departments and Locations under a Branch;
    * Locations under a Department; nothing under a Location or an unknown unit. */
  function AddOptions(orgUnits: seq<OrgUnit>, currentParentId: Option<string>): (r: seq<OrgLayer>)
    ensures Falsy(currentParentId) ==> r == [Branch]
    ensures !Falsy(currentParentId) ==>
      var i := FindIndex(orgUnits, (u: OrgUnit) => u.id == currentParentId.value);
      (i == -1 ==> r == [])
      && (i != -1 ==> forall l :: l in r <==> Depth(l) > Depth(orgUnits[i].layer))
      && (i != -1 ==> forall k :: 0 <= k < |r| - 1 ==> Depth(r[k]) < Depth(r[k + 1]))
  {
    if Falsy(currentParentId) then [Branch]
    else
      var i := FindIndex(orgUnits, (u: OrgUnit) => u.id == currentParentId.value);
      if i == -1 then []
      else match orgUnits[i].layer
        case Branch => [Department, Location]
        case Department => [Location]
        case Location => []
  }

  // ---------------------------------------------------------------- saving a unit

  /** The unit being edited in the dialog; fields the dialog has not set are absent. */
  datatype OrgDraft = OrgDraft(
    id: Option<string>,
    name: Option<string>,
    layer: OrgLayer,
    parentId: Option<string>,
    address: Option<string>,
    headcount: Option<int>,
    location: Option<LatLng>,
    bcpTargetDays: Option<int>,
    maxCapacity: Option<int>,
    emergencyContact: Option<string>,
    guidelineUrl: Option<string>,
    bcpTargetPeople: Option<int>,
    ordinanceRequirement: Option<int>)

  /** `handleCreateOrg(layer)`: a new draft under the current unit, empty name and address, no
    * people. */
  function NewDraft(layer: OrgLayer, currentParentId: Option<string>): (d: OrgDraft)
    ensures d.id.None? && d.layer == layer && d.parentId == currentParentId && d.headcount == Some(0)
    ensures d.name == Some("") && d.address == Some("")
    ensures d.location.None? && d.bcpTargetDays.None? && d.maxCapacity.None? && d.emergencyContact.None?
            && d.guidelineUrl.None? && d.bcpTargetPeople.None? && d.ordinanceRequirement.None?
  {
    OrgDraft(None, Some(""), layer, currentParentId, Some(""), Some(0), None, None, None, None, None, None, None)
  }

  /** `handleEditOrg(unit)`: the draft is a copy of the unit. */
  function EditDraft(u: OrgUnit): OrgDraft {
    OrgDraft(Some(u.id), Some(u.name), u.layer, u.parentId, u.address, u.headcount, u.location, u.bcpTargetDays,
             u.maxCapacity, u.emergencyContact, u.guidelineUrl, u.bcpTargetPeople, u.ordinanceRequirement)
  }

  datatype SaveOutcome =
    | SaveRejected(message: string)
    | Saved(unit: OrgUnit, isUpdate: bool)

  const NameRequired := "名称は必須です"
  const AddressRequired := "拠点は住所が必須です"

  /** `handleSaveOrg`'s checks and the unit it stores: a draft without a name, or a Location
    * without an address, is refused; the unit keeps the draft's id, or gets `org_<now>`, and
    * its people count is the draft's, 0 when absent or zero, and every other field is copied
    * from the draft. A draft with an id updates, one without adds. */
  function SaveOrg(d: OrgDraft, now: nat): (r: SaveOutcome)
    ensures r == SaveRejected(NameRequired) <==> OptOrStr(d.name, "") == ""
    ensures r == SaveRejected(AddressRequired) <==> OptOrStr(d.name, "") != "" && d.layer == Location && OptOrStr(d.address, "") == ""
    ensures r.Saved? <==> OptOrStr(d.name, "") != "" && !(d.layer == Location && OptOrStr(d.address, "") == "")
    ensures r.Saved? ==> (
      r.isUpdate == (OptOrStr(d.id, "") != "")
      && r.unit.id == (if r.isUpdate then d.id.value else "org_" + IntToString(now))
      && r.unit.name == d.name.value && r.unit.layer == d.layer && r.unit.parentId == d.parentId
      && r.unit.address == d.address && r.unit.headcount == Some(OrInt(d.headcount, 0))
      && r.unit.location == d.location && r.unit.bcpTargetDays == d.bcpTargetDays
      && r.unit.maxCapacity == d.maxCapacity && r.unit.emergencyContact == d.emergencyContact
      && r.unit.guidelineUrl == d.guidelineUrl && r.unit.bcpTargetPeople == d.bcpTargetPeople
      && r.unit.ordinanceRequirement == d.ordinanceRequirement)
  {
    if OptOrStr(d.name, "") == "" then SaveRejected(NameRequired)
    else if d.layer == Location && OptOrStr(d.address, "") == "" then SaveRejected(AddressRequired)
    else
      var unit := OrgUnit(OrStr(OptOrStr(d.id, ""), "org_" + IntToString(now)), d.name.value, d.layer, d.parentId,
                          d.address, Some(OrInt(d.headcount, 0)), d.location, d.bcpTargetDays, d.maxCapacity,
                          d.emergencyContact, d.guidelineUrl, d.bcpTargetPeople, d.ordinanceRequirement);
      Saved(unit, OptOrStr(d.id, "") != "")
  }

  /** Editing a unit and saving it unchanged updates the unit with itself, its people count
    * made explicit (0 when absent). */
  lemma SaveEditedUnit(u: OrgUnit, now: nat)
    requires u.id != "" && u.name != "" && !(u.layer == Location && OptOrStr(u.address, "") == "")
    ensures SaveOrg(EditDraft(u), now) == Saved(u.(headcount := Some(OrInt(u.headcount, 0))), true)
  {
  }

  /** Saving from the dialog into the store: an update replaces the units with that id, an add
    * appends, a refused draft changes nothing. */
  method HandleSaveOrg(store: Store, d: OrgDraft, now: nat) returns (r: SaveOutcome)
    modifies store
    ensures r == SaveOrg(d, now)
    ensures r.SaveRejected? ==> store.orgUnits == old(store.orgUnits)
    ensures r.Saved? && r.isUpdate ==> store.orgUnits == ReplaceUnit(old(store.orgUnits), r.unit)
    ensures r.Saved? && !r.isUpdate ==> store.orgUnits == old(store.orgUnits) + [r.unit]
    ensures store.products == old(store.products)
  {
    r := SaveOrg(d, now);
    if r.Saved? {
      if r.isUpdate {
        store.UpdateOrgUnit(r.unit);
      } else {
        store.AddOrgUnit(r.unit);
      }
    }
  }

  /** `handleSaveProduct`: the dialog was opened on a product with an id, so the save updates;
    * otherwise it adds. */
  method HandleSaveProduct(store: Store, editing: Option<Product>, p: Product)
    modifies store
    ensures editing.Some? && editing.value.id != "" ==> store.products == ReplaceProduct(old(store.products), p)
    ensures !(editing.Some? && editing.value.id != "") ==> store.products == old(store.products) + [p]
    ensures store.orgUnits == old(store.orgUnits)
  {
    if editing.Some? && editing.value.id != "" {
      store.UpdateProduct(p);
    } else {
      store.AddProduct(p);
    }
  }

  /** A unit created and saved on a page is listed on that page afterwards: it is added (never
    * an update) under the current unit, so `getChildren` of the current unit includes it. */
  lemma CreatedUnitIsListed(orgUnits: seq<OrgUnit>, currentParentId: Option<string>, layer: OrgLayer,
                            name: string, address: string, now: nat)
    requires name != "" && address != ""
    ensures var d := NewDraft(layer, currentParentId).(name := Some(name), address := Some(address));
      var r := SaveOrg(d, now);
      r.Saved? && !r.isUpdate && r.unit in Filter(orgUnits + [r.unit], IsChildOf(currentParentId))
  {
    var d := NewDraft(layer, currentParentId).(name := Some(name), address := Some(address));
    var r := SaveOrg(d, now);
    var all := orgUnits + [r.unit];
    assert all[|orgUnits|] == r.unit;
    assert IsChildOf(currentParentId)(all[|orgUnits|]);
  }
}
