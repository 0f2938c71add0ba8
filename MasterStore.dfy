/** The master-data store: the product list and the flat organisation list, with their add,
  * update and delete actions, the child and branch queries, and the organisation list the
  * store starts with when nothing has been saved. */
module MasterStore {
  import opened Wrappers
  import opened SeqUtil
  import opened Strings
  import opened StockTypes
  import opened BranchDefaults

  // ---------------------------------------------------------------- list operations

  /** Every product with the id of `p` replaced by `p`; the others kept in place. */
  function ReplaceProduct(ps: seq<Product>, p: Product): (r: seq<Product>)
    ensures |r| == |ps|
    ensures forall i :: 0 <= i < |ps| ==> r[i] == if ps[i].id == p.id then p else ps[i]
  {
    if ps == [] then [] else [if ps[0].id == p.id then p else ps[0]] + ReplaceProduct(ps[1..], p)
  }

  function ProductIdIsNot(id: string): Product -> bool {
    (p: Product) => p.id != id
  }

  /** Every unit with the id of `u` replaced by `u`; the others kept in place. */
  function ReplaceUnit(us: seq<OrgUnit>, u: OrgUnit): (r: seq<OrgUnit>)
    ensures |r| == |us|
    ensures forall i :: 0 <= i < |us| ==> r[i] == if us[i].id == u.id then u else us[i]
  {
    if us == [] then [] else [if us[0].id == u.id then u else us[0]] + ReplaceUnit(us[1..], u)
  }

  /** Kept by `deleteOrgUnit(id)`: neither the unit itself nor a direct child of it. */
  function SurvivesDelete(id: string): OrgUnit -> bool {
    (u: OrgUnit) => u.id != id && u.parentId != Some(id)
  }

  /** An id or parent id JavaScript treats as false: absent or empty. */
  predicate Falsy(o: Option<string>) {
    o.None? || o.value == ""
  }

  /** `getChildren(parentId)`'s test. */
  function IsChildOf(parentId: Option<string>): OrgUnit -> bool {
    (u: OrgUnit) => u.parentId == parentId || (Falsy(parentId) && Falsy(u.parentId))
  }

  function IsBranch(u: OrgUnit): bool {
    u.layer == Branch
  }

  // ---------------------------------------------------------------- the store

  class Store {
    var products: seq<Product>
    var orgUnits: seq<OrgUnit>

    constructor(products0: seq<Product>, orgUnits0: seq<OrgUnit>)
      ensures products == products0 && orgUnits == orgUnits0
    {
      products := products0;
      orgUnits := orgUnits0;
    }

    /** `addProduct`: appended at the end; the existing entries unchanged. */
    method AddProduct(p: Product)
      modifies this
      ensures products == old(products) + [p] && orgUnits == old(orgUnits)
    {
      products := products + [p];
    }

    /** `updateProduct`: every entry with the same id replaced, length and order kept. */
    method UpdateProduct(p: Product)
      modifies this
      ensures products == ReplaceProduct(old(products), p) && orgUnits == old(orgUnits)
    {
      products := ReplaceProduct(products, p);
    }

    /** `deleteProduct`: exactly the entries with that id removed, the rest kept in order. */
    method DeleteProduct(id: string)
      modifies this
      ensures products == Filter(old(products), ProductIdIsNot(id)) && orgUnits == old(orgUnits)
    {
      products := Filter(products, ProductIdIsNot(id));
    }

    /** `addOrgUnit`: appended at the end; the existing entries unchanged. */
    method AddOrgUnit(u: OrgUnit)
      modifies this
      ensures orgUnits == old(orgUnits) + [u] && products == old(products)
    {
      orgUnits := orgUnits + [u];
    }

    /** `updateOrgUnit`: every entry with the same id replaced, length and order kept. */
    method UpdateOrgUnit(u: OrgUnit)
      modifies this
      ensures orgUnits == ReplaceUnit(old(orgUnits), u) && products == old(products)
    {
      orgUnits := ReplaceUnit(orgUnits, u);
    }

    /** `deleteOrgUnit`: the unit and its direct children removed, nothing deeper. */
    method DeleteOrgUnit(id: string)
      modifies this
      ensures orgUnits == Filter(old(orgUnits), SurvivesDelete(id)) && products == old(products)
    {
      orgUnits := Filter(orgUnits, SurvivesDelete(id));
    }

    /** `getChildren(parentId)`: the units under `parentId` in list order; for an absent (or
      * empty) parent id, the units without one. */
    function GetChildren(parentId: Option<string>): (r: seq<OrgUnit>)
      reads this
      ensures forall i :: 0 <= i < |r| ==> r[i] in orgUnits
      ensures !Falsy(parentId) ==> forall i :: 0 <= i < |r| ==> r[i].parentId == parentId
      ensures !Falsy(parentId) ==> forall i :: 0 <= i < |orgUnits| && orgUnits[i].parentId == parentId ==> orgUnits[i] in r
      ensures Falsy(parentId) ==> forall i :: 0 <= i < |r| ==> Falsy(r[i].parentId)
      ensures Falsy(parentId) ==> forall i :: 0 <= i < |orgUnits| && Falsy(orgUnits[i].parentId) ==> orgUnits[i] in r
    {
      Filter(orgUnits, IsChildOf(parentId))
    }

    /** `branches`: the Branch-layer units in list order. */
    function Branches(): (r: seq<OrgUnit>)
      reads this
      ensures forall i :: 0 <= i < |r| ==> r[i].layer == Branch && r[i] in orgUnits
      ensures forall i :: 0 <= i < |orgUnits| && orgUnits[i].layer == Branch ==> orgUnits[i] in r
    {
      Filter(orgUnits, IsBranch)
    }
  }

  // ---------------------------------------------------------------- properties of the actions

  /** After an update every entry with that id is the new product, and updating twice with the
    * same product is the same as once. */
  lemma ReplaceProductSettles(ps: seq<Product>, p: Product)
    ensures forall i :: 0 <= i < |ps| && ps[i].id == p.id ==> ReplaceProduct(ps, p)[i] == p
    ensures ReplaceProduct(ReplaceProduct(ps, p), p) == ReplaceProduct(ps, p)
  {
  }

  /** Deleting a product just added under a new id gives back the list as it was. */
  lemma DeleteUndoesAdd(ps: seq<Product>, p: Product)
    requires forall i :: 0 <= i < |ps| ==> ps[i].id != p.id
    ensures Filter(ps + [p], ProductIdIsNot(p.id)) == ps
  {
    FilterAppend(ps, [p], ProductIdIsNot(p.id));
    FilterAll(ps, ProductIdIsNot(p.id));
    assert [p][1..] == [];
  }

  /** With distinct ids, deleting a unit keeps its grandchildren, now pointing at a parent that is
    * no longer in the list: the delete does not cascade below the first level. */
  lemma DeleteLeavesGrandchildren(us: seq<OrgUnit>, id: string, c: OrgUnit, g: OrgUnit)
    requires forall i, j :: 0 <= i < j < |us| ==> us[i].id != us[j].id
    requires c in us && g in us && c.parentId == Some(id) && g.parentId == Some(c.id)
    requires g.id != id && c.id != id
    ensures g in Filter(us, SurvivesDelete(id))
    ensures forall i :: 0 <= i < |Filter(us, SurvivesDelete(id))| ==> Filter(us, SurvivesDelete(id))[i].id != g.parentId.value
  {
    var r := Filter(us, SurvivesDelete(id));
    var k :| 0 <= k < |us| && us[k] == g;
    assert SurvivesDelete(id)(us[k]);
  }

  // ---------------------------------------------------------------- initial organisation

  /** The Location unit `<branch>_loc_<n>` for storage place `name`: under the branch, with an
    * empty address and no other settings. */
  function LocationUnit(branchId: string, name: string, n: nat): OrgUnit {
    OrgUnit(branchId + "_loc_" + IntToString(n), name, Location, Some(branchId), Some(""),
            None, None, None, None, None, None, None, None)
  }

  /** The Branch unit of a configured branch: a root with the branch's headcount. */
  function BranchUnit(cfg: BranchConfig): OrgUnit {
    OrgUnit(cfg.id, cfg.name, Branch, None, None, Some(cfg.headcount), None, None, None, None, None, None, None)
  }

  /** The Location units made for the storage places `locs[from..]` of branch `branchId`. */
  function LocationUnits(branchId: string, locs: seq<string>, from: nat): (r: seq<OrgUnit>)
    requires from <= |locs|
    ensures |r| == |locs| - from
    decreases |locs| - from
  {
    if from == |locs| then []
    else [LocationUnit(branchId, locs[from], from)] + LocationUnits(branchId, locs, from + 1)
  }

  /** Place `from + i` becomes the `i`-th Location unit, numbered by its own position. */
  lemma {:induction false} LocationUnitsAt(branchId: string, locs: seq<string>, from: nat, i: nat)
    requires from <= |locs| && i < |locs| - from
    ensures LocationUnits(branchId, locs, from)[i] == LocationUnit(branchId, locs[from + i], from + i)
    decreases i
  {
    if i > 0 {
      LocationUnitsAt(branchId, locs, from + 1, i - 1);
    }
  }

  /** The units made for one configured branch: the Branch unit, then one Location per place. */
  function UnitsFor(cfg: BranchConfig): (r: seq<OrgUnit>)
    ensures |r| == 1 + |cfg.storageLocations|
    ensures r[0] == BranchUnit(cfg)
  {
    [BranchUnit(cfg)] + LocationUnits(cfg.id, cfg.storageLocations, 0)
  }

  function InitialUnitsOf(configs: seq<BranchConfig>): seq<OrgUnit> {
    if configs == [] then [] else InitialUnitsOf(configs[..|configs| - 1]) + UnitsFor(configs[|configs| - 1])
  }

  /** One branch of the configuration: its Branch unit, then a Location unit per storage place,
    * appended to the list built so far. */
  method AppendBranchUnits(units: seq<OrgUnit>, cfg: BranchConfig) returns (r: seq<OrgUnit>)
    ensures r == units + UnitsFor(cfg)
  {
    r := units + [BranchUnit(cfg)];
    var idx := 0;
    while idx < |cfg.storageLocations|
      invariant 0 <= idx <= |cfg.storageLocations|
      invariant r + LocationUnits(cfg.id, cfg.storageLocations, idx) == units + UnitsFor(cfg)
    {
      r := r + [LocationUnit(cfg.id, cfg.storageLocations[idx], idx)];
      idx := idx + 1;
    }
  }

  /** The organisation list built from the branch configuration when nothing has been saved. */
  method InitialUnits(configs: seq<BranchConfig>) returns (initialUnits: seq<OrgUnit>)
    ensures initialUnits == InitialUnitsOf(configs)
  {
    initialUnits := [];
    var c := 0;
    while c < |configs|
      invariant 0 <= c <= |configs|
      invariant initialUnits == InitialUnitsOf(configs[..c])
    {
      assert configs[..c + 1][..c] == configs[..c];
      initialUnits := AppendBranchUnits(initialUnits, configs[c]);
      c := c + 1;
    }
    assert configs[..c] == configs;
  }

  /** Every unit of the initial list that has a parent hangs under a Branch unit of the list:
    * the list never refers to a unit it does not hold. */
  lemma {:induction false} InitialParentsResolve(configs: seq<BranchConfig>)
    ensures var us := InitialUnitsOf(configs);
      forall u :: u in us && u.parentId.Some? ==>
        exists b :: b in us && b.id == u.parentId.value && b.layer == Branch
    decreases |configs|
  {
    if configs != [] {
      var init := configs[..|configs| - 1];
      var cfg := configs[|configs| - 1];
      InitialParentsResolve(init);
      var us := InitialUnitsOf(configs);
      var mine := UnitsFor(cfg);
      assert us == InitialUnitsOf(init) + mine;
      forall u | u in us && u.parentId.Some?
        ensures exists b :: b in us && b.id == u.parentId.value && b.layer == Branch
      {
        if u in InitialUnitsOf(init) {
          var b :| b in InitialUnitsOf(init) && b.id == u.parentId.value && b.layer == Branch;
          assert b in us;
        } else {
          var i :| 0 <= i < |mine| && mine[i] == u;
          assert i > 0;
          assert mine[i] == LocationUnits(cfg.id, cfg.storageLocations, 0)[i - 1];
          LocationUnitsAt(cfg.id, cfg.storageLocations, 0, i - 1);
          assert mine[0] in us;
        }
      }
    }
  }
}
