/** The move dialog: its form state, the storage places offered for a destination branch, and
  * the checks a move must pass before it reaches the ledger. */
module MoveModal {
  import opened Wrappers
  import opened SeqUtil
  import opened Strings
  import opened Sorting
  import opened StockTypes
  import opened StockLedger

  // ---------------------------------------------------------------- storage places of a branch

  /** The first Branch-layer unit called `branchName`, if any. */
  function BranchUnitNamed(orgUnits: seq<OrgUnit>, branchName: string): (r: Option<OrgUnit>)
    ensures r.None? <==> forall i :: 0 <= i < |orgUnits| ==> !(orgUnits[i].name == branchName && orgUnits[i].layer == Branch)
    ensures r.Some? ==> r.value in orgUnits && r.value.name == branchName && r.value.layer == Branch
  {
    var i := FindIndex(orgUnits, (u: OrgUnit) => u.name == branchName && u.layer == Branch);
    if i == -1 then None else Some(orgUnits[i])
  }

  function ChildOfLayer(parent: string, layer: OrgLayer): OrgUnit -> bool {
    (u: OrgUnit) => u.parentId == Some(parent) && u.layer == layer
  }

  /** A Location whose parent is one of `depts`. */
  function LocationUnder(depts: seq<OrgUnit>): OrgUnit -> bool {
    (u: OrgUnit) => u.layer == Location && u.parentId.Some? && exists k :: 0 <= k < |depts| && depts[k].id == u.parentId.value
  }

  function Names(units: seq<OrgUnit>): (r: seq<string>)
    ensures |r| == |units|
    ensures forall i :: 0 <= i < |units| ==> r[i] == units[i].name
  {
    if units == [] then [] else [units[0].name] + Names(units[1..])
  }

  /** The Location units directly under `branchId`, then those under its Department children. */
  function Candidates(orgUnits: seq<OrgUnit>, branchId: string): seq<OrgUnit> {
    var directLocs := Filter(orgUnits, ChildOfLayer(branchId, Location));
    var deptUnits := Filter(orgUnits, ChildOfLayer(branchId, Department));
    directLocs + Filter(orgUnits, LocationUnder(deptUnits))
  }

  /** `getLocationsForBranch`: the names of the Location units directly under the branch and of
    * those under one of its Department children, sorted; nothing for an unknown branch. */
  function LocationsForBranch(orgUnits: seq<OrgUnit>, branchName: string): (r: seq<string>)
    ensures BranchUnitNamed(orgUnits, branchName).None? ==> r == []
    ensures SortedBy(r, LexLe)
  {
    match BranchUnitNamed(orgUnits, branchName)
    case None => []
    case Some(branch) => SortStrings(Names(Candidates(orgUnits, branch.id)))
  }

  /** `u` sits directly under the unit `branchId`, or under a Department directly under it. */
  ghost predicate WithinTwoLevels(orgUnits: seq<OrgUnit>, branchId: string, u: OrgUnit) {
    u.parentId == Some(branchId)
    || exists d :: d in orgUnits && d.layer == Department && d.parentId == Some(branchId) && u.parentId == Some(d.id)
  }

  lemma CandidatesWithin(orgUnits: seq<OrgUnit>, branchId: string, u: OrgUnit)
    requires u in Candidates(orgUnits, branchId)
    ensures u in orgUnits && u.layer == Location && WithinTwoLevels(orgUnits, branchId, u)
  {
    var directLocs := Filter(orgUnits, ChildOfLayer(branchId, Location));
    var deptUnits := Filter(orgUnits, ChildOfLayer(branchId, Department));
    var deptLocs := Filter(orgUnits, LocationUnder(deptUnits));
    if u !in directLocs {
      assert u in deptLocs;
      var i :| 0 <= i < |deptLocs| && deptLocs[i] == u;
      assert LocationUnder(deptUnits)(u);
      var k :| 0 <= k < |deptUnits| && deptUnits[k].id == u.parentId.value;
      assert ChildOfLayer(branchId, Department)(deptUnits[k]);
      assert deptUnits[k] in orgUnits;
    } else {
      var i :| 0 <= i < |directLocs| && directLocs[i] == u;
    }
  }

  lemma WithinAreCandidates(orgUnits: seq<OrgUnit>, branchId: string, u: OrgUnit)
    requires u in orgUnits && u.layer == Location && WithinTwoLevels(orgUnits, branchId, u)
    ensures u in Candidates(orgUnits, branchId)
  {
    var directLocs := Filter(orgUnits, ChildOfLayer(branchId, Location));
    var deptUnits := Filter(orgUnits, ChildOfLayer(branchId, Department));
    var deptLocs := Filter(orgUnits, LocationUnder(deptUnits));
    var j :| 0 <= j < |orgUnits| && orgUnits[j] == u;
    if u.parentId == Some(branchId) {
      assert ChildOfLayer(branchId, Location)(orgUnits[j]);
      assert u in directLocs;
    } else {
      var d :| d in orgUnits && d.layer == Department && d.parentId == Some(branchId) && u.parentId == Some(d.id);
      var m :| 0 <= m < |orgUnits| && orgUnits[m] == d;
      assert ChildOfLayer(branchId, Department)(orgUnits[m]);
      var k :| 0 <= k < |deptUnits| && deptUnits[k] == d;
      assert LocationUnder(deptUnits)(orgUnits[j]);
      assert u in deptLocs;
    }
  }

  lemma NamesMember(units: seq<OrgUnit>, x: string)
    ensures x in Names(units) <==> exists u :: u in units && u.name == x
  {
    if exists u :: u in units && u.name == x {
      var u :| u in units && u.name == x;
      var i :| 0 <= i < |units| && units[i] == u;
      assert Names(units)[i] == x;
    }
  }

  /** The offered places are exactly the names of the Location units at most two levels below the
    * branch with the second level a Department; deeper units and other layers are never offered. */
  lemma LocationsForBranchMembers(orgUnits: seq<OrgUnit>, branchName: string, x: string)
    requires BranchUnitNamed(orgUnits, branchName).Some?
    ensures var branch := BranchUnitNamed(orgUnits, branchName).value;
      x in LocationsForBranch(orgUnits, branchName)
      <==> exists u :: u in orgUnits && u.name == x && u.layer == Location && WithinTwoLevels(orgUnits, branch.id, u)
  {
    var branch := BranchUnitNamed(orgUnits, branchName).value;
    var all := Candidates(orgUnits, branch.id);
    var r := LocationsForBranch(orgUnits, branchName);
    assert r == SortStrings(Names(all));
    assert x in r <==> x in multiset(Names(all));
    NamesMember(all, x);
    if x in r {
      var u :| u in all && u.name == x;
      CandidatesWithin(orgUnits, branch.id, u);
    }
    if exists u :: u in orgUnits && u.name == x && u.layer == Location && WithinTwoLevels(orgUnits, branch.id, u) {
      var u :| u in orgUnits && u.name == x && u.layer == Location && WithinTwoLevels(orgUnits, branch.id, u);
      WithinAreCandidates(orgUnits, branch.id, u);
    }
  }

  // ---------------------------------------------------------------- confirmation

  /** What pressing the confirm button leads to: an alert, or a move handed to the ledger. */
  datatype Outcome =
    | Rejected(message: string)
    | Confirmed(itemId: string, quantity: int, toBranch: string, toStorage: string)

  const QuantityTooSmall := "数量は1以上を指定してください"
  const QuantityTooLarge := "現在庫数を超えています"
  const NoBranch := "移動先支店を選択してください"
  const NoStorage := "移動先保管場所を選択してください"

  /** The move dialog's form. */
  class MoveForm {
    var quantity: int
    var toBranch: string
    var toStorage: string

    constructor()
      ensures quantity == 1 && toBranch == "" && toStorage == ""
    {
      quantity := 1;
      toBranch := "";
      toStorage := "";
    }

    /** Opening the dialog for `item`: one unit, to the item's own branch, no storage place yet. */
    method Open(item: StockItem)
      modifies this
      ensures quantity == 1 && toBranch == item.branch && toStorage == ""
    {
      quantity := 1;
      toBranch := item.branch;
      toStorage := "";
    }

    /** Typing a quantity: `parseInt(text) || 0`, so text that is not a number gives 0. */
    method EnterQuantity(text: string)
      modifies this
      ensures ParseInt(text).Some? && ParseInt(text).value != 0 ==> quantity == ParseInt(text).value
      ensures (ParseInt(text).None? || ParseInt(text).value == 0) ==> quantity == 0
      ensures toBranch == old(toBranch) && toStorage == old(toStorage)
    {
      quantity := OrInt(ParseInt(text), 0);
    }

    /** Choosing a destination branch forgets the storage place chosen before. */
    method SelectBranch(branch: string)
      modifies this
      ensures toBranch == branch && toStorage == "" && quantity == old(quantity)
    {
      toBranch := branch;
      toStorage := "";
    }

    method SelectStorage(storage: string)
      modifies this
      ensures toStorage == storage && toBranch == old(toBranch) && quantity == old(quantity)
    {
      toStorage := storage;
    }

    /** The storage places offered: none while no branch is chosen. */
    function AvailableLocations(orgUnits: seq<OrgUnit>): (r: seq<string>)
      reads this
      ensures toBranch == "" ==> r == []
      ensures toBranch != "" ==> r == LocationsForBranch(orgUnits, toBranch)
    {
      if toBranch == "" then [] else LocationsForBranch(orgUnits, toBranch)
    }

    /** `handleConfirm`: the first failing check, in the order quantity too small, quantity above
      * the balance, no branch, no storage place, gives its alert; a move is handed on only when
      * every check passes. */
    function Confirm(item: StockItem): (r: Outcome)
      reads this
      ensures r.Confirmed? <==> 1 <= quantity <= item.quantity && toBranch != "" && toStorage != ""
      ensures r.Confirmed? ==> r == Confirmed(item.id, quantity, toBranch, toStorage)
      ensures r == Rejected(QuantityTooSmall) <==> quantity <= 0
      ensures r == Rejected(QuantityTooLarge) <==> 0 < quantity && quantity > item.quantity
      ensures r == Rejected(NoBranch) <==> 0 < quantity <= item.quantity && toBranch == ""
      ensures r == Rejected(NoStorage) <==> 0 < quantity <= item.quantity && toBranch != "" && toStorage == ""
    {
      if quantity <= 0 then Rejected(QuantityTooSmall)
      else if quantity > item.quantity then Rejected(QuantityTooLarge)
      else if toBranch == "" then Rejected(NoBranch)
      else if toStorage == "" then Rejected(NoStorage)
      else Confirmed(item.id, quantity, toBranch, toStorage)
    }
  }

  /** Every row holds at least one unit. */
  predicate AllPositive(items: seq<StockItem>) {
    forall i :: 0 <= i < |items| ==> items[i].quantity >= 1
  }

  /** A move that passed the dialog's checks moves the row itself exactly when it moves the
    * whole balance, and otherwise leaves at least one unit behind: rows that all hold stock
    * still all hold stock afterwards. */
  lemma ConfirmedMoveKeepsStock(items: seq<StockItem>, index: nat, quantity: int, toBranch: string, toStorage: string,
                                now: nat, nowIso: string)
    requires index < |items| && forall j :: 0 <= j < index ==> items[j].id != items[index].id
    requires 1 <= quantity <= items[index].quantity
    requires AllPositive(items)
    ensures var r := Move(items, items[index].id, quantity, toBranch, toStorage, now, nowIso);
      (|r| == |items| <==> quantity == items[index].quantity) && AllPositive(r)
  {
    var itemId := items[index].id;
    var r := Move(items, itemId, quantity, toBranch, toStorage, now, nowIso);
    if quantity == items[index].quantity {
      MoveFullRelocates(items, itemId, quantity, toBranch, toStorage, now, nowIso, index);
    } else {
      MovePartialSplits(items, itemId, quantity, toBranch, toStorage, now, nowIso, index);
    }
    assert FindIndex(items, HasId(itemId)) == index;
    forall i | 0 <= i < |r| ensures r[i].quantity >= 1 {
      if i < |items| && i != index {
        assert r[i] == items[i];
      }
    }
  }
}
