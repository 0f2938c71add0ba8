/** The stock utilities: shortage alerts per branch and product, the per-category summary of a
  * branch, the expiry ordering, the list filter and the branch and storage-place lists. */
module StockUtils {
  import opened Wrappers
  import opened SeqUtil
  import opened Strings
  import opened Sorting
  import opened StockTypes

  // ---------------------------------------------------------------- the branch pool

  function ChildOfId(parentId: string): OrgUnit -> bool {
    (u: OrgUnit) => u.parentId == Some(parentId)
  }

  /** The ids of the branch's direct children (`childDepts`). */
  function ChildIds(units: seq<OrgUnit>, branchId: string): seq<string> {
    IdsOf(Filter(units, ChildOfId(branchId)))
  }

  /** `childLocs`'s test: a child of the branch, or a child of one of its children. */
  function TwoLevelsDown(units: seq<OrgUnit>, branchId: string): OrgUnit -> bool {
    (u: OrgUnit) => u.parentId == Some(branchId) || (u.parentId.Some? && u.parentId.value in ChildIds(units, branchId))
  }

  /** The ids whose stock counts for the branch: the branch, its children, its grandchildren. */
  function RelevantIds(units: seq<OrgUnit>, branchId: string): seq<string> {
    [branchId] + ChildIds(units, branchId) + IdsOf(Filter(units, TwoLevelsDown(units, branchId)))
  }

  /** A row counts for a branch when it is stored at one of those ids, or when its branch field
    * holds the branch id. */
  function InBranchPool(units: seq<OrgUnit>, branchId: string): StockItem -> bool {
    (item: StockItem) => item.storageLocation in RelevantIds(units, branchId) || item.branch == branchId
  }

  lemma {:induction false} IdsOfFilter(us: seq<OrgUnit>, p: OrgUnit -> bool, x: string)
    ensures x in IdsOf(Filter(us, p)) <==> exists i :: 0 <= i < |us| && p(us[i]) && us[i].id == x
    decreases |us|
  {
    if us != [] {
      IdsOfFilter(us[1..], p, x);
      assert forall i :: 0 < i < |us| ==> us[i] == us[1..][i - 1];
      if p(us[0]) {
        assert IdsOf(Filter(us, p)) == [us[0].id] + IdsOf(Filter(us[1..], p));
      }
      if exists i :: 0 <= i < |us| && p(us[i]) && us[i].id == x {
        var i :| 0 <= i < |us| && p(us[i]) && us[i].id == x;
        if i > 0 {
          assert us[1..][i - 1] == us[i];
        }
      }
    }
  }

  predicate ChildAt(units: seq<OrgUnit>, branchId: string, loc: string) {
    exists i :: 0 <= i < |units| && units[i].parentId == Some(branchId) && units[i].id == loc
  }

  predicate GrandchildAt(units: seq<OrgUnit>, branchId: string, loc: string) {
    exists i, j :: 0 <= i < |units| && 0 <= j < |units| && units[i].parentId == Some(branchId)
                   && units[j].parentId == Some(units[i].id) && units[j].id == loc
  }

  lemma ChildIdsMembers(units: seq<OrgUnit>, branchId: string, loc: string)
    ensures loc in ChildIds(units, branchId) <==> ChildAt(units, branchId, loc)
  {
    IdsOfFilter(units, ChildOfId(branchId), loc);
  }

  lemma TwoLevelsMembers(units: seq<OrgUnit>, branchId: string, loc: string)
    ensures loc in IdsOf(Filter(units, TwoLevelsDown(units, branchId))) <==>
      ChildAt(units, branchId, loc) || GrandchildAt(units, branchId, loc)
  {
    var test := TwoLevelsDown(units, branchId);
    IdsOfFilter(units, test, loc);
    ChildIdsMembers(units, branchId, loc);
    if exists j :: 0 <= j < |units| && test(units[j]) && units[j].id == loc {
      var j :| 0 <= j < |units| && test(units[j]) && units[j].id == loc;
      if units[j].parentId != Some(branchId) {
        var p := units[j].parentId.value;
        ChildIdsMembers(units, branchId, p);
        var i :| 0 <= i < |units| && units[i].parentId == Some(branchId) && units[i].id == p;
        assert units[j].parentId == Some(units[i].id);
      }
    }
    if GrandchildAt(units, branchId, loc) {
      var i, j :| 0 <= i < |units| && 0 <= j < |units| && units[i].parentId == Some(branchId)
                  && units[j].parentId == Some(units[i].id) && units[j].id == loc;
      ChildIdsMembers(units, branchId, units[i].id);
      assert test(units[j]);
    }
    if ChildAt(units, branchId, loc) {
      var i :| 0 <= i < |units| && units[i].parentId == Some(branchId) && units[i].id == loc;
      assert test(units[i]);
    }
  }

  /** The pool reaches two levels and no further: a row counts exactly when it is stored at the
    * branch, at a child, or at a child of a child, or carries the branch id as its branch. */
  lemma BranchPoolMembers(units: seq<OrgUnit>, branchId: string, item: StockItem)
    ensures InBranchPool(units, branchId)(item) <==>
      item.storageLocation == branchId || ChildAt(units, branchId, item.storageLocation)
      || GrandchildAt(units, branchId, item.storageLocation) || item.branch == branchId
  {
    ChildIdsMembers(units, branchId, item.storageLocation);
    TwoLevelsMembers(units, branchId, item.storageLocation);
  }

  // ---------------------------------------------------------------- the branch stock

  /** A row of the product being checked: same category, and same name unless the name is empty. */
  predicate OfProduct(category: FoodCategory, itemName: string, item: StockItem) {
    item.category == category && (itemName == "" || item.name == itemName)
  }

  /** The quantity of the product in a pool, summed over its rows. */
  function StockTotal(pool: seq<StockItem>, category: FoodCategory, itemName: string): int {
    if pool == [] then 0
    else
      var last := pool[|pool| - 1];
      StockTotal(pool[..|pool| - 1], category, itemName) + if OfProduct(category, itemName, last) then last.quantity else 0
  }

  lemma StockTotalSnoc(pool: seq<StockItem>, category: FoodCategory, itemName: string, i: int)
    requires 0 <= i < |pool|
    ensures StockTotal(pool[..i + 1], category, itemName)
      == StockTotal(pool[..i], category, itemName) + if OfProduct(category, itemName, pool[i]) then pool[i].quantity else 0
  {
    assert pool[..i + 1][..i] == pool[..i];
  }

  /** Rows of other products do not change the total. */
  lemma {:induction false} StockTotalIgnoresOthers(pool: seq<StockItem>, category: FoodCategory, itemName: string)
    requires forall k :: 0 <= k < |pool| ==> !OfProduct(category, itemName, pool[k])
    ensures StockTotal(pool, category, itemName) == 0
    decreases |pool|
  {
    if pool != [] {
      StockTotalIgnoresOthers(pool[..|pool| - 1], category, itemName);
    }
  }

  /** `getBranchStock(branchId, category, itemName)`. */
  method GetBranchStock(items: seq<StockItem>, units: seq<OrgUnit>, branchId: string, category: FoodCategory,
                        itemName: string) returns (total: int)
    ensures total == StockTotal(Filter(items, InBranchPool(units, branchId)), category, itemName)
  {
    var relevantItems := Filter(items, InBranchPool(units, branchId));
    total := 0;
    var i := 0;
    while i < |relevantItems|
      invariant 0 <= i <= |relevantItems|
      invariant total == StockTotal(relevantItems[..i], category, itemName)
    {
      var item := relevantItems[i];
      StockTotalSnoc(relevantItems, category, itemName, i);
      if item.category == category && (itemName == "" || item.name == itemName) {
        total := total + item.quantity;
      }
      i := i + 1;
    }
    assert relevantItems[..i] == relevantItems;
  }

  // ---------------------------------------------------------------- shortage alerts

  /** `Math.ceil`. */
  function Ceil(x: real): (r: int)
    ensures (r - 1) as real < x <= r as real
  {
    -((-x).Floor)
  }

  /** Three days of the product for everybody. */
  function Required(headcount: int, daily: real): real {
    headcount as real * 3.0 * daily
  }

  /** The alert for one product at one branch, given the branch's headcount and the product's
    * stock there: none unless the product has a positive daily need and the stock is below three
    * days of it for everybody. */
  function ProductAlert(branch: OrgUnit, headcount: int, product: Product, current: int): (r: Option<ShortageAlert>)
    ensures r.Some? <==> product.dailyRequirementPerPerson.Some? && product.dailyRequirementPerPerson.value > 0.0
                         && (current as real) < Required(headcount, product.dailyRequirementPerPerson.value)
    ensures r.Some? ==>
      var required := Required(headcount, product.dailyRequirementPerPerson.value);
      r.value == ShortageAlert(branch.name, CategoryName(product.category), Ceil(required), current,
                               Ceil(required - current as real), Some(product.name))
      && r.value.shortage >= 1
  {
    match product.dailyRequirementPerPerson
    case None => None
    case Some(daily) =>
      if daily > 0.0 then
        var required := Required(headcount, daily);
        if (current as real) < required then
          Some(ShortageAlert(branch.name, CategoryName(product.category), Ceil(required), current,
                             Ceil(required - current as real), Some(product.name)))
        else None
      else None
  }

  /** The alerts of one branch, product by product. */
  function BranchAlerts(branch: OrgUnit, units: seq<OrgUnit>, items: seq<StockItem>, products: seq<Product>): seq<ShortageAlert> {
    if products == [] then []
    else
      var p := products[|products| - 1];
      var current := StockTotal(Filter(items, InBranchPool(units, branch.id)), p.category, p.name);
      var a := ProductAlert(branch, OrInt(branch.headcount, 0), p, current);
      BranchAlerts(branch, units, items, products[..|products| - 1]) + if a.Some? then [a.value] else []
  }

  lemma BranchAlertsSnoc(branch: OrgUnit, units: seq<OrgUnit>, items: seq<StockItem>, ps: seq<Product>, j: int)
    requires 0 <= j < |ps|
    ensures var a := ProductAlert(branch, OrInt(branch.headcount, 0), ps[j],
                                  StockTotal(Filter(items, InBranchPool(units, branch.id)), ps[j].category, ps[j].name));
      BranchAlerts(branch, units, items, ps[..j + 1]) == BranchAlerts(branch, units, items, ps[..j]) + if a.Some? then [a.value] else []
  {
    assert ps[..j + 1][..j] == ps[..j];
  }

  /** The alerts of every branch with people, branch by branch, before sorting. */
  function AllAlerts(branches: seq<OrgUnit>, units: seq<OrgUnit>, items: seq<StockItem>, products: seq<Product>): seq<ShortageAlert> {
    if branches == [] then []
    else
      var b := branches[|branches| - 1];
      AllAlerts(branches[..|branches| - 1], units, items, products)
      + if OrInt(b.headcount, 0) == 0 then [] else BranchAlerts(b, units, items, products)
  }

  lemma AllAlertsSnoc(branches: seq<OrgUnit>, units: seq<OrgUnit>, items: seq<StockItem>, ps: seq<Product>, i: int)
    requires 0 <= i < |branches|
    ensures AllAlerts(branches[..i + 1], units, items, ps) == AllAlerts(branches[..i], units, items, ps)
      + if OrInt(branches[i].headcount, 0) == 0 then [] else BranchAlerts(branches[i], units, items, ps)
  {
    assert branches[..i + 1][..i] == branches[..i];
  }

  /** Larger shortages first: the order of the comparator `b.shortage - a.shortage`. */
  function ShortageLe(): (le: (ShortageAlert, ShortageAlert) -> bool)
    ensures forall a, b :: le(a, b) == (a.shortage >= b.shortage)
  {
    ByKey((a: ShortageAlert) => -a.shortage)
  }

  function IsBranchUnit(u: OrgUnit): bool {
    u.layer == Branch
  }

  function ProductsOrNone(products: Option<seq<Product>>): seq<Product> {
    if products.Some? then products.value else []
  }

  /** `ProductAlert` once the need of a product with a positive daily need is known. */
  lemma ProductAlertAt(branch: OrgUnit, headcount: int, product: Product, current: int, required: real)
    requires product.dailyRequirementPerPerson.Some? && product.dailyRequirementPerPerson.value > 0.0
    requires required == Required(headcount, product.dailyRequirementPerPerson.value)
    ensures ProductAlert(branch, headcount, product, current)
      == if (current as real) < required
         then Some(ShortageAlert(branch.name, CategoryName(product.category), Ceil(required), current,
                                 Ceil(required - current as real), Some(product.name)))
         else None
  {
  }

  /** One pass of the product loop of `calculateShortageAlerts`: the product's alert at the
    * branch, if any, as a sequence of at most one. */
  method ProductShortage(branch: OrgUnit, orgUnits: seq<OrgUnit>, items: seq<StockItem>, headcount: int, product: Product)
    returns (added: seq<ShortageAlert>)
    ensures var a := ProductAlert(branch, headcount, product,
                                  StockTotal(Filter(items, InBranchPool(orgUnits, branch.id)), product.category, product.name));
      added == if a.Some? then [a.value] else []
  {
    added := [];
    if product.dailyRequirementPerPerson.Some? && product.dailyRequirementPerPerson.value > 0.0 {
      var required := Required(headcount, product.dailyRequirementPerPerson.value);
      var current := GetBranchStock(items, orgUnits, branch.id, product.category, product.name);
      if (current as real) < required {
        added := [ShortageAlert(branch.name, CategoryName(product.category), Ceil(required), current,
                                Ceil(required - current as real), Some(product.name))];
      }
      ProductAlertAt(branch, headcount, product, current, required);
    }
  }

  /** The product loop of `calculateShortageAlerts` for one branch with people. */
  method BranchShortages(branch: OrgUnit, orgUnits: seq<OrgUnit>, items: seq<StockItem>, ps: seq<Product>)
    returns (found: seq<ShortageAlert>)
    ensures found == BranchAlerts(branch, orgUnits, items, ps)
  {
    found := [];
    var headcount := OrInt(branch.headcount, 0);
    var j := 0;
    while j < |ps|
      invariant 0 <= j <= |ps|
      invariant found == BranchAlerts(branch, orgUnits, items, ps[..j])
    {
      BranchAlertsSnoc(branch, orgUnits, items, ps, j);
      var added := ProductShortage(branch, orgUnits, items, headcount, ps[j]);
      found := found + added;
      j := j + 1;
    }
    assert ps[..j] == ps;
  }

  /** `calculateShortageAlerts`: the alerts of every Branch unit with people for every product
    * with a daily need, largest shortage first. */
  method CalculateShortageAlerts(items: seq<StockItem>, orgUnits: seq<OrgUnit>, products: Option<seq<Product>>)
    returns (alerts: seq<ShortageAlert>)
    ensures alerts == SortBy(AllAlerts(Filter(orgUnits, IsBranchUnit), orgUnits, items, ProductsOrNone(products)), ShortageLe())
  {
    alerts := [];
    var branches := Filter(orgUnits, IsBranchUnit);
    var ps := ProductsOrNone(products);
    var i := 0;
    while i < |branches|
      invariant 0 <= i <= |branches|
      invariant alerts == AllAlerts(branches[..i], orgUnits, items, ps)
    {
      var branch := branches[i];
      AllAlertsSnoc(branches, orgUnits, items, ps, i);
      var headcount := OrInt(branch.headcount, 0);
      if headcount != 0 {
        var found := BranchShortages(branch, orgUnits, items, ps);
        alerts := alerts + found;
      }
      i := i + 1;
    }
    assert branches[..i] == branches;
    alerts := SortBy(alerts, ShortageLe());
  }

  lemma {:induction false} BranchAlertsPositive(branch: OrgUnit, units: seq<OrgUnit>, items: seq<StockItem>, products: seq<Product>)
    ensures forall k :: 0 <= k < |BranchAlerts(branch, units, items, products)| ==> BranchAlerts(branch, units, items, products)[k].shortage >= 1
    decreases |products|
  {
    if products != [] {
      BranchAlertsPositive(branch, units, items, products[..|products| - 1]);
    }
  }

  lemma {:induction false} AllAlertsPositive(branches: seq<OrgUnit>, units: seq<OrgUnit>, items: seq<StockItem>, products: seq<Product>)
    ensures forall k :: 0 <= k < |AllAlerts(branches, units, items, products)| ==> AllAlerts(branches, units, items, products)[k].shortage >= 1
    decreases |branches|
  {
    if branches != [] {
      AllAlertsPositive(branches[..|branches| - 1], units, items, products);
      BranchAlertsPositive(branches[|branches| - 1], units, items, products);
    }
  }

  /** The sorted alerts are the branch-by-branch alerts rearranged, all with a shortage of at
    * least one, largest first, and alerts with equal shortage keep the order they were found in. */
  lemma ShortageAlertsOrdered(items: seq<StockItem>, orgUnits: seq<OrgUnit>, products: seq<Product>, c: ShortageAlert)
    ensures var found := AllAlerts(Filter(orgUnits, IsBranchUnit), orgUnits, items, products);
      var r := SortBy(found, ShortageLe());
      multiset(r) == multiset(found)
      && (forall k :: 0 <= k < |r| ==> r[k].shortage >= 1)
      && (forall k :: 0 <= k < |r| - 1 ==> r[k].shortage >= r[k + 1].shortage)
      && Ties(r, ShortageLe(), c) == Ties(found, ShortageLe(), c)
  {
    var found := AllAlerts(Filter(orgUnits, IsBranchUnit), orgUnits, items, products);
    var r := SortBy(found, ShortageLe());
    AllAlertsPositive(Filter(orgUnits, IsBranchUnit), orgUnits, items, products);
    forall k | 0 <= k < |r| ensures r[k].shortage >= 1 {
      assert r[k] in multiset(found);
    }
    ByKeyTotal((a: ShortageAlert) => -a.shortage);
    SortBySorted(found, ShortageLe());
    SortByStable(found, ShortageLe(), c);
  }

  // ---------------------------------------------------------------- the branch summary

  function LiveOfCategory(branch: string, c: FoodCategory): StockItem -> bool {
    (item: StockItem) => item.branch == branch && !item.donated && item.category == c
  }

  function Quantities(items: seq<StockItem>): int {
    if items == [] then 0 else Quantities(items[..|items| - 1]) + items[|items| - 1].quantity
  }

  /** One step of `getBranchStockSummary`'s loop. */
  function SummaryStep(summary: map<FoodCategory, int>, item: StockItem, branch: string): map<FoodCategory, int> {
    if item.branch == branch && !item.donated then
      summary[item.category := (if item.category in summary then summary[item.category] else 0) + item.quantity]
    else summary
  }

  function SummaryOf(items: seq<StockItem>, branch: string): map<FoodCategory, int> {
    if items == [] then map[] else SummaryStep(SummaryOf(items[..|items| - 1], branch), items[|items| - 1], branch)
  }

  lemma FilterSnoc<T>(s: seq<T>, x: T, p: T -> bool)
    ensures Filter(s + [x], p) == Filter(s, p) + if p(x) then [x] else []
  {
    FilterAppend(s, [x], p);
    assert [x][1..] == [];
  }

  lemma {:induction false} SummaryOfKeys(items: seq<StockItem>, branch: string, c: FoodCategory)
    ensures c in SummaryOf(items, branch) <==> Count(items, LiveOfCategory(branch, c)) > 0
    decreases |items|
  {
    if items != [] {
      var n := |items| - 1;
      SummaryOfKeys(items[..n], branch, c);
      assert items == items[..n] + [items[n]];
      FilterSnoc(items[..n], items[n], LiveOfCategory(branch, c));
    }
  }

  lemma QuantitiesSnoc(f: seq<StockItem>, item: StockItem)
    ensures Quantities(f + [item]) == Quantities(f) + item.quantity
  {
    assert (f + [item])[..|f|] == f;
  }

  lemma SummaryStepValue(summary: map<FoodCategory, int>, item: StockItem, branch: string, c: FoodCategory)
    requires c in SummaryStep(summary, item, branch)
    ensures SummaryStep(summary, item, branch)[c]
      == (if c in summary then summary[c] else 0) + (if LiveOfCategory(branch, c)(item) then item.quantity else 0)
  {
  }

  lemma {:induction false} SummaryOfValues(items: seq<StockItem>, branch: string, c: FoodCategory)
    requires c in SummaryOf(items, branch)
    ensures SummaryOf(items, branch)[c] == Quantities(Filter(items, LiveOfCategory(branch, c)))
    decreases |items|
  {
    var n := |items| - 1;
    var init := items[..n];
    var item := items[n];
    var prev := SummaryOf(init, branch);
    assert items == init + [item];
    assert SummaryOf(items, branch) == SummaryStep(prev, item, branch);
    SummaryStepValue(prev, item, branch, c);
    FilterSnoc(init, item, LiveOfCategory(branch, c));
    var f := Filter(init, LiveOfCategory(branch, c));
    if c in prev {
      SummaryOfValues(init, branch, c);
    } else {
      SummaryOfKeys(init, branch, c);
      assert f == [];
    }
    if LiveOfCategory(branch, c)(item) {
      QuantitiesSnoc(f, item);
    } else {
      assert f + [] == f;
    }
  }

  /** `getBranchStockSummary`: for each category with live rows of the branch, the sum of their
    * quantities; donated rows and other branches left out; no entry for other categories. */
  method GetBranchStockSummary(items: seq<StockItem>, branchNameOrId: string) returns (summary: map<FoodCategory, int>)
    ensures forall c :: c in summary <==> Count(items, LiveOfCategory(branchNameOrId, c)) > 0
    ensures forall c :: c in summary ==> summary[c] == Quantities(Filter(items, LiveOfCategory(branchNameOrId, c)))
  {
    summary := map[];
    var i := 0;
    while i < |items|
      invariant 0 <= i <= |items|
      invariant summary == SummaryOf(items[..i], branchNameOrId)
    {
      var item := items[i];
      assert items[..i + 1][..i] == items[..i];
      if item.branch == branchNameOrId && !item.donated {
        summary := summary[item.category := (if item.category in summary then summary[item.category] else 0) + item.quantity];
      }
      assert summary == SummaryStep(SummaryOf(items[..i], branchNameOrId), item, branchNameOrId);
      i := i + 1;
    }
    assert items[..i] == items;
    forall c {
      SummaryOfKeys(items, branchNameOrId, c);
    }
    forall c | c in summary {
      SummaryOfValues(items, branchNameOrId, c);
    }
  }

  // ---------------------------------------------------------------- ordering and filtering

  /** `sortByExpiration`: the rows in expiry order, the order of rows with the same date kept;
    * `time` stands for reading an expiry date as a point in time. The input is a value and is
    * not reordered. */
  function SortByExpiration(items: seq<StockItem>, time: string -> int): (r: seq<StockItem>)
    ensures multiset(r) == multiset(items)
    ensures forall k :: 0 <= k < |r| - 1 ==> time(r[k].expirationDate) <= time(r[k + 1].expirationDate)
  {
    var le := ByKey((i: StockItem) => time(i.expirationDate));
    ByKeyTotal((i: StockItem) => time(i.expirationDate));
    SortBySorted(items, le);
    SortBy(items, le)
  }

  /** `filterItems`'s three tests. */
  predicate Shown(item: StockItem, selectedBranch: Option<string>, selectedStorageLocations: seq<string>, showDonated: bool) {
    (showDonated || !item.donated)
    && (selectedBranch.None? || selectedBranch.value == "" || item.branch == selectedBranch.value)
    && (|selectedStorageLocations| == 0 || item.storageLocation in selectedStorageLocations)
  }

  function ShownTest(selectedBranch: Option<string>, selectedStorageLocations: seq<string>, showDonated: bool): StockItem -> bool {
    (item: StockItem) => Shown(item, selectedBranch, selectedStorageLocations, showDonated)
  }

  /** `filterItems`: the rows passing the donated, branch and storage tests, in order: the rows
    * at the increasing positions `KeptFrom` lists, which are every position whose row passes. */
  function FilterItems(items: seq<StockItem>, selectedBranch: Option<string>, selectedStorageLocations: seq<string>,
                       showDonated: bool): (r: seq<StockItem>)
    ensures forall k :: 0 <= k < |r| ==> r[k] in items
    ensures forall k :: 0 <= k < |r| ==> showDonated || !r[k].donated
    ensures forall k :: 0 <= k < |r| ==> selectedBranch.Some? && selectedBranch.value != "" ==> r[k].branch == selectedBranch.value
    ensures forall k :: 0 <= k < |r| ==> |selectedStorageLocations| > 0 ==> r[k].storageLocation in selectedStorageLocations
    ensures forall k :: 0 <= k < |items| && Shown(items[k], selectedBranch, selectedStorageLocations, showDonated) ==> items[k] in r
    ensures var kept := KeptFrom(items, ShownTest(selectedBranch, selectedStorageLocations, showDonated), 0);
      |r| == |kept| && forall k :: 0 <= k < |r| ==> r[k] == items[kept[k]]
  {
    var test := ShownTest(selectedBranch, selectedStorageLocations, showDonated);
    FilterAtKept(items, test, 0);
    assert items[0..] == items;
    Filter(items, test)
  }

  /** With nothing selected and donated rows shown, every row is listed, in order. */
  lemma FilterItemsNothingSelected(items: seq<StockItem>)
    ensures FilterItems(items, None, [], true) == items
  {
    FilterAll(items, ShownTest(None, [], true));
  }

  // ---------------------------------------------------------------- branch and place lists

  /** `extractBranches`: every branch named by a row, once each, in string order. */
  method ExtractBranches(items: seq<StockItem>) returns (r: seq<string>)
    ensures Distinct(r) && SortedBy(r, LexLe)
    ensures forall b :: b in r <==> exists k :: 0 <= k < |items| && items[k].branch == b
  {
    var branches: seq<string> := [];
    var i := 0;
    while i < |items|
      invariant 0 <= i <= |items|
      invariant Distinct(branches)
      invariant forall b :: b in branches <==> exists k :: 0 <= k < i && items[k].branch == b
    {
      if items[i].branch !in branches {
        branches := branches + [items[i].branch];
      }
      i := i + 1;
    }
    r := SortStrings(branches);
    DistinctPermutation(branches, r);
    forall b ensures b in r <==> b in branches {
      assert b in r <==> b in multiset(r);
    }
  }

  /** `extractStorageLocations`: every storage place of the branch's rows, once each, in string
    * order. */
  method ExtractStorageLocations(items: seq<StockItem>, branch: string) returns (r: seq<string>)
    ensures Distinct(r) && SortedBy(r, LexLe)
    ensures forall s :: s in r <==> exists k :: 0 <= k < |items| && items[k].branch == branch && items[k].storageLocation == s
  {
    var locations: seq<string> := [];
    var i := 0;
    while i < |items|
      invariant 0 <= i <= |items|
      invariant Distinct(locations)
      invariant forall s :: s in locations <==> exists k :: 0 <= k < i && items[k].branch == branch && items[k].storageLocation == s
    {
      if items[i].branch == branch && items[i].storageLocation !in locations {
        locations := locations + [items[i].storageLocation];
      }
      i := i + 1;
    }
    r := SortStrings(locations);
    DistinctPermutation(locations, r);
    forall s ensures s in r <==> s in locations {
      assert s in r <==> s in multiset(r);
    }
  }
}
