/** The business-continuity sufficiency engine: for every organisation unit that has people, the
  * water and meals its stock provides against three litres and three meals per person per day,
  * pooling the stock of the unit's whole subtree. */
module BcpCalculations {
  import opened Wrappers
  import opened SeqUtil
  import opened Strings
  import opened StockTypes

  // ---------------------------------------------------------------- descendants

  /** A ranking of unit ids that drops along every parent link. Such a ranking exists exactly when
    * the parent links have no cycle, which `findDescendants` relies on to terminate. */
  predicate Ranked(units: seq<OrgUnit>, rank: string -> nat) {
    forall i :: 0 <= i < |units| && units[i].parentId.Some? ==> rank(units[i].id) < rank(units[i].parentId.value)
  }

  function ChildOf(parentId: string): OrgUnit -> bool {
    (u: OrgUnit) => u.parentId == Some(parentId)
  }

  /** `findDescendants(parentId, units)`: the children of `parentId`, then, child by child, the
    * descendants of each. */
  function Descendants(parentId: string, units: seq<OrgUnit>, rank: string -> nat): seq<OrgUnit>
    requires Ranked(units, rank)
    decreases rank(parentId), 1, 0
  {
    var children := Filter(units, ChildOf(parentId));
    children + DescendantsOfAll(children, parentId, units, rank)
  }

  function DescendantsOfAll(cs: seq<OrgUnit>, parentId: string, units: seq<OrgUnit>, rank: string -> nat): seq<OrgUnit>
    requires Ranked(units, rank)
    requires forall k :: 0 <= k < |cs| ==> cs[k] in units && cs[k].parentId == Some(parentId)
    decreases rank(parentId), 0, |cs|
  {
    if cs == [] then []
    else
      var c := cs[0];
      var i :| 0 <= i < |units| && units[i] == c;
      Descendants(c.id, units, rank) + DescendantsOfAll(cs[1..], parentId, units, rank)
  }

  /** `u` hangs below the unit `p`, one or more parent links away. */
  ghost predicate Below(units: seq<OrgUnit>, rank: string -> nat, u: OrgUnit, p: string)
    decreases rank(p)
  {
    u in units
    && (u.parentId == Some(p)
        || exists c :: c in units && c.parentId == Some(p) && rank(c.id) < rank(p) && Below(units, rank, u, c.id))
  }

  lemma {:induction false} DescendantsSound(p: string, units: seq<OrgUnit>, rank: string -> nat, x: OrgUnit)
    requires Ranked(units, rank)
    requires x in Descendants(p, units, rank)
    ensures Below(units, rank, x, p)
    decreases rank(p), 1, 0
  {
    var children := Filter(units, ChildOf(p));
    if x !in children {
      DescendantsOfAllSound(children, p, units, rank, x);
    }
  }

  lemma {:induction false} DescendantsOfAllSound(cs: seq<OrgUnit>, p: string, units: seq<OrgUnit>, rank: string -> nat, x: OrgUnit)
    requires Ranked(units, rank)
    requires forall k :: 0 <= k < |cs| ==> cs[k] in units && cs[k].parentId == Some(p)
    requires x in DescendantsOfAll(cs, p, units, rank)
    ensures Below(units, rank, x, p)
    decreases rank(p), 0, |cs|
  {
    var c := cs[0];
    var i :| 0 <= i < |units| && units[i] == c;
    if x in Descendants(c.id, units, rank) {
      DescendantsSound(c.id, units, rank, x);
      assert c in units && c.parentId == Some(p) && rank(c.id) < rank(p) && Below(units, rank, x, c.id);
    } else {
      DescendantsOfAllSound(cs[1..], p, units, rank, x);
    }
  }

  lemma {:induction false} InDescendantsOfAll(cs: seq<OrgUnit>, p: string, units: seq<OrgUnit>, rank: string -> nat, c: OrgUnit, x: OrgUnit)
    requires Ranked(units, rank)
    requires forall k :: 0 <= k < |cs| ==> cs[k] in units && cs[k].parentId == Some(p)
    requires c in cs && x in Descendants(c.id, units, rank)
    ensures x in DescendantsOfAll(cs, p, units, rank)
    decreases |cs|
  {
    if cs[0] != c {
      InDescendantsOfAll(cs[1..], p, units, rank, c, x);
    }
  }

  lemma {:induction false} DescendantsComplete(p: string, units: seq<OrgUnit>, rank: string -> nat, x: OrgUnit)
    requires Ranked(units, rank)
    requires Below(units, rank, x, p)
    ensures x in Descendants(p, units, rank)
    decreases rank(p)
  {
    var children := Filter(units, ChildOf(p));
    if x.parentId == Some(p) {
      var i :| 0 <= i < |units| && units[i] == x;
      assert ChildOf(p)(units[i]);
    } else {
      var c :| c in units && c.parentId == Some(p) && rank(c.id) < rank(p) && Below(units, rank, x, c.id);
      DescendantsComplete(c.id, units, rank, x);
      var i :| 0 <= i < |units| && units[i] == c;
      assert ChildOf(p)(units[i]);
      InDescendantsOfAll(children, p, units, rank, c, x);
    }
  }

  /** A unit is below itself only along a cycle, so a ranked list never lists the start unit. */
  lemma {:induction false} BelowRanksLower(units: seq<OrgUnit>, rank: string -> nat, x: OrgUnit, p: string)
    requires Ranked(units, rank)
    requires Below(units, rank, x, p)
    ensures rank(x.id) < rank(p)
    decreases rank(p)
  {
    var i :| 0 <= i < |units| && units[i] == x;
    if x.parentId != Some(p) {
      var c :| c in units && c.parentId == Some(p) && rank(c.id) < rank(p) && Below(units, rank, x, c.id);
      BelowRanksLower(units, rank, x, c.id);
    }
  }

  /** `findDescendants` returns exactly the units reachable through parent links, never the start
    * unit itself. */
  lemma DescendantsAreBelow(p: string, units: seq<OrgUnit>, rank: string -> nat, x: OrgUnit)
    requires Ranked(units, rank)
    ensures x in Descendants(p, units, rank) <==> Below(units, rank, x, p)
    ensures x in Descendants(p, units, rank) ==> x.id != p
  {
    if x in Descendants(p, units, rank) {
      DescendantsSound(p, units, rank, x);
      BelowRanksLower(units, rank, x, p);
    }
    if Below(units, rank, x, p) {
      DescendantsComplete(p, units, rank, x);
    }
  }

  // ---------------------------------------------------------------- per-product figures

  /** The index of the last product with that name: the one a name-keyed `Map` built from the
    * list keeps. */
  function LastNamed(products: seq<Product>, name: string): (k: int)
    ensures -1 <= k < |products|
    ensures k >= 0 ==> products[k].name == name && forall j :: k < j < |products| ==> products[j].name != name
    ensures k == -1 <==> forall j :: 0 <= j < |products| ==> products[j].name != name
  {
    if products == [] then -1
    else if products[|products| - 1].name == name then |products| - 1
    else LastNamed(products[..|products| - 1], name)
  }

  function ProductNamed(products: seq<Product>, name: string): Option<Product> {
    var k := LastNamed(products, name);
    if k == -1 then None else Some(products[k])
  }

  /** Both content fields set, as `product.contentPerUnit && product.contentUnit` tests them. */
  predicate HasContent(p: Product) {
    TruthyReal(p.contentPerUnit) && OptOrStr(p.contentUnit, "") != ""
  }

  /** Litres in one unit of a water product: the content in litres or millilitres, by the content
    * unit; without a content figure, 2 for a name with `2L` and 0.5 for one with `500ml`. */
  function LitresPerUnit(p: Product): real {
    if HasContent(p) then
      var u := LowerAscii(p.contentUnit.value);
      if u == "l" || u == "リットル" then p.contentPerUnit.value
      else if u == "ml" || u == "ミリリットル" then p.contentPerUnit.value / 1000.0
      else 0.0
    else if !TruthyReal(p.contentPerUnit) && Contains(p.name, "2L") then 2.0
    else if !TruthyReal(p.contentPerUnit) && Contains(p.name, "500ml") then 0.5
    else 0.0
  }

  /** The same volume written in litres or in millilitres, in any letter case, gives the same
    * litres per unit. */
  lemma LitresUnitConsistent(p: Product, litres: real, lUnit: string, mlUnit: string)
    requires litres != 0.0
    requires lUnit == "L" || lUnit == "l" || lUnit == "リットル"
    requires mlUnit == "ML" || mlUnit == "Ml" || mlUnit == "mL" || mlUnit == "ml" || mlUnit == "ミリリットル"
    ensures LitresPerUnit(p.(contentPerUnit := Some(litres), contentUnit := Some(lUnit))) == litres
    ensures LitresPerUnit(p.(contentPerUnit := Some(litres * 1000.0), contentUnit := Some(mlUnit))) == litres
  {
    var q := p.(contentPerUnit := Some(litres * 1000.0), contentUnit := Some(mlUnit));
    assert HasContent(q);
    assert LowerAscii(mlUnit) == "ml" || LowerAscii(mlUnit) == "ミリリットル";
    assert LowerAscii(lUnit) == "l" || LowerAscii(lUnit) == "リットル";
  }

  /** Meals in one unit of a staple or canned product: the content figure when its unit counts
    * meals (`食`), nothing for another unit, and one meal when no content is given. */
  function MealsPerUnit(p: Product): real {
    if HasContent(p) then
      if Contains(LowerAscii(p.contentUnit.value), "食") then p.contentPerUnit.value else 0.0
    else 1.0
  }

  /** Litres a stock row adds: nothing without a product of its name or outside the water
    * category. */
  function ItemLitres(item: StockItem, products: seq<Product>): real {
    match ProductNamed(products, item.name)
    case None => 0.0
    case Some(p) => if p.category == Water then LitresPerUnit(p) * item.quantity as real else 0.0
  }

  /** Meals a stock row adds: nothing without a product of its name or outside the staple and
    * canned categories. */
  function ItemMeals(item: StockItem, products: seq<Product>): real {
    match ProductNamed(products, item.name)
    case None => 0.0
    case Some(p) => if p.category == Staple || p.category == Canned then MealsPerUnit(p) * item.quantity as real else 0.0
  }

  /** A row whose name no product carries, or whose product is neither water nor food, adds
    * nothing to either total. */
  lemma UnmatchedItemsCountNothing(item: StockItem, products: seq<Product>)
    ensures (forall j :: 0 <= j < |products| ==> products[j].name != item.name) ==>
      ItemLitres(item, products) == 0.0 && ItemMeals(item, products) == 0.0
    ensures (forall j :: 0 <= j < |products| && products[j].name == item.name ==> products[j].category !in {Water, Staple, Canned}) ==>
      ItemLitres(item, products) == 0.0 && ItemMeals(item, products) == 0.0
  {
    var k := LastNamed(products, item.name);
    if k >= 0 {
      assert products[k].name == item.name;
    }
  }

  function WaterOf(pool: seq<StockItem>, products: seq<Product>): real {
    if pool == [] then 0.0 else WaterOf(pool[..|pool| - 1], products) + ItemLitres(pool[|pool| - 1], products)
  }

  function MealsOf(pool: seq<StockItem>, products: seq<Product>): real {
    if pool == [] then 0.0 else MealsOf(pool[..|pool| - 1], products) + ItemMeals(pool[|pool| - 1], products)
  }

  // ---------------------------------------------------------------- rates

  /** `r` has at most one decimal. */
  predicate IsTenths(r: real) {
    (r * 10.0).Floor as real == r * 10.0
  }

  /** `Math.round(x * 10) / 10`: the multiple of a tenth nearest to `x`, half-tenths rounding
    * upwards. */
  function RoundTenth(x: real): (r: real)
    ensures IsTenths(r)
    ensures r - 0.05 <= x < r + 0.05
  {
    var n := (x * 10.0 + 0.5).Floor;
    assert n as real / 10.0 * 10.0 == n as real;
    n as real / 10.0
  }

  /** Only one multiple of a tenth lies within a half-tenth of `x` (below it or at it), so the
    * two clauses of `RoundTenth` fix its result. */
  lemma RoundTenthUnique(x: real, y: real)
    requires IsTenths(y) && y - 0.05 <= x < y + 0.05
    ensures y == RoundTenth(x)
  {
    var r := RoundTenth(x);
    var m, k := (y * 10.0).Floor, (r * 10.0).Floor;
    assert m as real == y * 10.0 && k as real == r * 10.0;
    assert (m - k) as real < 1.0 && (k - m) as real < 1.0;
  }

  /** The sufficiency percentage `current / target * 100` rounded to a tenth, 0 when nothing is
    * required, and not capped. */
  function Rate(current: real, target: int): (r: real)
    ensures target <= 0 ==> r == 0.0
    ensures target > 0 ==> IsTenths(r) && r - 0.05 <= current / target as real * 100.0 < r + 0.05
  {
    if target > 0 then RoundTenth(current / target as real * 100.0) else 0.0
  }

  /** Twice the requirement reads as 200%, not 100%. */
  lemma RateNotCapped(target: int)
    requires target > 0
    ensures Rate(2.0 * target as real, target) == 200.0
  {
    assert 2.0 * target as real / target as real == 2.0;
    assert (2000.0 + 0.5).Floor == 2000;
  }

  // ---------------------------------------------------------------- statuses

  datatype BcpStatus = BcpStatus(
    orgUnitId: string,
    orgUnitName: string,
    headcount: int,
    requiredDays: int,
    targetWaterLiters: int,
    targetFoodMeals: int,
    currentWaterLiters: real,
    currentFoodMeals: real,
    waterSufficiencyRate: real,
    foodSufficiencyRate: real)

  /** The units a status is made for: those with a positive headcount or target population. */
  predicate IsTargetUnit(u: OrgUnit) {
    (u.headcount.Some? && u.headcount.value > 0) || (u.bcpTargetPeople.Some? && u.bcpTargetPeople.value > 0)
  }

  /** The people a unit plans for: its target population, else its headcount, else 0. */
  function Population(u: OrgUnit): int {
    OrInt(u.bcpTargetPeople, OrInt(u.headcount, 0))
  }

  /** The days a unit plans for: its target days, else 3. */
  function PlanDays(u: OrgUnit): int {
    OrInt(u.bcpTargetDays, 3)
  }

  /** A row counts for `unit` when it is stored at the unit or one of its descendants, or when
    * its branch field carries the unit's name. */
  function InPool(unit: OrgUnit, descendantIds: seq<string>, item: StockItem): bool {
    item.storageLocation == unit.id || item.storageLocation in descendantIds || item.branch == unit.name
  }

  function PoolTest(unit: OrgUnit, descendantIds: seq<string>): StockItem -> bool {
    (item: StockItem) => InPool(unit, descendantIds, item)
  }

  /** The rows pooled for `unit`, each row once, in row order. */
  function PoolOf(unit: OrgUnit, units: seq<OrgUnit>, items: seq<StockItem>, rank: string -> nat): seq<StockItem>
    requires Ranked(units, rank)
  {
    Filter(items, PoolTest(unit, IdsOf(Descendants(unit.id, units, rank))))
  }

  /** The pool is every row stored at the unit or at a unit below it, or named after the unit by
    * its branch field, and nothing else. */
  lemma PoolMembers(unit: OrgUnit, units: seq<OrgUnit>, items: seq<StockItem>, rank: string -> nat, item: StockItem)
    requires Ranked(units, rank)
    requires item in items
    ensures item in PoolOf(unit, units, items, rank) <==>
      item.storageLocation == unit.id
      || (exists d :: Below(units, rank, d, unit.id) && d.id == item.storageLocation)
      || item.branch == unit.name
  {
    var ds := Descendants(unit.id, units, rank);
    var test := PoolTest(unit, IdsOf(ds));
    var k :| 0 <= k < |items| && items[k] == item;
    assert item in PoolOf(unit, units, items, rank) <==> test(items[k]);
    if item.storageLocation in IdsOf(ds) {
      var j :| 0 <= j < |ds| && IdsOf(ds)[j] == item.storageLocation;
      DescendantsAreBelow(unit.id, units, rank, ds[j]);
    }
    if exists d :: Below(units, rank, d, unit.id) && d.id == item.storageLocation {
      var d :| Below(units, rank, d, unit.id) && d.id == item.storageLocation;
      DescendantsAreBelow(unit.id, units, rank, d);
      var j :| 0 <= j < |ds| && ds[j] == d;
      assert IdsOf(ds)[j] == item.storageLocation;
    }
  }

  /** The status of one unit. */
  function StatusFor(unit: OrgUnit, units: seq<OrgUnit>, items: seq<StockItem>, products: seq<Product>,
                     rank: string -> nat): (s: BcpStatus)
    requires Ranked(units, rank)
    ensures s.orgUnitId == unit.id && s.orgUnitName == unit.name
    ensures s.targetWaterLiters == s.targetFoodMeals == s.headcount * 3 * s.requiredDays
    ensures s.waterSufficiencyRate == Rate(s.currentWaterLiters, s.targetWaterLiters)
    ensures s.foodSufficiencyRate == Rate(s.currentFoodMeals, s.targetFoodMeals)
    ensures s.currentWaterLiters == WaterOf(PoolOf(unit, units, items, rank), products)
    ensures s.currentFoodMeals == MealsOf(PoolOf(unit, units, items, rank), products)
  {
    var people := Population(unit);
    var days := PlanDays(unit);
    var pool := PoolOf(unit, units, items, rank);
    var water := WaterOf(pool, products);
    var meals := MealsOf(pool, products);
    BcpStatus(unit.id, unit.name, people, days, people * 3 * days, people * 3 * days,
              water, meals, Rate(water, people * 3 * days), Rate(meals, people * 3 * days))
  }

  /** Population and days fall back in the documented order: target people, headcount, 0; target
    * days, 3. */
  lemma StatusPlanFigures(unit: OrgUnit, units: seq<OrgUnit>, items: seq<StockItem>, products: seq<Product>,
                          rank: string -> nat)
    requires Ranked(units, rank)
    ensures var s := StatusFor(unit, units, items, products, rank);
      (Truthy(unit.bcpTargetPeople) ==> s.headcount == unit.bcpTargetPeople.value)
      && (!Truthy(unit.bcpTargetPeople) && Truthy(unit.headcount) ==> s.headcount == unit.headcount.value)
      && (!Truthy(unit.bcpTargetPeople) && !Truthy(unit.headcount) ==> s.headcount == 0)
      && (Truthy(unit.bcpTargetDays) ==> s.requiredDays == unit.bcpTargetDays.value)
      && (!Truthy(unit.bcpTargetDays) ==> s.requiredDays == 3)
  {
  }

  function StatusesOf(targets: seq<OrgUnit>, units: seq<OrgUnit>, items: seq<StockItem>, products: seq<Product>,
                      rank: string -> nat): (r: seq<BcpStatus>)
    requires Ranked(units, rank)
    ensures |r| == |targets|
    ensures forall k :: 0 <= k < |targets| ==> r[k] == StatusFor(targets[k], units, items, products, rank)
  {
    if targets == [] then []
    else StatusesOf(targets[..|targets| - 1], units, items, products, rank)
         + [StatusFor(targets[|targets| - 1], units, items, products, rank)]
  }

  /** The totals loop of `calculateBCPStatus`: litres and meals summed over the pooled rows. */
  method SumPool(unitStock: seq<StockItem>, products: seq<Product>) returns (currentWaterLiters: real, currentFoodMeals: real)
    ensures currentWaterLiters == WaterOf(unitStock, products)
    ensures currentFoodMeals == MealsOf(unitStock, products)
  {
    currentWaterLiters := 0.0;
    currentFoodMeals := 0.0;
    var j := 0;
    while j < |unitStock|
      invariant 0 <= j <= |unitStock|
      invariant currentWaterLiters == WaterOf(unitStock[..j], products)
      invariant currentFoodMeals == MealsOf(unitStock[..j], products)
    {
      var item := unitStock[j];
      assert unitStock[..j + 1][..j] == unitStock[..j];
      var product := ProductNamed(products, item.name);
      if product.Some? {
        var qty := item.quantity as real;
        if product.value.category == Water {
          currentWaterLiters := currentWaterLiters + LitresPerUnit(product.value) * qty;
        } else if product.value.category == Staple || product.value.category == Canned {
          currentFoodMeals := currentFoodMeals + MealsPerUnit(product.value) * qty;
        }
      }
      j := j + 1;
    }
    assert unitStock[..j] == unitStock;
  }

  /** `calculateBCPStatus`: one status per unit with people, in list order. */
  method CalculateBcpStatus(orgUnits: seq<OrgUnit>, items: seq<StockItem>, products: seq<Product>,
                            rank: string -> nat) returns (statuses: seq<BcpStatus>)
    requires Ranked(orgUnits, rank)
    ensures |statuses| == Count(orgUnits, IsTargetUnit)
    ensures statuses == StatusesOf(Filter(orgUnits, IsTargetUnit), orgUnits, items, products, rank)
  {
    statuses := [];
    var targetUnits := Filter(orgUnits, IsTargetUnit);
    var i := 0;
    while i < |targetUnits|
      invariant 0 <= i <= |targetUnits|
      invariant statuses == StatusesOf(targetUnits[..i], orgUnits, items, products, rank)
    {
      var unit := targetUnits[i];
      assert targetUnits[..i + 1][..i] == targetUnits[..i];
      var headcount := OrInt(unit.bcpTargetPeople, OrInt(unit.headcount, 0));
      var days := OrInt(unit.bcpTargetDays, 3);
      var targetWaterLiters := headcount * 3 * days;
      var targetFoodMeals := headcount * 3 * days;
      var childUnits := Descendants(unit.id, orgUnits, rank);
      var unitStock := Filter(items, PoolTest(unit, IdsOf(childUnits)));
      var currentWaterLiters, currentFoodMeals := SumPool(unitStock, products);
      var status := BcpStatus(unit.id, unit.name, headcount, days, targetWaterLiters, targetFoodMeals,
                              currentWaterLiters, currentFoodMeals,
                              Rate(currentWaterLiters, targetWaterLiters), Rate(currentFoodMeals, targetFoodMeals));
      assert status == StatusFor(unit, orgUnits, items, products, rank);
      statuses := statuses + [status];
      i := i + 1;
    }
    assert targetUnits[..i] == targetUnits;
  }
}
