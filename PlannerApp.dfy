/** The meal planner's board logic: where a dragged card was dropped, which plan a slot id
  * addresses, and what each kind of drop does to the weekly plan table; the day-type toggle;
  * and the week shown. The table is a sequence in creation order whose ids are unique. */
module PlannerApp {
  import opened Wrappers
  import opened SeqUtil
  import opened Strings
  import opened MealTypes
  import opened Calendar

  const SidebarId := "sidebar-bookshelf"
  const RecipePrefix := "recipe-"
  const PlanPrefix := "plan-"

  /** Where a drag ended: nowhere, on the recipe shelf, on a slot of the board (any other id
    * with a '-'), or somewhere else. */
  datatype DropTarget = NoTarget | Sidebar | SlotTarget(id: string) | Elsewhere

  function Classify(over: Option<string>): (t: DropTarget)
    ensures t.NoTarget? <==> over.None?
    ensures t.Sidebar? <==> over == Some(SidebarId)
    ensures t.SlotTarget? <==> over.Some? && '-' in over.value && over.value != SidebarId
    ensures t.SlotTarget? ==> t.id == over.value
  {
    match over
    case None => NoTarget
    case Some(id) =>
      if id == SidebarId then Sidebar
      else if '-' in id then SlotTarget(id)
      else Elsewhere
  }

  /** The slot a drop id addresses: a date key, a slot type and which plan of that type (the
    * second side dish is index 1). */
  datatype Slot = Slot(date: string, slotType: string, index: nat)

  /** `substring(0, 10)`: the first ten characters, or all of a shorter id. */
  function DatePart(id: string): (r: string)
    ensures |id| >= 10 ==> r == id[..10]
    ensures |id| < 10 ==> r == id
  {
    if |id| >= 10 then id[..10] else id
  }

  /** `substring(11)`: what follows the date and its separator, or nothing. */
  function SlotPart(id: string): (r: string)
    ensures |id| > 11 ==> r == id[11..]
    ensures |id| <= 11 ==> r == ""
  {
    if |id| > 11 then id[11..] else ""
  }

  /** The slot-id decoding of both drops onto the board: a rest starting with "side", "main" or
    * "soup" names that slot type, any other rest is taken as the slot type itself; only a rest
    * of exactly "side-2" addresses the second plan. */
  function DecodeSlot(id: string): (s: Slot)
    ensures s.date == DatePart(id)
    ensures StartsWith(SlotPart(id), "side") ==> s.slotType == "side"
    ensures StartsWith(SlotPart(id), "main") ==> s.slotType == "main"
    ensures StartsWith(SlotPart(id), "soup") ==> s.slotType == "soup"
    ensures !StartsWith(SlotPart(id), "side") && !StartsWith(SlotPart(id), "main") && !StartsWith(SlotPart(id), "soup")
      ==> s.slotType == SlotPart(id)
    ensures s.index == 1 <==> SlotPart(id) == "side-2"
    ensures s.index <= 1
  {
    var rest := SlotPart(id);
    var slotType := if StartsWith(rest, "side") then "side"
      else if StartsWith(rest, "main") then "main"
      else if StartsWith(rest, "soup") then "soup"
      else rest;
    Slot(DatePart(id), slotType, if rest == "side-2" then 1 else 0)
  }

  function InSlot(date: string, slotType: string): PlanItem -> bool {
    (p: PlanItem) => p.date == date && p.slotType == slotType
  }

  /** `findVictim`: the `index`-th plan, in table order, of that date and slot type. */
  function FindVictim(plans: seq<PlanItem>, date: string, slotType: string, index: nat): (v: Option<PlanItem>)
    ensures v.Some? <==> index < Count(plans, InSlot(date, slotType))
    ensures v.Some? ==> v.value == Filter(plans, InSlot(date, slotType))[index]
    ensures v.Some? ==> v.value in plans && v.value.date == date && v.value.slotType == slotType
  {
    var candidates := Filter(plans, InSlot(date, slotType));
    if index < |candidates| then Some(candidates[index]) else None
  }

  function Ids(plans: seq<PlanItem>): (r: seq<string>)
    ensures |r| == |plans| && forall k :: 0 <= k < |plans| ==> r[k] == plans[k].id
  {
    if plans == [] then [] else [plans[0].id] + Ids(plans[1..])
  }

  // ---------------------------------------------------------------- table statements

  /** `update({recipe_id}).eq('id', id)`. */
  function WithRecipe(plans: seq<PlanItem>, id: string, recipeId: string): (r: seq<PlanItem>)
    ensures |r| == |plans|
    ensures forall k :: 0 <= k < |plans| ==>
      r[k] == (if plans[k].id == id then plans[k].(recipeId := recipeId) else plans[k])
  {
    if plans == [] then []
    else [if plans[0].id == id then plans[0].(recipeId := recipeId) else plans[0]] + WithRecipe(plans[1..], id, recipeId)
  }

  /** `delete().eq('id', id)`. */
  function WithoutId(plans: seq<PlanItem>, id: string): (r: seq<PlanItem>)
    ensures forall p :: p in r <==> p in plans && p.id != id
    ensures Ids(r) == Remove(Ids(plans), id)
  {
    if plans == [] then []
    else if plans[0].id == id then WithoutId(plans[1..], id)
    else [plans[0]] + WithoutId(plans[1..], id)
  }

  /** `update({date, slot_type}).eq('id', id)`. */
  function Moved(plans: seq<PlanItem>, id: string, date: string, slotType: string): (r: seq<PlanItem>)
    ensures |r| == |plans|
    ensures forall k :: 0 <= k < |plans| ==>
      r[k] == (if plans[k].id == id then plans[k].(date := date, slotType := slotType) else plans[k])
  {
    if plans == [] then []
    else [if plans[0].id == id then plans[0].(date := date, slotType := slotType) else plans[0]]
         + Moved(plans[1..], id, date, slotType)
  }

  /** `update({day_type}).eq('date', date)`. */
  function WithDayType(plans: seq<PlanItem>, date: string, t: DayType): (r: seq<PlanItem>)
    ensures |r| == |plans|
    ensures forall k :: 0 <= k < |plans| ==>
      r[k] == (if plans[k].date == date then plans[k].(dayType := t) else plans[k])
  {
    if plans == [] then []
    else [if plans[0].date == date then plans[0].(dayType := t) else plans[0]] + WithDayType(plans[1..], date, t)
  }

  // ---------------------------------------------------------------- drop effects

  /** A recipe dropped onto a slot: the plan there gets the recipe, or, with no plan there, a
    * work-day plan of the recipe is added for the slot. */
  function DropRecipe(plans: seq<PlanItem>, recipeId: string, slot: Slot, freshId: string): seq<PlanItem> {
    match FindVictim(plans, slot.date, slot.slotType, slot.index)
    case Some(victim) => WithRecipe(plans, victim.id, recipeId)
    case None => plans + [PlanItem(freshId, recipeId, slot.slotType, slot.date, Work)]
  }

  /** A plan dropped onto a slot: nothing when the plan there is itself; otherwise the plan there
    * is deleted and the dropped plan takes the slot's date and type. */
  function DropPlan(plans: seq<PlanItem>, planId: string, slot: Slot): seq<PlanItem> {
    match FindVictim(plans, slot.date, slot.slotType, slot.index)
    case Some(victim) =>
      if victim.id == planId then plans else Moved(WithoutId(plans, victim.id), planId, slot.date, slot.slotType)
    case None => Moved(plans, planId, slot.date, slot.slotType)
  }

  /** The recipe-card branch of `handleDragEnd`: the plan at the slot takes the recipe, or a new
    * plan is added at the end of the table. */
  method DropRecipeOnSlot(plans: seq<PlanItem>, recipeId: string, slot: Slot, freshId: string)
    returns (r: seq<PlanItem>)
    ensures r == DropRecipe(plans, recipeId, slot, freshId)
  {
    var victim := FindVictim(plans, slot.date, slot.slotType, slot.index);
    if victim.Some? {
      r := WithRecipe(plans, victim.value.id, recipeId);
    } else {
      r := plans + [PlanItem(freshId, recipeId, slot.slotType, slot.date, Work)];
    }
  }

  /** The plan-card branch of `handleDragEnd` for a slot: the plan at the slot, unless it is the
    * dragged one, is deleted before the dragged plan moves there. */
  method DropPlanOnSlot(plans: seq<PlanItem>, planId: string, slot: Slot) returns (r: seq<PlanItem>)
    ensures r == DropPlan(plans, planId, slot)
  {
    r := plans;
    var victim := FindVictim(plans, slot.date, slot.slotType, slot.index);
    if victim.Some? && victim.value.id == planId {
      return;
    }
    if victim.Some? {
      r := WithoutId(r, victim.value.id);
    }
    r := Moved(r, planId, slot.date, slot.slotType);
  }

  /** The branches of `handleDragEnd`, on the table it is given. */
  method DropOutcome(plans: seq<PlanItem>, activeId: string, over: Option<string>, freshId: string)
    returns (r: seq<PlanItem>)
    ensures r == AfterDrop(plans, activeId, over, freshId)
  {
    r := plans;
    var target := Classify(over);
    if target.NoTarget? {
      return;
    }
    // The three cases of the handler exclude one another: the card ids start with different
    // prefixes and the shelf is not a slot.
    PrefixesExclusive(activeId);
    if StartsWith(activeId, RecipePrefix) && target.SlotTarget? {
      r := DropRecipeOnSlot(plans, activeId[|RecipePrefix|..], DecodeSlot(target.id), freshId);
    } else if StartsWith(activeId, PlanPrefix) && target.Sidebar? {
      r := WithoutId(plans, activeId[|PlanPrefix|..]);
    } else if StartsWith(activeId, PlanPrefix) && target.SlotTarget? {
      r := DropPlanOnSlot(plans, activeId[|PlanPrefix|..], DecodeSlot(target.id));
    }
  }

  lemma PrefixesExclusive(activeId: string)
    ensures !(StartsWith(activeId, RecipePrefix) && StartsWith(activeId, PlanPrefix))
  {
    if StartsWith(activeId, RecipePrefix) {
      assert activeId[0] == 'r';
    }
  }

  /** `handleDragEnd` on the table: a recipe card onto a slot, a plan card onto the shelf, or a
    * plan card onto a slot; any other drag changes nothing. */
  function AfterDrop(plans: seq<PlanItem>, activeId: string, over: Option<string>, freshId: string): seq<PlanItem> {
    match Classify(over)
    case SlotTarget(id) =>
      if StartsWith(activeId, RecipePrefix) then DropRecipe(plans, activeId[|RecipePrefix|..], DecodeSlot(id), freshId)
      else if StartsWith(activeId, PlanPrefix) then DropPlan(plans, activeId[|PlanPrefix|..], DecodeSlot(id))
      else plans
    case Sidebar =>
      if StartsWith(activeId, PlanPrefix) then WithoutId(plans, activeId[|PlanPrefix|..]) else plans
    case _ => plans
  }

  lemma {:induction false} FilterWithRecipe(plans: seq<PlanItem>, id: string, recipeId: string, p: PlanItem -> bool)
    requires forall q: PlanItem :: p(q) == p(q.(recipeId := recipeId))
    ensures Filter(WithRecipe(plans, id, recipeId), p) == WithRecipe(Filter(plans, p), id, recipeId)
  {
    if plans != [] {
      FilterWithRecipe(plans[1..], id, recipeId, p);
      assert WithRecipe(plans, id, recipeId)[1..] == WithRecipe(plans[1..], id, recipeId);
    }
  }

  /** After a recipe is dropped onto a slot, the slot shows it: the addressed plan now has the
    * recipe, or, when the slot was past the plans of its type, the new plan is the first one
    * after them. Nothing else in the table changes. */
  lemma DropRecipeFillsSlot(plans: seq<PlanItem>, recipeId: string, slot: Slot, freshId: string)
    ensures var n := Count(plans, InSlot(slot.date, slot.slotType));
      var at := if slot.index < n then slot.index else n;
      var v := FindVictim(DropRecipe(plans, recipeId, slot, freshId), slot.date, slot.slotType, at);
      v.Some? && v.value.recipeId == recipeId
    ensures var r := DropRecipe(plans, recipeId, slot, freshId);
      (FindVictim(plans, slot.date, slot.slotType, slot.index).Some? ==> |r| == |plans|)
      && (FindVictim(plans, slot.date, slot.slotType, slot.index).None? ==>
            r == plans + [PlanItem(freshId, recipeId, slot.slotType, slot.date, Work)])
  {
    var p := InSlot(slot.date, slot.slotType);
    var r := DropRecipe(plans, recipeId, slot, freshId);
    var victim := FindVictim(plans, slot.date, slot.slotType, slot.index);
    if victim.Some? {
      FilterWithRecipe(plans, victim.value.id, recipeId, p);
    } else {
      var added := PlanItem(freshId, recipeId, slot.slotType, slot.date, Work);
      FilterAppend(plans, [added], p);
      assert Filter([added], p) == [added];
    }
  }

  /** A plan dropped onto the shelf is gone, and every other plan stays, in order. */
  lemma DropOnShelfDeletes(plans: seq<PlanItem>, planId: string)
    requires Distinct(Ids(plans))
    ensures var r := AfterDrop(plans, PlanPrefix + planId, Some(SidebarId), "");
      planId !in Ids(r) && Ids(r) == Remove(Ids(plans), planId)
      && (forall q :: q in r <==> q in plans && q.id != planId)
  {
    var activeId := PlanPrefix + planId;
    assert StartsWith(activeId, PlanPrefix) && activeId[|PlanPrefix|..] == planId;
  }

  /** A plan dropped onto another plan's slot: the other plan is deleted, the dropped plan now
    * has the slot's date and type, and the table loses exactly one row. */
  lemma DropPlanReplaces(plans: seq<PlanItem>, planId: string, slot: Slot, k: int)
    requires Distinct(Ids(plans))
    requires 0 <= k < |plans| && plans[k].id == planId
    requires FindVictim(plans, slot.date, slot.slotType, slot.index).Some?
    requires FindVictim(plans, slot.date, slot.slotType, slot.index).value.id != planId
    ensures var victim := FindVictim(plans, slot.date, slot.slotType, slot.index).value;
      var r := DropPlan(plans, planId, slot);
      |r| == |plans| - 1 && victim.id !in Ids(r)
      && plans[k].(date := slot.date, slotType := slot.slotType) in r
  {
    var victim := FindVictim(plans, slot.date, slot.slotType, slot.index).value;
    var rest := WithoutId(plans, victim.id);
    assert DropPlan(plans, planId, slot) == Moved(rest, planId, slot.date, slot.slotType);
    var vk :| 0 <= vk < |plans| && plans[vk] == victim;
    WithoutOneShrinks(plans, vk);
    IdsMoved(rest, planId, slot.date, slot.slotType);
    MovedContains(rest, planId, slot.date, slot.slotType, plans[k]);
  }

  lemma WithoutOneShrinks(plans: seq<PlanItem>, k: int)
    requires Distinct(Ids(plans)) && 0 <= k < |plans|
    ensures |WithoutId(plans, plans[k].id)| == |plans| - 1
  {
    assert Ids(plans)[k] == plans[k].id;
    RemoveDistinctOne(Ids(plans), k);
    assert |WithoutId(plans, plans[k].id)| == |Ids(WithoutId(plans, plans[k].id))|;
  }

  lemma MovedContains(plans: seq<PlanItem>, id: string, date: string, slotType: string, p: PlanItem)
    requires p in plans && p.id == id
    ensures p.(date := date, slotType := slotType) in Moved(plans, id, date, slotType)
  {
    var j :| 0 <= j < |plans| && plans[j] == p;
    assert Moved(plans, id, date, slotType)[j] == p.(date := date, slotType := slotType);
  }

  /** Removing a value that occurs once shortens a sequence by one. */
  lemma {:induction false} RemoveDistinctOne<T>(s: seq<T>, k: int)
    requires Distinct(s) && 0 <= k < |s|
    ensures |Remove(s, s[k])| == |s| - 1
  {
    if k == 0 {
      assert s[0] !in s[1..];
    } else {
      RemoveDistinctOne(s[1..], k - 1);
    }
  }

  /** A plan dropped onto its own slot changes nothing. */
  lemma DropPlanOnItself(plans: seq<PlanItem>, planId: string, slot: Slot)
    requires FindVictim(plans, slot.date, slot.slotType, slot.index).Some?
    requires FindVictim(plans, slot.date, slot.slotType, slot.index).value.id == planId
    ensures DropPlan(plans, planId, slot) == plans
  {
  }

  /** Every drop keeps the plan ids unique, given a fresh id for a new plan. */
  lemma AfterDropKeepsIdsDistinct(plans: seq<PlanItem>, activeId: string, over: Option<string>, freshId: string)
    requires Distinct(Ids(plans)) && freshId !in Ids(plans)
    ensures Distinct(Ids(AfterDrop(plans, activeId, over, freshId)))
  {
    var t := Classify(over);
    if t.SlotTarget? {
      if StartsWith(activeId, RecipePrefix) {
        DropRecipeKeepsIdsDistinct(plans, activeId[|RecipePrefix|..], DecodeSlot(t.id), freshId);
      } else if StartsWith(activeId, PlanPrefix) {
        DropPlanKeepsIdsDistinct(plans, activeId[|PlanPrefix|..], DecodeSlot(t.id));
      }
    } else if t.Sidebar? && StartsWith(activeId, PlanPrefix) {
      DistinctRemove(Ids(plans), activeId[|PlanPrefix|..]);
    }
  }

  lemma DropRecipeKeepsIdsDistinct(plans: seq<PlanItem>, recipeId: string, slot: Slot, freshId: string)
    requires Distinct(Ids(plans)) && freshId !in Ids(plans)
    ensures Distinct(Ids(DropRecipe(plans, recipeId, slot, freshId)))
  {
    var victim := FindVictim(plans, slot.date, slot.slotType, slot.index);
    if victim.Some? {
      IdsWithRecipe(plans, victim.value.id, recipeId);
    } else {
      var added := PlanItem(freshId, recipeId, slot.slotType, slot.date, Work);
      assert Ids(plans + [added]) == Ids(plans) + [freshId];
    }
  }

  lemma DropPlanKeepsIdsDistinct(plans: seq<PlanItem>, planId: string, slot: Slot)
    requires Distinct(Ids(plans))
    ensures Distinct(Ids(DropPlan(plans, planId, slot)))
  {
    var victim := FindVictim(plans, slot.date, slot.slotType, slot.index);
    if victim.Some? && victim.value.id != planId {
      var rest := WithoutId(plans, victim.value.id);
      DistinctRemove(Ids(plans), victim.value.id);
      IdsMoved(rest, planId, slot.date, slot.slotType);
    } else if victim.None? {
      IdsMoved(plans, planId, slot.date, slot.slotType);
    }
  }

  lemma IdsWithRecipe(plans: seq<PlanItem>, id: string, recipeId: string)
    ensures Ids(WithRecipe(plans, id, recipeId)) == Ids(plans)
  {
  }

  lemma IdsMoved(plans: seq<PlanItem>, id: string, date: string, slotType: string)
    ensures Ids(Moved(plans, id, date, slotType)) == Ids(plans)
  {
  }

  /** `handleToggleDayType`: every plan of that date gets the other day type than the one shown. */
  function ToggledDayType(plans: seq<PlanItem>, date: string, current: DayType): (r: seq<PlanItem>)
    ensures |r| == |plans| && Ids(r) == Ids(plans)
    ensures forall k :: 0 <= k < |plans| && plans[k].date == date ==> r[k].dayType == Flip(current)
    ensures forall k :: 0 <= k < |plans| && plans[k].date != date ==> r[k] == plans[k]
  {
    WithDayType(plans, date, Flip(current))
  }

  /** Toggling a day whose plans all had the shown type, and toggling back, restores the table. */
  lemma ToggleTwice(plans: seq<PlanItem>, date: string, current: DayType)
    requires forall k :: 0 <= k < |plans| && plans[k].date == date ==> plans[k].dayType == current
    ensures ToggledDayType(ToggledDayType(plans, date, current), date, Flip(current)) == plans
  {
    var r := ToggledDayType(ToggledDayType(plans, date, current), date, Flip(current));
    assert Flip(Flip(current)) == current;
    assert forall k :: 0 <= k < |plans| ==> r[k] == plans[k];
  }

  /** The planner: the plan table and the first day of the week shown. */
  class Planner {
    var plans: seq<PlanItem>
    var startDate: int

    predicate Valid()
      reads this
    {
      Distinct(Ids(plans))
    }

    /** Opening on `today` shows the week starting on the latest Tuesday. */
    constructor(plans: seq<PlanItem>, today: int)
      requires Distinct(Ids(plans))
      ensures Valid() && this.plans == plans && startDate == WeekStart(today)
    {
      this.plans := plans;
      startDate := WeekStart(today);
    }

    method PreviousWeek()
      modifies this
      ensures startDate == old(startDate) - 7 && plans == old(plans)
    {
      startDate := startDate - 7;
    }

    method NextWeek()
      modifies this
      ensures startDate == old(startDate) + 7 && plans == old(plans)
    {
      startDate := startDate + 7;
    }

    /** `handleDragEnd`: a drag of card `activeId` that ended over `over`. A new plan gets
      * `freshId`, which the table has not used. */
    method DragEnd(activeId: string, over: Option<string>, freshId: string)
      requires Valid() && freshId !in Ids(plans)
      modifies this
      ensures Valid()
      ensures plans == AfterDrop(old(plans), activeId, over, freshId) && startDate == old(startDate)
    {
      AfterDropKeepsIdsDistinct(plans, activeId, over, freshId);
      plans := DropOutcome(plans, activeId, over, freshId);
    }

    /** `handleDeletePlan`: the plan with the id leaves the table, and no other plan does. */
    method DeletePlan(id: string)
      requires Valid()
      modifies this
      ensures Valid()
      ensures plans == WithoutId(old(plans), id) && startDate == old(startDate)
      ensures id !in Ids(plans) && forall q :: q in plans <==> q in old(plans) && q.id != id
    {
      DistinctRemove(Ids(plans), id);
      plans := WithoutId(plans, id);
    }

    /** `handleToggleDayType` for the day with date key `date`, shown with type `current`. */
    method ToggleDayType(date: string, current: DayType)
      requires Valid()
      modifies this
      ensures Valid()
      ensures plans == ToggledDayType(old(plans), date, current) && startDate == old(startDate)
    {
      plans := ToggledDayType(plans, date, current);
    }
  }
}
