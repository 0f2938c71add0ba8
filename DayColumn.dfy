/** One day of the weekly board: its four drop slots and the plans shown in them, the soup
  * gacha button, the weekend colouring and the day-type icon. */
module DayColumn {
  import opened Wrappers
  import opened SeqUtil
  import opened Strings
  import opened MealTypes
  import opened Calendar
  import opened PlannerApp

  /** The drop ids of the main, first side, second side and soup slots of a day. */
  function SlotIds(dateKey: string): (r: seq<string>)
    ensures |r| == 4
  {
    [dateKey + "-main", dateKey + "-side-1", dateKey + "-side-2", dateKey + "-soup"]
  }

  /** What each slot of a day holds, as the board's decoder reads it back. */
  const SlotsOfDay: seq<(string, nat)> := [("main", 0), ("side", 0), ("side", 1), ("soup", 0)]

  /** The board's decoder maps each slot id of a day with a ten-character date key back to that
    * date and to the slot's type and position, and treats it as a drop onto a slot. */
  lemma SlotIdsRoundTrip(dateKey: string, i: int)
    requires |dateKey| == 10 && 0 <= i < 4
    ensures DecodeSlot(SlotIds(dateKey)[i]) == Slot(dateKey, SlotsOfDay[i].0, SlotsOfDay[i].1)
    ensures Classify(Some(SlotIds(dateKey)[i])) == SlotTarget(SlotIds(dateKey)[i])
  {
    var id := SlotIds(dateKey)[i];
    var rest := ["main", "side-1", "side-2", "soup"][i];
    assert id == dateKey + "-" + rest;
    assert id[..10] == dateKey && id[11..] == rest;
    assert id[10] == '-';
  }

  function OfType(slotType: string): PlanItem -> bool {
    (p: PlanItem) => p.slotType == slotType
  }

  /** The `n`-th plan of a slot type among the day's plans, in order (`find` for the first). */
  function NthOfType(plans: seq<PlanItem>, slotType: string, n: nat): (r: Option<PlanItem>)
    ensures r.Some? <==> n < Count(plans, OfType(slotType))
    ensures r.Some? ==> r.value == Filter(plans, OfType(slotType))[n] && r.value in plans
  {
    var ofType := Filter(plans, OfType(slotType));
    if n < |ofType| then Some(ofType[n]) else None
  }

  /** The drag id of a shown plan. */
  function DragId(p: PlanItem): string {
    PlanPrefix + p.id
  }

  /** The board reads the plan id back from a plan card's drag id. */
  lemma DragIdRoundTrip(p: PlanItem)
    ensures StartsWith(DragId(p), PlanPrefix) && DragId(p)[|PlanPrefix|..] == p.id
    ensures !StartsWith(DragId(p), RecipePrefix)
  {
    assert DragId(p)[0] == 'p';
  }

  /** A day column: its slot ids, the plan shown in each slot, whether the soup gacha button is
    * shown, whether the day has the weekend style, and whether the work icon is shown. */
  datatype ColumnView = ColumnView(
    slotIds: seq<string>,
    shown: seq<Option<PlanItem>>,
    gacha: bool,
    weekend: bool,
    workIcon: bool)

  /** `DayColumn` for `day` (date key `dateKey`) with the day's plans: the first main plan, the
    * first two side plans and the first soup plan are shown, and any others are not. */
  function Column(day: int, dateKey: string, dayType: DayType, plans: seq<PlanItem>): (v: ColumnView)
    ensures v.slotIds == SlotIds(dateKey) && |v.shown| == 4
    ensures forall i :: 0 <= i < 4 ==> v.shown[i] == NthOfType(plans, SlotsOfDay[i].0, SlotsOfDay[i].1)
    ensures v.gacha <==> v.shown[3].None?
    ensures v.weekend <==> Weekday(day) == Friday || Weekday(day) == Saturday
    ensures v.workIcon <==> dayType == Work
  {
    var soup := NthOfType(plans, "soup", 0);
    assert SlotsOfDay[0] == ("main", 0) && SlotsOfDay[1] == ("side", 0);
    assert SlotsOfDay[2] == ("side", 1) && SlotsOfDay[3] == ("soup", 0);
    ColumnView(SlotIds(dateKey),
               [NthOfType(plans, "main", 0), NthOfType(plans, "side", 0), NthOfType(plans, "side", 1), soup],
               soup.None?,
               Weekday(day) == Friday || Weekday(day) == Saturday,
               dayType == Work)
  }

  /** The gacha button is shown exactly when the day has no soup plan. */
  lemma GachaIffNoSoup(day: int, dateKey: string, dayType: DayType, plans: seq<PlanItem>)
    ensures Column(day, dateKey, dayType, plans).gacha <==> forall k :: 0 <= k < |plans| ==> plans[k].slotType != "soup"
  {
    var soup := NthOfType(plans, "soup", 0);
    if soup.Some? {
      var k :| 0 <= k < |plans| && plans[k] == soup.value;
    }
  }
}
