/** The weekly board: seven consecutive days from the start date, each with the plans dated on
  * it and its day type. `dateKey` is the `yyyy-MM-dd` formatting of a day, supplied by the
  * caller. */
module WeeklyBoard {
  import opened Wrappers
  import opened SeqUtil
  import opened MealTypes
  import opened PlannerApp
  import opened DayColumn

  /** What the board hands one day column. */
  datatype DayEntry = DayEntry(day: int, dateKey: string, dayType: DayType, plans: seq<PlanItem>)

  function OnDate(dateKey: string): PlanItem -> bool {
    (p: PlanItem) => p.date == dateKey
  }

  function SettingFor(dateKey: string): DaySetting -> bool {
    (s: DaySetting) => s.date == dateKey
  }

  /** The day type of the first setting for the date, `work` without one. */
  function DayTypeOf(settings: seq<DaySetting>, dateKey: string): (t: DayType)
    ensures var k := FindIndex(settings, SettingFor(dateKey));
      (k >= 0 ==> t == settings[k].dayType) && (k < 0 ==> t == Work)
  {
    var k := FindIndex(settings, SettingFor(dateKey));
    if k >= 0 then settings[k].dayType else Work
  }

  function EntryOf(day: int, dateKey: int -> string, plans: seq<PlanItem>, settings: seq<DaySetting>): DayEntry {
    DayEntry(day, dateKey(day), DayTypeOf(settings, dateKey(day)), Filter(plans, OnDate(dateKey(day))))
  }

  /** `WeeklyBoard`: the entries of the seven days `start`, ..., `start + 6`. */
  function Board(start: int, dateKey: int -> string, plans: seq<PlanItem>, settings: seq<DaySetting>): (r: seq<DayEntry>)
    ensures |r| == 7
    ensures forall i :: 0 <= i < 7 ==> r[i] == EntryOf(start + i, dateKey, plans, settings)
  {
    seq(7, i requires 0 <= i < 7 => EntryOf(start + i, dateKey, plans, settings))
  }

  /** The columns drawn for the board. */
  function Columns(board: seq<DayEntry>): (r: seq<ColumnView>)
    ensures |r| == |board|
    ensures forall i :: 0 <= i < |board| ==>
      r[i] == Column(board[i].day, board[i].dateKey, board[i].dayType, board[i].plans)
  {
    if board == [] then []
    else [Column(board[0].day, board[0].dateKey, board[0].dayType, board[0].plans)] + Columns(board[1..])
  }

  /** Each plan of the table appears on the day of its date, in table order, and a plan whose
    * date is none of the week's appears on no day. */
  lemma PlansOnTheirDay(start: int, dateKey: int -> string, plans: seq<PlanItem>, settings: seq<DaySetting>,
                        p: PlanItem, i: int)
    requires 0 <= i < 7
    ensures p in Board(start, dateKey, plans, settings)[i].plans <==> p in plans && p.date == dateKey(start + i)
  {
  }

  function CountOnDays(plans: seq<PlanItem>, keys: seq<string>): nat {
    if keys == [] then 0 else Count(plans, OnDate(keys[0])) + CountOnDays(plans, keys[1..])
  }

  function DatedIn(keys: seq<string>): PlanItem -> bool {
    (p: PlanItem) => p.date in keys
  }

  lemma {:induction false} CountOnDaysNone(keys: seq<string>)
    ensures CountOnDays([], keys) == 0
  {
    if keys != [] {
      CountOnDaysNone(keys[1..]);
    }
  }

  /** With distinct keys, the first plan counts once when its date is one of them and not at
    * all otherwise. */
  lemma {:induction false} CountOnDaysCons(plans: seq<PlanItem>, keys: seq<string>)
    requires Distinct(keys) && plans != []
    ensures CountOnDays(plans, keys) == (if plans[0].date in keys then 1 else 0) + CountOnDays(plans[1..], keys)
  {
    if keys != [] {
      CountOnDaysCons(plans, keys[1..]);
      assert keys[0] !in keys[1..];
    }
  }

  /** With distinct date keys, the plans per key add up to the plans dated on some key. */
  lemma {:induction false} CountOnDaysPartition(plans: seq<PlanItem>, keys: seq<string>)
    requires Distinct(keys)
    ensures CountOnDays(plans, keys) == Count(plans, DatedIn(keys))
  {
    if plans != [] {
      CountOnDaysPartition(plans[1..], keys);
      CountOnDaysCons(plans, keys);
    } else {
      CountOnDaysNone(keys);
    }
  }

  function WeekKeys(start: int, dateKey: int -> string): (r: seq<string>)
    ensures |r| == 7 && forall i :: 0 <= i < 7 ==> r[i] == dateKey(start + i)
  {
    seq(7, i requires 0 <= i < 7 => dateKey(start + i))
  }

  function TotalShown(board: seq<DayEntry>): nat {
    if board == [] then 0 else |board[0].plans| + TotalShown(board[1..])
  }

  lemma {:induction false} TotalShownIsCountOnDays(board: seq<DayEntry>, plans: seq<PlanItem>, keys: seq<string>)
    requires |board| == |keys|
    requires forall i :: 0 <= i < |board| ==> board[i].plans == Filter(plans, OnDate(keys[i]))
    ensures TotalShown(board) == CountOnDays(plans, keys)
  {
    if board != [] {
      TotalShownIsCountOnDays(board[1..], plans, keys[1..]);
    }
  }

  /** When the seven days have distinct date keys, the board partitions the plans dated in the
    * week: the day lists together hold exactly as many plans as the table has for the week. */
  lemma WeekPartition(start: int, dateKey: int -> string, plans: seq<PlanItem>, settings: seq<DaySetting>)
    requires Distinct(WeekKeys(start, dateKey))
    ensures TotalShown(Board(start, dateKey, plans, settings)) == Count(plans, DatedIn(WeekKeys(start, dateKey)))
  {
    var keys := WeekKeys(start, dateKey);
    TotalShownIsCountOnDays(Board(start, dateKey, plans, settings), plans, keys);
    CountOnDaysPartition(plans, keys);
  }

  /** The plan a column shows in a slot is the one a drop onto that slot replaces: the board's
    * per-day list and the handler's search over the table agree. */
  lemma ShownIsVictim(start: int, dateKey: int -> string, plans: seq<PlanItem>, settings: seq<DaySetting>, i: int, s: int)
    requires 0 <= i < 7 && 0 <= s < 4 && |dateKey(start + i)| == 10
    ensures var e := Board(start, dateKey, plans, settings)[i];
      var slot := DecodeSlot(SlotIds(e.dateKey)[s]);
      Column(e.day, e.dateKey, e.dayType, e.plans).shown[s] == FindVictim(plans, slot.date, slot.slotType, slot.index)
  {
    var e := Board(start, dateKey, plans, settings)[i];
    SlotIdsRoundTrip(e.dateKey, s);
    var t := SlotsOfDay[s].0;
    FilterFilter(plans, OnDate(e.dateKey), OfType(t), InSlot(e.dateKey, t));
  }

  /** Toggling a day from its column gives every plan listed for that day the other type than
    * the one the column showed. */
  lemma ToggleFromBoard(start: int, dateKey: int -> string, plans: seq<PlanItem>, settings: seq<DaySetting>, i: int)
    requires 0 <= i < 7
    ensures var e := Board(start, dateKey, plans, settings)[i];
      var after := ToggledDayType(plans, e.dateKey, e.dayType);
      forall p :: p in Board(start, dateKey, after, settings)[i].plans ==> p.dayType == Flip(e.dayType)
  {
    var e := Board(start, dateKey, plans, settings)[i];
    var after := ToggledDayType(plans, e.dateKey, e.dayType);
    forall p | p in Board(start, dateKey, after, settings)[i].plans ensures p.dayType == Flip(e.dayType) {
      var k :| 0 <= k < |after| && after[k] == p;
    }
  }
}
