/** Expiry alerts: the days left before a row expires, the four alert bands, the alert list of
  * live rows soonest first, the band colours and the wording of the days left. Dates are day
  * numbers; `today` is a parameter. */
module ExpirationUtils {
  import opened SeqUtil
  import opened Strings
  import opened Sorting
  import opened StockTypes

  /** `getDaysUntilExpiration`: whole days from today to the expiry day, both taken at midnight. */
  function DaysUntilExpiration(expiryDay: int, today: int): (d: int)
    ensures today + d == expiryDay
  {
    expiryDay - today
  }

  /** `getAlertLevel`: expired before day 0, urgent up to a week, warning up to thirty days, safe
    * after that. */
  function AlertLevelOf(d: int): (level: AlertLevel)
    ensures level == Expired <==> d < 0
    ensures level == Urgent <==> 0 <= d <= 7
    ensures level == Warning <==> 7 < d <= 30
    ensures level == Safe <==> 30 < d
  {
    if d < 0 then Expired
    else if d <= 7 then Urgent
    else if d <= 30 then Warning
    else Safe
  }

  /** How pressing a level is: expired most, safe least. */
  function Severity(level: AlertLevel): nat {
    match level
    case Expired => 3
    case Urgent => 2
    case Warning => 1
    case Safe => 0
  }

  /** Fewer days left never gives a milder level. */
  lemma AlertLevelMonotone(d1: int, d2: int)
    requires d1 <= d2
    ensures Severity(AlertLevelOf(d1)) >= Severity(AlertLevelOf(d2))
  {
  }

  /** `getExpirationAlert`: the row, its days left, and the level of those days. */
  function ExpirationAlertOf(item: StockItem, today: int, dayOf: string -> int): (a: ExpirationAlert)
    ensures a.item == item
    ensures today + a.daysUntilExpiration == dayOf(item.expirationDate)
    ensures a.level == AlertLevelOf(a.daysUntilExpiration)
  {
    var d := DaysUntilExpiration(dayOf(item.expirationDate), today);
    ExpirationAlert(item, AlertLevelOf(d), d)
  }

  function AlertsOf(items: seq<StockItem>, today: int, dayOf: string -> int): (r: seq<ExpirationAlert>)
    ensures |r| == |items|
    ensures forall k :: 0 <= k < |items| ==> r[k] == ExpirationAlertOf(items[k], today, dayOf)
  {
    if items == [] then [] else [ExpirationAlertOf(items[0], today, dayOf)] + AlertsOf(items[1..], today, dayOf)
  }

  function IsLive(item: StockItem): bool {
    !item.donated
  }

  function NeedsAlert(a: ExpirationAlert): bool {
    a.level != Safe
  }

  function ByDays(): (le: (ExpirationAlert, ExpirationAlert) -> bool)
    ensures forall a, b :: le(a, b) == (a.daysUntilExpiration <= b.daysUntilExpiration)
  {
    ByKey((a: ExpirationAlert) => a.daysUntilExpiration)
  }

  /** The alerts of the live rows that need one, in row order. */
  function PendingAlerts(items: seq<StockItem>, today: int, dayOf: string -> int): seq<ExpirationAlert> {
    Filter(AlertsOf(Filter(items, IsLive), today, dayOf), NeedsAlert)
  }

  /** `getItemsWithAlerts`: those alerts, soonest first. */
  function ItemsWithAlerts(items: seq<StockItem>, today: int, dayOf: string -> int): (r: seq<ExpirationAlert>)
    ensures multiset(r) == multiset(PendingAlerts(items, today, dayOf))
    ensures forall k :: 0 <= k < |r| - 1 ==> r[k].daysUntilExpiration <= r[k + 1].daysUntilExpiration
  {
    var alerts := PendingAlerts(items, today, dayOf);
    ByKeyTotal((a: ExpirationAlert) => a.daysUntilExpiration);
    SortBySorted(alerts, ByDays());
    SortBy(alerts, ByDays())
  }

  /** Every listed alert is for a row that is not donated and expires within thirty days (or
    * already has), at the level of its days. */
  lemma ItemsWithAlertsSound(items: seq<StockItem>, today: int, dayOf: string -> int, a: ExpirationAlert)
    requires a in ItemsWithAlerts(items, today, dayOf)
    ensures a.item in items && !a.item.donated
    ensures a.daysUntilExpiration <= 30 && a.level == AlertLevelOf(a.daysUntilExpiration)
  {
    var live := Filter(items, IsLive);
    assert a in multiset(ItemsWithAlerts(items, today, dayOf));
    assert a in PendingAlerts(items, today, dayOf);
    var j :| 0 <= j < |AlertsOf(live, today, dayOf)| && AlertsOf(live, today, dayOf)[j] == a;
  }

  /** Every row that is not donated and expires within thirty days has its alert listed. */
  lemma ItemsWithAlertsComplete(items: seq<StockItem>, today: int, dayOf: string -> int, k: int)
    requires 0 <= k < |items| && !items[k].donated && dayOf(items[k].expirationDate) - today <= 30
    ensures ExpirationAlertOf(items[k], today, dayOf) in ItemsWithAlerts(items, today, dayOf)
  {
    var live := Filter(items, IsLive);
    assert IsLive(items[k]);
    var j :| 0 <= j < |live| && live[j] == items[k];
    var all := AlertsOf(live, today, dayOf);
    assert all[j] == ExpirationAlertOf(items[k], today, dayOf);
    assert NeedsAlert(all[j]);
    assert all[j] in PendingAlerts(items, today, dayOf);
    assert all[j] in multiset(ItemsWithAlerts(items, today, dayOf));
  }

  // ---------------------------------------------------------------- colours and wording

  /** `getAlertColor`. */
  function AlertColor(level: AlertLevel): string {
    match level
    case Expired => "#dc2626"
    case Urgent => "#ea580c"
    case Warning => "#ca8a04"
    case Safe => "#16a34a"
  }

  /** `getAlertBgColor`. */
  function AlertBgColor(level: AlertLevel): string {
    match level
    case Expired => "#fef2f2"
    case Urgent => "#fff7ed"
    case Warning => "#fefce8"
    case Safe => "#f0fdf4"
  }

  /** Every level has its own text colour and its own background colour, and no background is a
    * text colour. */
  lemma ColoursDistinct(a: AlertLevel, b: AlertLevel)
    ensures AlertColor(a) == AlertColor(b) ==> a == b
    ensures AlertBgColor(a) == AlertBgColor(b) ==> a == b
    ensures AlertColor(a) != AlertBgColor(b)
  {
    assert AlertColor(a)[1] != AlertBgColor(b)[1];
    if a != b {
      assert AlertColor(a)[1] != AlertColor(b)[1];
      assert AlertBgColor(a)[4] != AlertBgColor(b)[4];
    }
  }

  const ExpiredSuffix := "日前に期限切れ"

  /** `getExpirationText`: how long ago it expired, today, tomorrow, or the days left. */
  function ExpirationText(d: int): (t: string)
    ensures d < 0 ==> t == NatToString(-d) + ExpiredSuffix
    ensures d == 0 ==> t == "本日期限"
    ensures d == 1 ==> t == "明日期限"
    ensures d > 1 ==> t == "あと" + NatToString(d) + "日"
  {
    if d < 0 then NatToString(-d) + ExpiredSuffix
    else if d == 0 then "本日期限"
    else if d == 1 then "明日期限"
    else "あと" + IntToString(d) + "日"
  }

  lemma NatToStringInjective(a: nat, b: nat)
    requires NatToString(a) == NatToString(b)
    ensures a == b
  {
    NatToStringValue(a);
    NatToStringValue(b);
  }

  /** The wording tells the days apart: no two day counts read the same. */
  lemma ExpirationTextInjective(d1: int, d2: int)
    requires ExpirationText(d1) == ExpirationText(d2)
    ensures d1 == d2
  {
    var t := ExpirationText(d1);
    if d1 < 0 && d2 < 0 {
      var x1, x2 := NatToString(-d1), NatToString(-d2);
      assert |x1| == |x2|;
      assert (x1 + ExpiredSuffix)[..|x1|] == x1;
      assert (x2 + ExpiredSuffix)[..|x2|] == x2;
      NatToStringInjective(-d1, -d2);
    } else if d1 > 1 && d2 > 1 {
      var x1, x2 := NatToString(d1), NatToString(d2);
      assert ("あと" + x1 + "日")[2..|t| - 1] == x1;
      assert ("あと" + x2 + "日")[2..|t| - 1] == x2;
      NatToStringInjective(d1, d2);
    } else {
      assert IsDigit(ExpirationText(d1)[0]) <==> d1 < 0;
      assert IsDigit(ExpirationText(d2)[0]) <==> d2 < 0;
      assert ExpirationText(d1)[0] == ExpirationText(d2)[0];
    }
  }
}
