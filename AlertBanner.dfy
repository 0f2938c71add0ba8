/** The expiry banner: how many alerts there are at each level, the colour of the first alert,
  * and the first three alerts with a count of the rest. */
module AlertBanner {
  import opened Wrappers
  import opened SeqUtil
  import opened StockTypes
  import opened ExpirationUtils

  /** The banner: the counts per level, the border colour, the alerts listed, and how many more
    * there are (`他 n件`) when any are not listed. */
  datatype BannerView = BannerView(
    expiredCount: nat,
    urgentCount: nat,
    warningCount: nat,
    bannerColor: string,
    listed: seq<ExpirationAlert>,
    more: Option<nat>)

  function AtLevel(level: AlertLevel): ExpirationAlert -> bool {
    (a: ExpirationAlert) => a.level == level
  }

  /** `AlertBanner`: nothing without alerts. The colour is that of the first alert's level. */
  function Banner(alerts: seq<ExpirationAlert>): (v: Option<BannerView>)
    ensures v.None? <==> alerts == []
    ensures v.Some? ==>
      v.value.expiredCount == |Filter(alerts, AtLevel(Expired))|
      && v.value.urgentCount == |Filter(alerts, AtLevel(Urgent))|
      && v.value.warningCount == |Filter(alerts, AtLevel(Warning))|
      && v.value.bannerColor == AlertColor(alerts[0].level)
    ensures v.Some? ==> (|v.value.listed| <= 3 && v.value.listed <= alerts
      && (|alerts| <= 3 ==> v.value.listed == alerts)
      && (|alerts| > 3 ==> v.value.listed == alerts[..3]))
    ensures v.Some? ==> ((v.value.more.Some? <==> |alerts| > 3)
      && (v.value.more.Some? ==> |v.value.listed| + v.value.more.value == |alerts|)
      && (|alerts| > 3 ==> v.value.more == Some(|alerts| - 3)))
  {
    if alerts == [] then None
    else
      var shown := if |alerts| <= 3 then |alerts| else 3;
      Some(BannerView(Count(alerts, AtLevel(Expired)), Count(alerts, AtLevel(Urgent)), Count(alerts, AtLevel(Warning)),
                      AlertColor(alerts[0].level), alerts[..shown],
                      if |alerts| > 3 then Some(|alerts| - 3) else None))
  }

  /** The three counts and the number of safe alerts add up to the number of alerts. */
  lemma {:induction false} CountsPartition(alerts: seq<ExpirationAlert>)
    ensures Count(alerts, AtLevel(Expired)) + Count(alerts, AtLevel(Urgent)) + Count(alerts, AtLevel(Warning))
      + Count(alerts, AtLevel(Safe)) == |alerts|
  {
    if alerts != [] {
      CountsPartition(alerts[1..]);
    }
  }

  /** A list of alerts with no safe alert in it is counted in full. */
  lemma CountsCoverPending(alerts: seq<ExpirationAlert>)
    requires forall k :: 0 <= k < |alerts| ==> alerts[k].level != Safe
    ensures Count(alerts, AtLevel(Expired)) + Count(alerts, AtLevel(Urgent)) + Count(alerts, AtLevel(Warning)) == |alerts|
  {
    CountsPartition(alerts);
    CountNone(alerts, AtLevel(Safe));
  }

  /** Along alerts sorted by days left, the level never gets more pressing. */
  lemma {:induction false} SortedSeverity(alerts: seq<ExpirationAlert>, k: int)
    requires forall j :: 0 <= j < |alerts| ==> alerts[j].level == AlertLevelOf(alerts[j].daysUntilExpiration)
    requires forall j :: 0 <= j < |alerts| - 1 ==> alerts[j].daysUntilExpiration <= alerts[j + 1].daysUntilExpiration
    requires 0 <= k < |alerts|
    ensures alerts[0].daysUntilExpiration <= alerts[k].daysUntilExpiration
    ensures Severity(alerts[0].level) >= Severity(alerts[k].level)
    decreases k
  {
    if k > 0 {
      SortedSeverity(alerts, k - 1);
    }
    AlertLevelMonotone(alerts[0].daysUntilExpiration, alerts[k].daysUntilExpiration);
  }

  /** Fed with the alert list of the stock, the banner takes the colour of the most pressing
    * level present, and counts every alert. */
  lemma BannerShowsMostUrgent(items: seq<StockItem>, today: int, dayOf: string -> int)
    requires ItemsWithAlerts(items, today, dayOf) != []
    ensures var alerts := ItemsWithAlerts(items, today, dayOf);
      var v := Banner(alerts).value;
      (forall k :: 0 <= k < |alerts| ==> Severity(alerts[0].level) >= Severity(alerts[k].level))
      && v.expiredCount + v.urgentCount + v.warningCount == |alerts|
  {
    var alerts := ItemsWithAlerts(items, today, dayOf);
    forall k | 0 <= k < |alerts|
      ensures alerts[k].level == AlertLevelOf(alerts[k].daysUntilExpiration) && alerts[k].level != Safe
    {
      ItemsWithAlertsSound(items, today, dayOf, alerts[k]);
    }
    forall k | 0 <= k < |alerts| ensures Severity(alerts[0].level) >= Severity(alerts[k].level) {
      SortedSeverity(alerts, k);
    }
    CountsCoverPending(alerts);
  }
}
