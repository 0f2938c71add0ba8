/** The BCP dashboard: one card per unit with people, each with a water gauge and a food gauge.
  * A gauge's bar is capped at 100% while its label shows the uncapped rate; the bar colour
  * follows five rate bands. */
module BCPDashboard {
  import opened Wrappers
  import opened SeqUtil
  import opened StockTypes
  import opened BcpCalculations

  const Green := "#22c55e"
  const Lime := "#84cc16"
  const Yellow := "#eab308"
  const Orange := "#f97316"
  const Red := "#ef4444"

  /** The bar colours from the lowest band to the highest. */
  const Palette: seq<string> := [Red, Orange, Yellow, Lime, Green]

  /** How many of the thresholds 30, 50, 80 and 100 a rate reaches. */
  function Band(rate: real): (b: nat)
    ensures b < 5
  {
    (if rate >= 30.0 then 1 else 0) + (if rate >= 50.0 then 1 else 0)
    + (if rate >= 80.0 then 1 else 0) + (if rate >= 100.0 then 1 else 0)
  }

  /** `getRateColor`: green from 100%, lime from 80%, yellow from 50%, orange from 30%, red below.
    * The resource kind is not consulted. */
  function RateColor(rate: real): (c: string)
    ensures c == Palette[Band(rate)]
    ensures c == Green <==> rate >= 100.0
    ensures c == Red <==> rate < 30.0
  {
    if rate >= 100.0 then Green
    else if rate >= 80.0 then Lime
    else if rate >= 50.0 then Yellow
    else if rate >= 30.0 then Orange
    else Red
  }

  /** A higher rate never falls into a lower band. */
  lemma BandMonotone(a: real, b: real)
    requires a <= b
    ensures Band(a) <= Band(b)
  {
  }

  /** Two rates get the same colour exactly when they reach the same thresholds. */
  lemma SameColorSameBand(a: real, b: real)
    ensures RateColor(a) == RateColor(b) <==> Band(a) == Band(b)
  {
    assert Palette[0] != Palette[1] && Palette[0] != Palette[2] && Palette[0] != Palette[3] && Palette[0] != Palette[4];
    assert Palette[1] != Palette[2] && Palette[1] != Palette[3] && Palette[1] != Palette[4];
    assert Palette[2] != Palette[3] && Palette[2] != Palette[4] && Palette[3] != Palette[4];
  }

  /** The text colours of the gauge labels below 50%. */
  const WaterText := "#0369a1"
  const FoodText := "#b45309"
  const White := "white"

  datatype Resource = WaterSupply | FoodSupply

  /** One progress bar: its width in percent, its colour, and its label's colour and number. */
  datatype Gauge = Gauge(width: real, barColor: string, labelColor: string, labelRate: real)

  /** A gauge for a sufficiency rate: the bar is `Math.min(rate, 100)` wide, the label shows the
    * rate itself and is white above 50%, in the resource's own colour otherwise. */
  function GaugeOf(rate: real, kind: Resource): (g: Gauge)
    ensures g.width <= 100.0 && g.width <= rate
    ensures g.width == rate <==> rate <= 100.0
    ensures g.labelRate == rate && g.barColor == RateColor(rate)
    ensures g.labelColor == White <==> rate > 50.0
    ensures rate <= 50.0 ==> g.labelColor == (if kind == WaterSupply then WaterText else FoodText)
  {
    Gauge(if rate <= 100.0 then rate else 100.0, RateColor(rate),
          if rate > 50.0 then White else if kind == WaterSupply then WaterText else FoodText, rate)
  }

  /** A full or overfull stock fills the bar in green while the label keeps the real figure. */
  lemma OverfullGauge(rate: real, kind: Resource)
    requires rate >= 100.0
    ensures GaugeOf(rate, kind).width == 100.0 && GaugeOf(rate, kind).barColor == Green
    ensures GaugeOf(rate, kind).labelRate == rate
  {
  }

  /** Twice the requirement of water: a full bar labelled 200%. */
  lemma DoubleWaterGauge(target: int)
    requires target > 0
    ensures var g := GaugeOf(Rate(2.0 * target as real, target), WaterSupply);
      g.width == 100.0 && g.labelRate == 200.0
  {
    RateNotCapped(target);
  }

  /** One card: the unit's status with its two gauges. */
  datatype Card = Card(status: BcpStatus, water: Gauge, food: Gauge)

  /** What the page shows: the setup message, or the cards. */
  datatype Dashboard = SetupMessage | Cards(cards: seq<Card>)

  function CardsOf(statuses: seq<BcpStatus>): (r: seq<Card>)
    ensures |r| == |statuses|
    ensures forall k :: 0 <= k < |statuses| ==>
      r[k] == Card(statuses[k], GaugeOf(statuses[k].waterSufficiencyRate, WaterSupply), GaugeOf(statuses[k].foodSufficiencyRate, FoodSupply))
  {
    if statuses == [] then []
    else [Card(statuses[0], GaugeOf(statuses[0].waterSufficiencyRate, WaterSupply), GaugeOf(statuses[0].foodSufficiencyRate, FoodSupply))]
         + CardsOf(statuses[1..])
  }

  /** The page for a list of statuses: the setup message exactly when there are none. */
  function DashboardOf(statuses: seq<BcpStatus>): (d: Dashboard)
    ensures d.SetupMessage? <==> statuses == []
    ensures d.Cards? ==> d.cards == CardsOf(statuses)
  {
    if statuses == [] then SetupMessage else Cards(CardsOf(statuses))
  }

  /** The stock the page works on: the items passed in, or the sample items when none were. */
  function StockItemsFor(items: seq<StockItem>, sample: seq<StockItem>): (r: seq<StockItem>)
    ensures items != [] ==> r == items
    ensures items == [] ==> r == sample
  {
    if items != [] then items else sample
  }

  /** `BCPDashboard`: the statuses of the organisation over the stock (or the sample stock), then
    * one card per status, or the setup message when no unit has people. */
  method Render(orgUnits: seq<OrgUnit>, items: seq<StockItem>, sample: seq<StockItem>, products: seq<Product>,
                rank: string -> nat) returns (d: Dashboard)
    requires Ranked(orgUnits, rank)
    ensures d == DashboardOf(StatusesOf(Filter(orgUnits, IsTargetUnit), orgUnits, StockItemsFor(items, sample), products, rank))
    ensures d.SetupMessage? <==> Count(orgUnits, IsTargetUnit) == 0
    ensures d.Cards? ==> |d.cards| == Count(orgUnits, IsTargetUnit)
  {
    var stockItems := StockItemsFor(items, sample);
    var statuses := CalculateBcpStatus(orgUnits, stockItems, products, rank);
    d := DashboardOf(statuses);
  }
}
