/** Sustainability impact of donations: the CO2 emitted by transport (ton-kilometre method),
  * and the CO2, disposal cost and weight that donating instead of discarding avoids, summed
  * over donation records and rounded for display. */
module Sustainability {
  import opened Wrappers
  import opened SeqUtil
  import opened StockTypes

  /** Emission factor of a medium truck, kg-CO2 per ton-kilometre. */
  const TransportCo2Factor: real := 0.25

  /** `calculateTransportEmission`: tons times kilometres times the factor. */
  function TransportEmission(weightKg: real, distanceKm: real): (e: real)
    ensures 4000.0 * e == weightKg * distanceKm
  {
    weightKg / 1000.0 * distanceKm * TransportCo2Factor
  }

  /** Emission grows with the load on a given (positive) distance. */
  lemma TransportEmissionMonotone(w1: real, w2: real, distanceKm: real)
    requires w1 <= w2 && distanceKm >= 0.0
    ensures TransportEmission(w1, distanceKm) <= TransportEmission(w2, distanceKm)
  {
    var e1, e2 := TransportEmission(w1, distanceKm), TransportEmission(w2, distanceKm);
    assert 4000.0 * (e2 - e1) == (w2 - w1) * distanceKm;
  }

  /** `products.find(p => p.name === name)`: the first product of that name. */
  function FirstNamed(products: seq<Product>, name: string): (r: Option<Product>)
    ensures r.None? <==> forall k :: 0 <= k < |products| ==> products[k].name != name
    ensures r.Some? ==> exists k :: (0 <= k < |products| && products[k] == r.value
      && r.value.name == name && forall j :: 0 <= j < k ==> products[j].name != name)
  {
    var i := FindIndex(products, (p: Product) => p.name == name);
    if i == -1 then None else Some(products[i])
  }

  // ---------------------------------------------------------------- one donation line

  /** The three per-unit figures of the line's product, absent figures and unknown products
    * counting 0, times the quantity donated. The weight is the product's, not the one noted on
    * the line. */
  datatype Figures = Figures(co2: real, cost: real, weight: real)

  const NoFigures := Figures(0.0, 0.0, 0.0)

  function LineFigures(products: seq<Product>, line: DonationLine): (f: Figures)
    ensures FirstNamed(products, line.productName).None? ==> f == NoFigures
    ensures FirstNamed(products, line.productName).Some? ==>
      var p := FirstNamed(products, line.productName).value;
      f.co2 == OrZero(p.co2PerUnit) * line.quantity as real
      && f.cost == OrZero(p.disposalCost) * line.quantity as real
      && f.weight == OrZero(p.weightKg) * line.quantity as real
  {
    match FirstNamed(products, line.productName)
    case None => NoFigures
    case Some(p) =>
      var q := line.quantity as real;
      Figures(OrZero(p.co2PerUnit) * q, OrZero(p.disposalCost) * q, OrZero(p.weightKg) * q)
  }

  function Plus(a: Figures, b: Figures): Figures {
    Figures(a.co2 + b.co2, a.cost + b.cost, a.weight + b.weight)
  }

  /** The figures of the lines of one record, summed. */
  function RecordFigures(products: seq<Product>, lines: seq<DonationLine>): Figures
    decreases |lines|
  {
    if lines == [] then NoFigures
    else Plus(RecordFigures(products, lines[..|lines| - 1]), LineFigures(products, lines[|lines| - 1]))
  }

  /** A record is charged transport only when it has a (non-zero) distance and a positive
    * weight. */
  function RecordTransport(distanceKm: Option<real>, weight: real): (t: real)
    ensures !(TruthyReal(distanceKm) && weight > 0.0) ==> t == 0.0
    ensures TruthyReal(distanceKm) && weight > 0.0 ==> 4000.0 * t == weight * distanceKm.value
  {
    if TruthyReal(distanceKm) && weight > 0.0 then TransportEmission(weight, distanceKm.value) else 0.0
  }

  // ---------------------------------------------------------------- all records

  /** The avoided figures of all records, summed. */
  function TotalFigures(products: seq<Product>, records: seq<DonationRecord>): Figures
    decreases |records|
  {
    if records == [] then NoFigures
    else Plus(TotalFigures(products, records[..|records| - 1]), RecordFigures(products, records[|records| - 1].items))
  }

  /** The transport emission of all records, summed. */
  function TotalTransport(products: seq<Product>, records: seq<DonationRecord>): real
    decreases |records|
  {
    if records == [] then 0.0
    else
      var last := records[|records| - 1];
      TotalTransport(products, records[..|records| - 1])
        + RecordTransport(last.distanceKm, RecordFigures(products, last.items).weight)
  }

  /** `Math.round`: the nearest integer, halves rounded up. */
  function RoundInt(x: real): (r: int)
    ensures r as real - 0.5 <= x < r as real + 0.5
  {
    (x + 0.5).Floor
  }

  /** `r` has at most two decimals. */
  predicate IsHundredths(r: real) {
    (r * 100.0).Floor as real == r * 100.0
  }

  /** `Math.round(x * 100) / 100`: the multiple of a hundredth nearest to `x`, halves rounding
    * upwards. */
  function RoundHundredth(x: real): (r: real)
    ensures IsHundredths(r)
    ensures r - 0.005 <= x < r + 0.005
  {
    var n := RoundInt(x * 100.0);
    assert n as real / 100.0 * 100.0 == n as real;
    n as real / 100.0
  }

  /** Only one multiple of a hundredth lies within a half-hundredth of `x` (below it or at it),
    * so the two clauses of `RoundHundredth` fix its result. */
  lemma RoundHundredthUnique(x: real, y: real)
    requires IsHundredths(y) && y - 0.005 <= x < y + 0.005
    ensures y == RoundHundredth(x)
  {
    var r := RoundHundredth(x);
    var m, k := (y * 100.0).Floor, (r * 100.0).Floor;
    assert m as real == y * 100.0 && k as real == r * 100.0;
    assert (m - k) as real < 1.0 && (k - m) as real < 1.0;
  }

  datatype ImpactMetrics = ImpactMetrics(
    totalCo2ReductionKg: real,
    totalCostSavingYen: int,
    totalWeightKg: real,
    totalTransportCo2Kg: real)

  /** The metrics of avoided figures and a transport emission: the net CO2 (avoided minus
    * transport), weight and transport to the hundredth, the cost to the yen. */
  function Rounded(avoided: Figures, transport: real): (m: ImpactMetrics)
    ensures IsHundredths(m.totalCo2ReductionKg)
    ensures m.totalCo2ReductionKg - 0.005 <= avoided.co2 - transport < m.totalCo2ReductionKg + 0.005
    ensures m.totalCostSavingYen as real - 0.5 <= avoided.cost < m.totalCostSavingYen as real + 0.5
    ensures IsHundredths(m.totalWeightKg)
    ensures m.totalWeightKg - 0.005 <= avoided.weight < m.totalWeightKg + 0.005
    ensures IsHundredths(m.totalTransportCo2Kg)
    ensures m.totalTransportCo2Kg - 0.005 <= transport < m.totalTransportCo2Kg + 0.005
  {
    ImpactMetrics(RoundHundredth(avoided.co2 - transport), RoundInt(avoided.cost),
                  RoundHundredth(avoided.weight), RoundHundredth(transport))
  }

  /** The figures of one record's lines, as the inner loop accumulates them. */
  method SumRecord(products: seq<Product>, lines: seq<DonationLine>) returns (f: Figures)
    ensures f == RecordFigures(products, lines)
  {
    f := NoFigures;
    var i := 0;
    while i < |lines|
      invariant 0 <= i <= |lines|
      invariant f == RecordFigures(products, lines[..i])
    {
      assert lines[..i + 1][..i] == lines[..i];
      f := Plus(f, LineFigures(products, lines[i]));
      i := i + 1;
    }
    assert lines[..i] == lines;
  }

  /** `calculateImpactMetrics`: the loop over the records, charging each its transport. */
  method CalculateImpactMetrics(records: seq<DonationRecord>, products: seq<Product>) returns (m: ImpactMetrics)
    ensures m == Rounded(TotalFigures(products, records), TotalTransport(products, records))
  {
    var avoided := NoFigures;
    var transport := 0.0;
    var i := 0;
    while i < |records|
      invariant 0 <= i <= |records|
      invariant avoided == TotalFigures(products, records[..i])
      invariant transport == TotalTransport(products, records[..i])
    {
      assert records[..i + 1][..i] == records[..i];
      var recordFigures := SumRecord(products, records[i].items);
      avoided := Plus(avoided, recordFigures);
      if TruthyReal(records[i].distanceKm) && recordFigures.weight > 0.0 {
        transport := transport + TransportEmission(recordFigures.weight, records[i].distanceKm.value);
      }
      i := i + 1;
    }
    assert records[..i] == records;
    m := Rounded(avoided, transport);
  }

  // ---------------------------------------------------------------- properties

  /** Lines naming no product add nothing to a record. */
  lemma {:induction false} UnmatchedLinesAddNothing(products: seq<Product>, lines: seq<DonationLine>, extra: seq<DonationLine>)
    requires forall k :: 0 <= k < |extra| ==> FirstNamed(products, extra[k].productName).None?
    ensures RecordFigures(products, lines + extra) == RecordFigures(products, lines)
    decreases |extra|
  {
    if extra == [] {
      assert lines + extra == lines;
    } else {
      var init := extra[..|extra| - 1];
      assert (lines + extra)[..|lines + extra| - 1] == lines + init;
      UnmatchedLinesAddNothing(products, lines, init);
    }
  }

  /** Records none of whose lines names a product avoid nothing and are charged no transport. */
  lemma {:induction false} UnmatchedRecordsHaveNoImpact(products: seq<Product>, records: seq<DonationRecord>)
    requires forall r, k :: 0 <= r < |records| && 0 <= k < |records[r].items| ==>
      FirstNamed(products, records[r].items[k].productName).None?
    ensures TotalFigures(products, records) == NoFigures
    ensures TotalTransport(products, records) == 0.0
    decreases |records|
  {
    if records != [] {
      var last := records[|records| - 1];
      UnmatchedLinesAddNothing(products, [], last.items);
      assert [] + last.items == last.items;
      UnmatchedRecordsHaveNoImpact(products, records[..|records| - 1]);
    }
  }

  /** Without records every metric is zero. */
  lemma NoRecordsNoImpact(products: seq<Product>)
    ensures Rounded(TotalFigures(products, []), TotalTransport(products, [])) == ImpactMetrics(0.0, 0, 0.0, 0.0)
  {
    assert (0.0 * 100.0 + 0.5).Floor == 0;
  }

  /** The net reduction can be negative: a product with weight and no CO2 figure, carried
    * 100 km, only costs CO2. */
  lemma NetReductionCanBeNegative()
    ensures var p := Product("p", "rice", Staple, "kg", 365, [], None, None, Some(10.0), None, None, None, None);
      var rec := DonationRecord("d", "2025-01-15", "food bank", Some(100.0), [DonationLine("rice", 4, None)]);
      Rounded(TotalFigures([p], [rec]), TotalTransport([p], [rec])).totalCo2ReductionKg == -1.0
  {
    var p := Product("p", "rice", Staple, "kg", 365, [], None, None, Some(10.0), None, None, None, None);
    var line := DonationLine("rice", 4, None);
    var rec := DonationRecord("d", "2025-01-15", "food bank", Some(100.0), [line]);
    assert FirstNamed([p], "rice") == Some(p);
    var f := LineFigures([p], line);
    assert f == Figures(0.0, 0.0, 40.0);
    assert [line][..0] == [];
    assert RecordFigures([p], [line]) == Plus(NoFigures, f);
    assert [rec][..0] == [];
    assert TotalFigures([p], [rec]) == Plus(NoFigures, Figures(0.0, 0.0, 40.0));
    assert TotalTransport([p], [rec]) == 0.0 + RecordTransport(Some(100.0), 40.0);
    assert RecordTransport(Some(100.0), 40.0) == 1.0;
    assert RoundInt(-1.0 * 100.0) == -100;
  }
}
