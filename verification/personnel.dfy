/** The traditional per-project cost as the source writes it multiplies by
    `traditionalInfo.numberOfPersonnel`, a field the traditional state record
    does not have (it has `surveyorCount`). Reading it gives `undefined`,
    which arithmetic turns into NaN, so the traditional monthly cost and
    every figure derived from it are NaN; since every comparison with NaN
    is false, the breakeven search never finds a bracket and the fallback
    reports 0. This module models that behaviour with a small model of
    JavaScript numbers; the rest of the calculator uses the surveyor count
    (see `RoiMetrics.CalculateRoi`). */
module PersonnelField {
  import opened Inputs
  import opened Wrappers
  import CostProjection
  import RoiMetrics

  /** The JavaScript numbers this computation can produce: finite values
      and NaN. */
  datatype JsNumber = Finite(v: real) | NaN

  function Add(a: JsNumber, b: JsNumber): JsNumber {
    if a.Finite? && b.Finite? then Finite(a.v + b.v) else NaN
  }

  function Sub(a: JsNumber, b: JsNumber): JsNumber {
    if a.Finite? && b.Finite? then Finite(a.v - b.v) else NaN
  }

  function Mul(a: JsNumber, b: JsNumber): JsNumber {
    if a.Finite? && b.Finite? then Finite(a.v * b.v) else NaN
  }

  /** Division, for divisors that are NaN or non-zero. */
  function Div(a: JsNumber, b: JsNumber): JsNumber
    requires b.Finite? ==> b.v != 0.0
  {
    if a.Finite? && b.Finite? then Finite(a.v / b.v) else NaN
  }

  /** `<` and `>`: false whenever either side is NaN. */
  predicate Less(a: JsNumber, b: JsNumber) {
    a.Finite? && b.Finite? && a.v < b.v
  }

  predicate Greater(a: JsNumber, b: JsNumber) {
    a.Finite? && b.Finite? && a.v > b.v
  }

  /** Property access on the traditional state record: a name the record
      does not have reads as `undefined` (None). */
  function TraditionalField(t: TraditionalParams, name: string): (r: Option<real>)
    ensures r.Some? <==> name in {"surveyorCount", "hourlyRate", "fieldMeasurementHours",
                                   "deliverablesHours", "monthlyProjects", "reworkPercentage"}
  {
    if name == "surveyorCount" then Some(t.surveyorCount)
    else if name == "hourlyRate" then Some(t.hourlyRate)
    else if name == "fieldMeasurementHours" then Some(t.fieldMeasurementHours)
    else if name == "deliverablesHours" then Some(t.deliverablesHours)
    else if name == "monthlyProjects" then Some(t.monthlyProjects)
    else if name == "reworkPercentage" then Some(t.reworkPercentage)
    else None
  }

  /** Numeric coercion: `undefined` becomes NaN. */
  function ToNumber(o: Option<real>): JsNumber {
    match o
    case Some(x) => Finite(x)
    case None => NaN
  }

  /** The traditional monthly cost as written: NaN for every input, while
      the corrected cost is a finite value. */
  function TraditionalMonthlyCostAsWritten(t: TraditionalParams): (r: JsNumber)
    ensures r.NaN?
  {
    var totalHours := Finite(t.TotalHours());
    var perProject := Mul(Mul(totalHours, Finite(t.hourlyRate)), ToNumber(TraditionalField(t, "numberOfPersonnel")));
    Mul(perProject, Finite(t.monthlyProjects))
  }

  /** Cumulative costs in JavaScript numbers. */
  function JsSeries(monthly: JsNumber, upfront: real, n: nat): (r: seq<JsNumber>)
    ensures |r| == n
    ensures forall i :: 0 <= i < n ==> r[i] == Add(Mul(monthly, Finite((i + 1) as real)), Finite(upfront))
  {
    if n == 0 then []
    else JsSeries(monthly, upfront, n - 1) + [Add(Mul(monthly, Finite(n as real)), Finite(upfront))]
  }

  predicate JsBrackets(t: seq<JsNumber>, s: seq<JsNumber>, i: nat)
    requires i + 1 < |t| && i + 1 < |s|
  {
    Less(t[i], s[i]) && Greater(t[i + 1], s[i + 1])
  }

  /** The breakeven search of the source over JavaScript numbers. */
  function JsFirstBracket(t: seq<JsNumber>, s: seq<JsNumber>, from: nat): (r: Option<nat>)
    requires |t| == |s|
    ensures r.Some? ==>
      && from <= r.value
      && r.value + 1 < |t|
      && JsBrackets(t, s, r.value)
      && forall k :: from <= k < r.value ==> !JsBrackets(t, s, k)
    ensures r.None? ==> forall k :: from <= k && k + 1 < |t| ==> !JsBrackets(t, s, k)
    decreases |t| - from
  {
    if from + 1 >= |t| then None
    else if JsBrackets(t, s, from) then Some(from)
    else JsFirstBracket(t, s, from + 1)
  }

  /** The breakeven search and interpolation of the source over JavaScript
      numbers, for given monthly costs. No guard on the interpolation's
      divisor is needed: a bracket makes both cost lines finite at the two
      months and the gap between them change sign, so the divisor is
      positive. With finite monthly costs the result is a finite number. */
  function JsBreakeven(traditionalMonthly: JsNumber, scanningMonthly: JsNumber, investment: real): (r: JsNumber)
    ensures traditionalMonthly.Finite? && scanningMonthly.Finite? ==> r.Finite?
  {
    var tc := JsSeries(traditionalMonthly, 0.0, CostProjection.Horizon);
    var sc := JsSeries(scanningMonthly, investment, CostProjection.Horizon);
    match JsFirstBracket(tc, sc, 0)
    case Some(i) =>
      var m1 := Finite((i + 1) as real);
      var m2 := Finite((i + 2) as real);
      var denominator := Sub(Sub(tc[i + 1], tc[i]), Sub(sc[i + 1], sc[i]));
      Add(m1, Div(Mul(Sub(m2, m1), Sub(sc[i], tc[i])), denominator))
    case None =>
      var monthlySavings := Sub(traditionalMonthly, scanningMonthly);
      if Greater(monthlySavings, Finite(0.0)) then Div(Finite(investment), monthlySavings)
      else Finite(0.0)
  }

  /** The breakeven as written: the search runs on the NaN traditional
      cost. */
  function BreakevenAsWritten(t: TraditionalParams, s: ScanningParams): JsNumber {
    JsBreakeven(TraditionalMonthlyCostAsWritten(t), Finite(CostProjection.ScanningMonthlyCost(t, s)), s.initialInvestment)
  }

  /** The annual ROI as written. */
  function AnnualRoiAsWritten(t: TraditionalParams, s: ScanningParams): (r: JsNumber)
    requires s.initialInvestment != 0.0
    ensures r.NaN?
  {
    var annualTraditional := Mul(TraditionalMonthlyCostAsWritten(t), Finite(12.0));
    var annualScanning := Mul(Finite(CostProjection.ScanningMonthlyCost(t, s)), Finite(12.0));
    Mul(Div(Sub(annualTraditional, annualScanning), Finite(s.initialInvestment)), Finite(100.0))
  }

  /** As written, the breakeven is 0 and the annual ROI NaN for every
      input. */
  lemma AsWrittenFiguresAreDegenerate(t: TraditionalParams, s: ScanningParams)
    requires s.initialInvestment != 0.0
    ensures BreakevenAsWritten(t, s) == Finite(0.0)
    ensures AnnualRoiAsWritten(t, s).NaN?
  {
    var tc := JsSeries(TraditionalMonthlyCostAsWritten(t), 0.0, CostProjection.Horizon);
    var sc := JsSeries(Finite(CostProjection.ScanningMonthlyCost(t, s)), s.initialInvestment, CostProjection.Horizon);
    assert forall k :: 0 <= k < |tc| ==> tc[k].NaN?;
  }

  /** On the form's default inputs the discrepancy shows: the source
      reports a breakeven of 0 months, while with the surveyor count as the
      headcount the breakeven is 60000 / 59280 months, just over one. */
  lemma DefaultInputsDiscrepancy()
    ensures
      var t := TraditionalParams(2.0, 65.0, 24.0, 40.0, 8.0, 15.0);
      var s := DeriveScanningHours(t, ScanningParams(X9Core, 1.0, 0.0, 0.0, 0.0, 60000.0));
      && BreakevenAsWritten(t, s) == Finite(0.0)
      && RoiMetrics.CalculateRoi(t, s).breakeven == 60000.0 / 59280.0
      && RoiMetrics.CalculateRoi(t, s).breakeven > 1.0
  {
    var t := TraditionalParams(2.0, 65.0, 24.0, 40.0, 8.0, 15.0);
    var s := DeriveScanningHours(t, ScanningParams(X9Core, 1.0, 0.0, 0.0, 0.0, 60000.0));
    AsWrittenFiguresAreDegenerate(t, s);
    RoiMetrics.DefaultInputsExample();
  }
}
