/** The headline figures of the ROI slide: time-efficiency gain, annual and
    five-year ROI, monthly time savings and rework savings, gathered with the
    cost projection into one result record. */
module RoiMetrics {
  import opened Inputs
  import opened CostProjection
  import RealArith

  /** The fixed share of traditional rework the scanner is assumed to remove. */
  const ScanningReworkReduction: real := 0.5

  /** Percentage of the traditional per-project time saved by scanning. */
  function TimeEfficiencyGain(traditionalHours: real, scanningHours: real): (r: real)
    requires traditionalHours > 0.0
    ensures r * traditionalHours == (traditionalHours - scanningHours) * 100.0
    ensures r == 100.0 <==> scanningHours == 0.0
    ensures scanningHours >= 0.0 ==> r <= 100.0
    ensures r >= 0.0 <==> scanningHours <= traditionalHours
  {
    ((traditionalHours - scanningHours) / traditionalHours) * 100.0
  }

  /** Annual operating savings as a percentage of the investment. */
  function AnnualRoi(traditionalMonthly: real, scanningMonthly: real, investment: real): (r: real)
    requires investment > 0.0
    ensures r * investment == (traditionalMonthly - scanningMonthly) * 1200.0
    ensures r > 0.0 <==> scanningMonthly < traditionalMonthly
  {
    var annualTraditionalCost := traditionalMonthly * 12.0;
    var annualScanningOperatingCost := scanningMonthly * 12.0;
    var annualSavings := annualTraditionalCost - annualScanningOperatingCost;
    (annualSavings / investment) * 100.0
  }

  /** Five-year savings, net of the investment, as a percentage of the
      investment: five years of annual ROI less the investment itself. */
  function FiveYearRoi(traditionalMonthly: real, scanningMonthly: real, investment: real): (r: real)
    requires investment > 0.0
    ensures r == 5.0 * AnnualRoi(traditionalMonthly, scanningMonthly, investment) - 100.0
    ensures r * investment == ((traditionalMonthly - scanningMonthly) * 60.0 - investment) * 100.0
    ensures r > 0.0 <==> (traditionalMonthly - scanningMonthly) * 60.0 > investment
  {
    var annualTraditionalCost := traditionalMonthly * 12.0;
    var annualScanningOperatingCost := scanningMonthly * 12.0;
    var fiveYearTraditionalCost := annualTraditionalCost * 5.0;
    var fiveYearScanningCost := annualScanningOperatingCost * 5.0 + investment;
    var fiveYearSavings := fiveYearTraditionalCost - fiveYearScanningCost;
    var r := (fiveYearSavings / investment) * 100.0;
    var annual := AnnualRoi(traditionalMonthly, scanningMonthly, investment);
    assert r * investment == fiveYearSavings * 100.0;
    assert fiveYearSavings == (traditionalMonthly - scanningMonthly) * 60.0 - investment;
    assert (r - 5.0 * annual + 100.0) * investment == 0.0;
    RealArith.ZeroProduct(r - 5.0 * annual + 100.0, investment);
    r
  }

  /** Hours saved per month over all projects. */
  function MonthlyTimeSavings(traditionalHours: real, scanningHours: real, monthlyProjects: real): (r: real)
    ensures r == (traditionalHours - scanningHours) * monthlyProjects
    ensures monthlyProjects > 0.0 ==> (r > 0.0 <==> scanningHours < traditionalHours)
    ensures monthlyProjects >= 0.0 && scanningHours <= traditionalHours ==> r >= 0.0
  {
    var traditionalMonthlyHours := traditionalHours * monthlyProjects;
    var scanningMonthlyHours := scanningHours * monthlyProjects;
    var r := traditionalMonthlyHours - scanningMonthlyHours;
    assert r == (traditionalHours - scanningHours) * monthlyProjects;
    RealArith.MulNonNegative(traditionalHours - scanningHours, monthlyProjects);
    RealArith.MulPositive(traditionalHours - scanningHours, monthlyProjects);
    r
  }

  /** Traditional rework hours per month: the rework share of the
      traditional monthly hours. */
  function MonthlyReworkHours(t: TraditionalParams): (r: real)
    ensures t.Valid() ==> 0.0 <= r <= t.MonthlyHours()
  {
    RealArith.MulNonNegative(t.TotalHours(), t.monthlyProjects);
    RealArith.MulNonNegative(t.MonthlyHours(), t.reworkPercentage / 100.0);
    RealArith.MulNonNegative(t.MonthlyHours(), 1.0 - t.reworkPercentage / 100.0);
    t.MonthlyHours() * (t.reworkPercentage / 100.0)
  }

  /** Rework hours per month the scanner saves: exactly half the
      traditional rework hours, never more than half the monthly hours. */
  function ReworkSavings(t: TraditionalParams): (r: real)
    ensures r * 2.0 == MonthlyReworkHours(t)
    ensures t.Valid() ==> 0.0 <= r * 2.0 <= t.MonthlyHours()
  {
    MonthlyReworkHours(t) * ScanningReworkReduction
  }

  /** The rework savings priced at the traditional crew rate. */
  function ReworkCostSavings(t: TraditionalParams): (r: real)
    ensures r * 2.0 == MonthlyReworkHours(t) * t.hourlyRate * t.surveyorCount
    ensures t.Valid() ==> r >= 0.0
  {
    var savings := ReworkSavings(t);
    RealArith.MulNonNegative(savings, t.hourlyRate);
    RealArith.MulNonNegative(savings * t.hourlyRate, t.surveyorCount);
    savings * t.hourlyRate * t.surveyorCount
  }

  /** Everything the ROI slide shows. */
  datatype RoiData = RoiData(
    traditionalCosts: seq<real>,
    scanningCosts: seq<real>,
    timeEfficiencyGain: real,
    roi: real,
    breakeven: real,
    fiveYearRoi: real,
    timeSavings: real,
    traditionalMonthlyCost: real,
    scanningMonthlyCost: real,
    reworkSavings: real,
    reworkPercentage: real,
    reworkCostSavings: real)

  /** The ROI slide's record for given monthly costs of both workflows. */
  function RoiFromMonthlyCosts(t: TraditionalParams, s: ScanningParams, traditionalMonthly: real, scanningMonthly: real): (r: RoiData)
    requires t.TotalHours() > 0.0
    requires s.initialInvestment > 0.0
    ensures IsCumulative(r.traditionalCosts, traditionalMonthly, 0.0)
    ensures IsCumulative(r.scanningCosts, scanningMonthly, s.initialInvestment)
    ensures r.traditionalMonthlyCost == traditionalMonthly && r.scanningMonthlyCost == scanningMonthly
    ensures traditionalMonthly > scanningMonthly ==>
      r.breakeven == s.initialInvestment / (traditionalMonthly - scanningMonthly)
    ensures traditionalMonthly <= scanningMonthly ==> r.breakeven == 0.0
    ensures r.breakeven >= 0.0
    ensures r.roi * s.initialInvestment == (traditionalMonthly - scanningMonthly) * 1200.0
    ensures r.roi > 0.0 <==> scanningMonthly < traditionalMonthly
    ensures r.fiveYearRoi == 5.0 * r.roi - 100.0
    ensures r.timeEfficiencyGain * t.TotalHours() == (t.TotalHours() - s.TotalHours()) * 100.0
    ensures r.reworkSavings * 2.0 == MonthlyReworkHours(t)
    ensures r.timeSavings == (t.TotalHours() - s.TotalHours()) * t.monthlyProjects
    ensures r.reworkPercentage == t.reworkPercentage
    ensures r.reworkCostSavings == ReworkCostSavings(t)
  {
    var projection := Project(traditionalMonthly, scanningMonthly, s.initialInvestment);
    RoiData(
      projection.traditionalCosts,
      projection.scanningCosts,
      TimeEfficiencyGain(t.TotalHours(), s.TotalHours()),
      AnnualRoi(traditionalMonthly, scanningMonthly, s.initialInvestment),
      projection.breakeven,
      FiveYearRoi(traditionalMonthly, scanningMonthly, s.initialInvestment),
      MonthlyTimeSavings(t.TotalHours(), s.TotalHours(), t.monthlyProjects),
      traditionalMonthly,
      scanningMonthly,
      ReworkSavings(t),
      t.reworkPercentage,
      ReworkCostSavings(t))
  }

  /** The whole ROI calculation, with the surveyor count as the traditional
      headcount. Division by the traditional hours and by the investment
      requires both to be positive (the price list only holds positive
      prices). */
  function CalculateRoi(t: TraditionalParams, s: ScanningParams): (r: RoiData)
    requires t.TotalHours() > 0.0
    requires s.initialInvestment > 0.0
    ensures |r.traditionalCosts| == Horizon && |r.scanningCosts| == Horizon
    ensures r.traditionalMonthlyCost == TraditionalMonthlyCost(t, t.surveyorCount)
    ensures r.scanningMonthlyCost == ScanningMonthlyCost(t, s)
    ensures r.traditionalMonthlyCost > r.scanningMonthlyCost ==>
      r.breakeven == s.initialInvestment / (r.traditionalMonthlyCost - r.scanningMonthlyCost)
    ensures r.traditionalMonthlyCost <= r.scanningMonthlyCost ==> r.breakeven == 0.0
    ensures r.breakeven >= 0.0
    ensures r.roi > 0.0 <==> r.scanningMonthlyCost < r.traditionalMonthlyCost
    ensures r.fiveYearRoi == 5.0 * r.roi - 100.0
    ensures r == RoiFromMonthlyCosts(t, s, r.traditionalMonthlyCost, r.scanningMonthlyCost)
  {
    RoiFromMonthlyCosts(t, s, TraditionalMonthlyCost(t, t.surveyorCount), ScanningMonthlyCost(t, s))
  }

  /** With the scanning hours derived from valid traditional hours, the
      gain is at least seven twelfths (about 58.3 %) and at most 100 %. */
  lemma DerivedTimeEfficiencyGain(t: TraditionalParams, s: ScanningParams)
    requires t.Valid() && t.TotalHours() > 0.0
    requires HoursDerivedFrom(t, s)
    ensures 700.0 / 12.0 <= TimeEfficiencyGain(t.TotalHours(), s.TotalHours()) <= 100.0
  {
    DerivedHoursBound(t, s);
    var g := TimeEfficiencyGain(t.TotalHours(), s.TotalHours());
    assert (g - 700.0 / 12.0) * t.TotalHours() == (t.TotalHours() * 5.0 - s.TotalHours() * 12.0) * (100.0 / 12.0);
    RealArith.FactorOfNonNegative(g - 700.0 / 12.0, t.TotalHours(), (t.TotalHours() * 5.0 - s.TotalHours() * 12.0) * (100.0 / 12.0));
  }

  /** The worked example of the default form: 24 field and 40 deliverable
      hours at 65 an hour, two surveyors, eight projects a month, derived
      scanning hours, one operator and the 60000 scanner. */
  lemma DefaultInputsExample()
    ensures
      var t := TraditionalParams(2.0, 65.0, 24.0, 40.0, 8.0, 15.0);
      var s := DeriveScanningHours(t, ScanningParams(X9Core, 1.0, 0.0, 0.0, 0.0, 60000.0));
      var r := CalculateRoi(t, s);
      && s.TotalHours() == 14.0
      && r.traditionalMonthlyCost == 66560.0
      && r.scanningMonthlyCost == 7280.0
      && r.timeEfficiencyGain == 78.125
      && r.roi == 1185.6
      && r.breakeven == 60000.0 / 59280.0
      && r.timeSavings == 400.0
      && r.reworkSavings == 38.4
  {
    var t := TraditionalParams(2.0, 65.0, 24.0, 40.0, 8.0, 15.0);
    var s := DeriveScanningHours(t, ScanningParams(X9Core, 1.0, 0.0, 0.0, 0.0, 60000.0));
    assert s.TotalHours() == 14.0;
    var r := CalculateRoi(t, s);
    assert r.traditionalMonthlyCost == 66560.0;
    assert r.scanningMonthlyCost == 7280.0;
  }
}
