/** The benefit analysis slide: five independent benefit estimates, the
    per-benefit inclusion checkboxes, their conditional total, and the
    enhanced ROI and payback that add the included benefits to the labor
    savings. */
module Benefits {
  import opened Inputs
  import opened Wrappers
  import RealArith
  import RoiMetrics
  import CostProjection

  /** The five benefits a checkbox can include or exclude. */
  datatype BenefitKey = ReworkReduction | DataArchival | ChangeManagement | Fabrication | ConcreteFloor

  /** Every key, in the order the total adds them up. */
  const AllKeys: seq<BenefitKey> := [ReworkReduction, DataArchival, ChangeManagement, Fabrication, ConcreteFloor]

  /** One inclusion flag per benefit. */
  datatype Toggles = Toggles(
    reworkReduction: bool,
    dataArchival: bool,
    changeManagement: bool,
    fabrication: bool,
    concreteFloor: bool)
  {
    function Enabled(k: BenefitKey): bool {
      match k
      case ReworkReduction => reworkReduction
      case DataArchival => dataArchival
      case ChangeManagement => changeManagement
      case Fabrication => fabrication
      case ConcreteFloor => concreteFloor
    }
  }

  /** The checkbox handler: flips the named benefit and no other. */
  function ToggleBenefit(on: Toggles, k: BenefitKey): (r: Toggles)
    ensures r.Enabled(k) == !on.Enabled(k)
    ensures forall j :: j != k ==> r.Enabled(j) == on.Enabled(j)
  {
    match k
    case ReworkReduction => on.(reworkReduction := !on.reworkReduction)
    case DataArchival => on.(dataArchival := !on.dataArchival)
    case ChangeManagement => on.(changeManagement := !on.changeManagement)
    case Fabrication => on.(fabrication := !on.fabrication)
    case ConcreteFloor => on.(concreteFloor := !on.concreteFloor)
  }

  /** Every benefit starts included. */
  const AllEnabled: Toggles := Toggles(true, true, true, true, true)

  const AllDisabled: Toggles := Toggles(false, false, false, false, false)

  /** JavaScript's `Math.round`: the nearest integer, halves rounded up. */
  function Round(x: real): (n: int)
    ensures n as real - 0.5 <= x < n as real + 0.5
  {
    (x + 0.5).Floor
  }

  /** Policy constants of the estimates. */
  const AverageFabricationCost: real := 35000.0
  const FabricationWasteReduction: real := 0.15
  const TraditionalFloorAnalysisCost: real := 2500.0
  const ScanningFloorAnalysisCost: real := 800.0

  /** Traditional hours per year. */
  function AnnualHours(t: TraditionalParams): real {
    t.MonthlyHours() * 12.0
  }

  /** Yearly traditional labor cost of the survey crew. */
  function AnnualLaborCost(t: TraditionalParams): real {
    AnnualHours(t) * t.hourlyRate * t.surveyorCount
  }

  /** Rework hours per year: the rework share of the annual hours. */
  function AnnualReworkHours(t: TraditionalParams): (r: real)
    ensures r == 12.0 * RoiMetrics.MonthlyReworkHours(t)
  {
    AnnualHours(t) * (t.reworkPercentage / 100.0)
  }

  /** Yearly cost of the rework hours at the crew's rate: twice a year's
      worth of the monthly rework savings the ROI slide reports, which
      assume a fixed 50 % reduction. */
  function AnnualReworkCost(t: TraditionalParams): (r: real)
    ensures r == 24.0 * RoiMetrics.ReworkCostSavings(t)
    ensures t.Valid() ==> r >= 0.0
  {
    RealArith.MulNonNegative(AnnualReworkHours(t), t.hourlyRate);
    RealArith.MulNonNegative(AnnualReworkHours(t) * t.hourlyRate, t.surveyorCount);
    AnnualReworkHours(t) * t.hourlyRate * t.surveyorCount
  }

  /** Cost of the rework hours the selected reduction percentage removes:
      that percentage of the annual rework cost, so never more than the
      whole rework cost for a reduction between 0 and 100 %. */
  function ReworkCostSaved(t: TraditionalParams, selectedReduction: real): (r: real)
    ensures r * 100.0 == AnnualReworkCost(t) * selectedReduction
    ensures t.Valid() && 0.0 <= selectedReduction <= 100.0 ==> 0.0 <= r <= AnnualReworkCost(t)
  {
    var hoursSaved := AnnualReworkHours(t) * (selectedReduction / 100.0);
    var r := hoursSaved * t.hourlyRate * t.surveyorCount;
    var share := selectedReduction / 100.0;
    RealArith.ScaledProduct(AnnualReworkHours(t), share, t.hourlyRate * t.surveyorCount);
    assert r == AnnualReworkCost(t) * share;
    RealArith.MulNonNegative(AnnualReworkCost(t), share);
    RealArith.MulNonNegative(AnnualReworkCost(t), 1.0 - share);
    r
  }

  /** Value of the archived scan data: 5 % of an annual project value
      estimated at five times the annual labor cost. */
  function DataArchivalValue(t: TraditionalParams): (r: real)
    ensures r * 4.0 == AnnualLaborCost(t)
  {
    var annualProjectValue := AnnualLaborCost(t) * 5.0;
    annualProjectValue * 0.05
  }

  /** Change management: a tenth of the year's projects change, and
      scanning saves half of their field and deliverable hours. */
  function ChangeManagementSavings(t: TraditionalParams): (r: real)
    ensures r * 20.0 == AnnualLaborCost(t)
  {
    var changeMgmtProjects := t.monthlyProjects * 12.0 * 0.1;
    var changeMgmtHoursSaved := (t.fieldMeasurementHours + t.deliverablesHours) * 0.5 * changeMgmtProjects;
    changeMgmtHoursSaved * t.hourlyRate * t.surveyorCount
  }

  /** Projects a year that involve prefabrication: 30 % of them, rounded,
      and at least one. */
  function FabricationProjects(t: TraditionalParams): (n: int)
    ensures n >= 1
    ensures n == 1 <==> t.monthlyProjects * 3.6 < 1.5
    ensures n >= Round(t.monthlyProjects * 12.0 * 0.3)
    ensures t.monthlyProjects * 3.6 >= 0.5 ==> n == Round(t.monthlyProjects * 12.0 * 0.3)
  {
    var rounded := Round(t.monthlyProjects * 12.0 * 0.3);
    if 1 < rounded then rounded else 1
  }

  /** Fabrication waste avoided: 15 % of an average fabrication cost per
      prefabrication project. */
  function FabricationSavings(t: TraditionalParams): (r: real)
    ensures r == FabricationProjects(t) as real * 5250.0
    ensures r >= 5250.0
  {
    FabricationProjects(t) as real * AverageFabricationCost * FabricationWasteReduction
  }

  /** Projects a year that need a floor flatness analysis: 20 % of them,
      rounded, and at least one. */
  function ConcreteFloorProjects(t: TraditionalParams): (n: int)
    ensures n >= 1
    ensures n == 1 <==> t.monthlyProjects * 2.4 < 1.5
    ensures n >= Round(t.monthlyProjects * 12.0 * 0.2)
    ensures t.monthlyProjects * 2.4 >= 0.5 ==> n == Round(t.monthlyProjects * 12.0 * 0.2)
  {
    var rounded := Round(t.monthlyProjects * 12.0 * 0.2);
    if 1 < rounded then rounded else 1
  }

  /** Floor analyses done by scanning instead of the traditional way. */
  function ConcreteFloorSavings(t: TraditionalParams): (r: real)
    ensures r == ConcreteFloorProjects(t) as real * 1700.0
    ensures r >= 1700.0
  {
    ConcreteFloorProjects(t) as real * (TraditionalFloorAnalysisCost - ScanningFloorAnalysisCost)
  }

  /** Labor saved a year, recomputed from the scanning hours rather than
      taken from the ROI figures; priced at the surveyor crew rate. */
  function LaborSavings(t: TraditionalParams, s: ScanningParams): (r: real)
    ensures r == RoiMetrics.MonthlyTimeSavings(t.TotalHours(), s.TotalHours(), t.monthlyProjects)
                 * 12.0 * t.hourlyRate * t.surveyorCount
  {
    var monthlyTimeSavings := t.MonthlyHours() - s.TotalHours() * t.monthlyProjects;
    var annualTimeSavings := monthlyTimeSavings * 12.0;
    annualTimeSavings * t.hourlyRate * t.surveyorCount
  }

  /** Everything the benefit slide computes. */
  datatype BenefitAnalysis = BenefitAnalysis(
    annualReworkHours: real,
    annualReworkCost: real,
    hoursSaved: real,
    costSaved: real,
    dataArchivalValue: real,
    changeMgmtSavings: real,
    fabricationSavings: real,
    concreteFloorAnalysisSavings: real,
    laborSavings: real)
  {
    /** The estimate a checkbox includes. */
    function Estimate(k: BenefitKey): real {
      match k
      case ReworkReduction => costSaved
      case DataArchival => dataArchivalValue
      case ChangeManagement => changeMgmtSavings
      case Fabrication => fabricationSavings
      case ConcreteFloor => concreteFloorAnalysisSavings
    }
  }

  /** The benefit analysis for the inputs and the selected rework
      reduction percentage. */
  function CalculateBenefitAnalysis(t: TraditionalParams, s: ScanningParams, selectedReduction: real): (b: BenefitAnalysis)
    ensures b.annualReworkHours == 12.0 * RoiMetrics.MonthlyReworkHours(t)
    ensures b.annualReworkCost == 24.0 * RoiMetrics.ReworkCostSavings(t)
    ensures b.hoursSaved * 100.0 == b.annualReworkHours * selectedReduction
    ensures b.costSaved * 100.0 == b.annualReworkCost * selectedReduction
    ensures b.dataArchivalValue * 4.0 == AnnualLaborCost(t)
    ensures b.changeMgmtSavings * 20.0 == AnnualLaborCost(t)
    ensures b.dataArchivalValue == 5.0 * b.changeMgmtSavings
    ensures b.fabricationSavings == FabricationProjects(t) as real * 5250.0
    ensures b.concreteFloorAnalysisSavings == ConcreteFloorProjects(t) as real * 1700.0
    ensures b.fabricationSavings >= 5250.0 && b.concreteFloorAnalysisSavings >= 1700.0
    ensures b.laborSavings == LaborSavings(t, s)
  {
    var annualReworkHours := AnnualReworkHours(t);
    var hoursSaved := annualReworkHours * (selectedReduction / 100.0);
    BenefitAnalysis(
      annualReworkHours,
      AnnualReworkCost(t),
      hoursSaved,
      ReworkCostSaved(t, selectedReduction),
      DataArchivalValue(t),
      ChangeManagementSavings(t),
      FabricationSavings(t),
      ConcreteFloorSavings(t),
      LaborSavings(t, s))
  }

  /** Valid inputs and a non-negative reduction give non-negative
      estimates. */
  lemma EstimatesNonNegative(t: TraditionalParams, s: ScanningParams, selectedReduction: real, k: BenefitKey)
    requires t.Valid() && selectedReduction >= 0.0
    ensures CalculateBenefitAnalysis(t, s, selectedReduction).Estimate(k) >= 0.0
  {
    var b := CalculateBenefitAnalysis(t, s, selectedReduction);
    RealArith.MulNonNegative(t.TotalHours(), t.monthlyProjects);
    RealArith.MulNonNegative(AnnualHours(t), t.hourlyRate);
    RealArith.MulNonNegative(AnnualHours(t) * t.hourlyRate, t.surveyorCount);
    match k
    case ReworkReduction =>
      RealArith.MulNonNegative(AnnualHours(t), t.reworkPercentage / 100.0);
      RealArith.MulNonNegative(AnnualReworkCost(t), selectedReduction / 100.0);
    case DataArchival =>
    case ChangeManagement =>
    case Fabrication =>
    case ConcreteFloor =>
  }

  /** The total of the included benefits, added up one checkbox at a time
      in the order of the slide; it equals the fold `IncludedSum` over all
      five keys. */
  function TotalAdditionalBenefits(b: BenefitAnalysis, on: Toggles): (r: real)
    ensures r == IncludedSum(b, on, AllKeys)
  {
    var total := 0.0;
    var total := if on.reworkReduction then total + b.costSaved else total;
    var total := if on.dataArchival then total + b.dataArchivalValue else total;
    var total := if on.changeManagement then total + b.changeMgmtSavings else total;
    var total := if on.fabrication then total + b.fabricationSavings else total;
    var total := if on.concreteFloor then total + b.concreteFloorAnalysisSavings else total;
    var ks := AllKeys;
    assert ks[1..][1..][1..][1..][1..] == [];
    assert IncludedSum(b, on, ks[1..][1..][1..][1..]) == (if on.concreteFloor then b.concreteFloorAnalysisSavings else 0.0);
    assert IncludedSum(b, on, ks[1..][1..][1..]) ==
      (if on.fabrication then b.fabricationSavings else 0.0) + IncludedSum(b, on, ks[1..][1..][1..][1..]);
    assert IncludedSum(b, on, ks[1..][1..]) ==
      (if on.changeManagement then b.changeMgmtSavings else 0.0) + IncludedSum(b, on, ks[1..][1..][1..]);
    assert IncludedSum(b, on, ks[1..]) ==
      (if on.dataArchival then b.dataArchivalValue else 0.0) + IncludedSum(b, on, ks[1..][1..]);
    total
  }

  /** Reference definition of the total: a fold over a list of keys that
      adds the estimate of each enabled key. */
  function IncludedSum(b: BenefitAnalysis, on: Toggles, keys: seq<BenefitKey>): real {
    if |keys| == 0 then 0.0
    else (if on.Enabled(keys[0]) then b.Estimate(keys[0]) else 0.0) + IncludedSum(b, on, keys[1..])
  }

  predicate Distinct(keys: seq<BenefitKey>) {
    forall i, j :: 0 <= i < j < |keys| ==> keys[i] != keys[j]
  }

  /** Flipping one key changes the fold over distinct keys by exactly that
      key's estimate, added or removed, if the key is among them, and not
      at all otherwise. */
  lemma {:induction false} IncludedSumToggle(b: BenefitAnalysis, on: Toggles, k: BenefitKey, keys: seq<BenefitKey>)
    requires Distinct(keys)
    ensures IncludedSum(b, ToggleBenefit(on, k), keys) == IncludedSum(b, on, keys)
      + (if k !in keys then 0.0 else if on.Enabled(k) then -b.Estimate(k) else b.Estimate(k))
  {
    if |keys| > 0 {
      assert Distinct(keys[1..]) by {
        forall i, j | 0 <= i < j < |keys[1..]| ensures keys[1..][i] != keys[1..][j] {
          assert keys[1..][i] == keys[i + 1] && keys[1..][j] == keys[j + 1];
        }
      }
      IncludedSumToggle(b, on, k, keys[1..]);
      assert keys == [keys[0]] + keys[1..];
      if keys[0] == k {
        assert k !in keys[1..] by {
          forall i | 0 <= i < |keys[1..]| ensures keys[1..][i] != k {
            assert keys[1..][i] == keys[i + 1];
          }
        }
      }
    }
  }

  /** The checkbox handler changes the total by the flipped benefit's
      estimate only: added when it becomes included, removed when it
      becomes excluded. */
  lemma ToggleChangesTotalByOneEstimate(b: BenefitAnalysis, on: Toggles, k: BenefitKey)
    ensures TotalAdditionalBenefits(b, ToggleBenefit(on, k)) == TotalAdditionalBenefits(b, on)
      + (if on.Enabled(k) then -b.Estimate(k) else b.Estimate(k))
  {
    IncludedSumToggle(b, on, k, AllKeys);
    assert k in AllKeys by {
      match k
      case ReworkReduction => assert AllKeys[0] == k;
      case DataArchival => assert AllKeys[1] == k;
      case ChangeManagement => assert AllKeys[2] == k;
      case Fabrication => assert AllKeys[3] == k;
      case ConcreteFloor => assert AllKeys[4] == k;
    }
  }

  /** With every checkbox cleared nothing is added; with every box ticked
      all five estimates are. */
  lemma TotalOfExtremes(b: BenefitAnalysis)
    ensures TotalAdditionalBenefits(b, AllDisabled) == 0.0
    ensures TotalAdditionalBenefits(b, AllEnabled)
      == b.costSaved + b.dataArchivalValue + b.changeMgmtSavings + b.fabricationSavings + b.concreteFloorAnalysisSavings
  {
  }

  /** With non-negative estimates, including more benefits never lowers the
      total. */
  lemma {:induction false} IncludedSumMonotone(b: BenefitAnalysis, on: Toggles, more: Toggles, keys: seq<BenefitKey>)
    requires forall k :: b.Estimate(k) >= 0.0
    requires forall k :: on.Enabled(k) ==> more.Enabled(k)
    ensures 0.0 <= IncludedSum(b, on, keys) <= IncludedSum(b, more, keys)
  {
    if |keys| > 0 {
      IncludedSumMonotone(b, on, more, keys[1..]);
    }
  }

  /** With non-negative estimates the total lies between nothing and the
      sum of all five estimates. */
  lemma TotalBetweenNoneAndAll(b: BenefitAnalysis, on: Toggles)
    requires forall k :: b.Estimate(k) >= 0.0
    ensures 0.0 <= TotalAdditionalBenefits(b, on) <= TotalAdditionalBenefits(b, AllEnabled)
  {
    IncludedSumMonotone(b, on, AllEnabled, AllKeys);
  }

  /** Annual ROI plus the included benefits as a percentage of the
      investment. */
  function EnhancedRoi(roi: real, includedTotal: real, investment: real): (r: real)
    requires investment > 0.0
    ensures (r - roi) * investment == includedTotal * 100.0
    ensures r >= roi <==> includedTotal >= 0.0
    ensures r == roi <==> includedTotal == 0.0
  {
    roi + (includedTotal / investment) * 100.0
  }

  /** Months to recover the investment from the monthly labor saving plus a
      twelfth of the included benefits. The source divides unguarded: a
      zero denominator gives no finite figure (None here); a negative one
      gives a negative figure, as it does in the source. */
  function EnhancedPayback(investment: real, traditionalMonthly: real, scanningMonthly: real, includedTotal: real): (r: Option<real>)
    ensures r.None? <==> traditionalMonthly - scanningMonthly + includedTotal / 12.0 == 0.0
    ensures r.Some? ==> r.value * (traditionalMonthly - scanningMonthly + includedTotal / 12.0) == investment
  {
    var denominator := traditionalMonthly - scanningMonthly + includedTotal / 12.0;
    if denominator == 0.0 then None else Some(investment / denominator)
  }

  /** With every checkbox cleared the enhanced ROI is the annual ROI. */
  lemma AllDisabledEnhancedRoiIsAnnualRoi(b: BenefitAnalysis, traditionalMonthly: real, scanningMonthly: real, investment: real)
    requires investment > 0.0
    ensures EnhancedRoi(RoiMetrics.AnnualRoi(traditionalMonthly, scanningMonthly, investment),
                        TotalAdditionalBenefits(b, AllDisabled), investment)
         == RoiMetrics.AnnualRoi(traditionalMonthly, scanningMonthly, investment)
  {
    TotalOfExtremes(b);
  }

  /** With every checkbox cleared and a positive monthly saving, the
      enhanced payback is the breakeven month of the projection. */
  lemma AllDisabledPaybackIsBreakeven(b: BenefitAnalysis, traditionalMonthly: real, scanningMonthly: real, investment: real)
    requires traditionalMonthly > scanningMonthly
    ensures EnhancedPayback(investment, traditionalMonthly, scanningMonthly, TotalAdditionalBenefits(b, AllDisabled))
         == Some(CostProjection.Breakeven(traditionalMonthly, scanningMonthly, investment))
  {
    TotalOfExtremes(b);
    var p := EnhancedPayback(investment, traditionalMonthly, scanningMonthly, 0.0);
    var e := CostProjection.Breakeven(traditionalMonthly, scanningMonthly, investment);
    assert (p.value - e) * (traditionalMonthly - scanningMonthly) == 0.0;
    RealArith.ZeroProduct(p.value - e, traditionalMonthly - scanningMonthly);
  }

  /** Including benefits worth something never delays the payback: with a
      positive monthly saving it is defined and no later than the
      breakeven month. */
  lemma IncludedBenefitsShortenPayback(traditionalMonthly: real, scanningMonthly: real, investment: real, includedTotal: real)
    requires traditionalMonthly > scanningMonthly
    requires investment >= 0.0 && includedTotal >= 0.0
    ensures EnhancedPayback(investment, traditionalMonthly, scanningMonthly, includedTotal).Some?
    ensures 0.0 <= EnhancedPayback(investment, traditionalMonthly, scanningMonthly, includedTotal).value
               <= CostProjection.Breakeven(traditionalMonthly, scanningMonthly, investment)
  {
    PaybackNoLater(traditionalMonthly, scanningMonthly, investment, includedTotal,
                   EnhancedPayback(investment, traditionalMonthly, scanningMonthly, includedTotal),
                   CostProjection.Breakeven(traditionalMonthly, scanningMonthly, investment));
  }

  /** A payback that satisfies the contract of `EnhancedPayback` for a
      positive saving and a non-negative included total exists, and comes no
      later than a breakeven that satisfies the contract of `Breakeven`. */
  lemma PaybackNoLater(traditionalMonthly: real, scanningMonthly: real, investment: real, includedTotal: real,
                       payback: Option<real>, breakeven: real)
    requires traditionalMonthly > scanningMonthly
    requires investment >= 0.0 && includedTotal >= 0.0
    requires payback.None? <==> traditionalMonthly - scanningMonthly + includedTotal / 12.0 == 0.0
    requires payback.Some? ==> payback.value * (traditionalMonthly - scanningMonthly + includedTotal / 12.0) == investment
    requires breakeven * (traditionalMonthly - scanningMonthly) == investment
    ensures payback.Some? && 0.0 <= payback.value <= breakeven
  {
    var saving := traditionalMonthly - scanningMonthly;
    RealArith.QuotientShrinks(investment, saving, saving + includedTotal / 12.0, breakeven, payback.value);
  }


}
