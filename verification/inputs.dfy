/** The calculator's two input records, the scanner price list, and the
    effects that keep the scanning record consistent with the traditional one
    (the scan, processing and deliverable hours are derived, and the
    investment is the list price of the selected scanner). */
module Inputs {

  /** The scanner models the model selector offers. */
  datatype ScannerModel = X9Core | X9Premium

  /** List price of each scanner model. */
  function ListPrice(m: ScannerModel): real {
    match m
    case X9Core => 60000.0
    case X9Premium => 72000.0
  }

  /** The traditional survey workflow. Counts are reals because the form
      coerces every entry with a float parse. */
  datatype TraditionalParams = TraditionalParams(
    surveyorCount: real,
    hourlyRate: real,
    fieldMeasurementHours: real,
    deliverablesHours: real,
    monthlyProjects: real,
    reworkPercentage: real)
  {
    /** Hours one project takes the traditional way. */
    function TotalHours(): real {
      fieldMeasurementHours + deliverablesHours
    }

    /** Traditional hours worked per month, over all projects. */
    function MonthlyHours(): real {
      TotalHours() * monthlyProjects
    }

    /** Every entry is non-negative and the rework share is a percentage. */
    predicate Valid() {
      && surveyorCount >= 0.0
      && hourlyRate >= 0.0
      && fieldMeasurementHours >= 0.0
      && deliverablesHours >= 0.0
      && monthlyProjects >= 0.0
      && 0.0 <= reworkPercentage <= 100.0
    }
  }

  /** The 3D-scanning workflow. */
  datatype ScanningParams = ScanningParams(
    scannerModel: ScannerModel,
    operatorCount: real,
    scanTimeHours: real,
    processingHours: real,
    deliverablesHours: real,
    initialInvestment: real)
  {
    /** Hours one project takes with the scanner. */
    function TotalHours(): real {
      scanTimeHours + processingHours + deliverablesHours
    }
  }

  /** The investment is the list price of the selected model. */
  predicate PricedBySelection(s: ScanningParams) {
    s.initialInvestment == ListPrice(s.scannerModel)
  }

  /** The scanning hours are the fixed fractions of the traditional hours:
      a third of the field time to scan, a quarter of that to process, and a
      tenth of the traditional deliverable time. */
  predicate HoursDerivedFrom(t: TraditionalParams, s: ScanningParams) {
    && s.scanTimeHours * 3.0 == t.fieldMeasurementHours
    && s.processingHours * 4.0 == s.scanTimeHours
    && s.deliverablesHours * 10.0 == t.deliverablesHours
  }

  /** The effect run when the scanner model changes: the investment becomes
      the model's list price and nothing else changes. */
  function ApplyModelPrice(s: ScanningParams): (r: ScanningParams)
    ensures PricedBySelection(r)
    ensures r.initialInvestment > 0.0
    ensures r.(initialInvestment := s.initialInvestment) == s
  {
    s.(initialInvestment := ListPrice(s.scannerModel))
  }

  /** The effect run when the traditional field or deliverable hours change:
      the three scanning hour fields are recomputed and nothing else in the
      scanning record changes. */
  function DeriveScanningHours(t: TraditionalParams, s: ScanningParams): (r: ScanningParams)
    ensures HoursDerivedFrom(t, r)
    ensures r.TotalHours() * 60.0 == 25.0 * t.fieldMeasurementHours + 6.0 * t.deliverablesHours
    ensures r.scannerModel == s.scannerModel
    ensures r.operatorCount == s.operatorCount
    ensures r.initialInvestment == s.initialInvestment
  {
    var scanTime := t.fieldMeasurementHours / 3.0;
    var processingTime := scanTime * 0.25;
    var deliverableTime := t.deliverablesHours * 0.1;
    s.(scanTimeHours := scanTime, processingHours := processingTime, deliverablesHours := deliverableTime)
  }

  /** With derived hours and non-negative traditional hours, a scanned
      project takes at most five twelfths of the traditional time, and
      strictly less whenever the traditional project takes any time. */
  lemma DerivedHoursBound(t: TraditionalParams, s: ScanningParams)
    requires HoursDerivedFrom(t, s)
    requires t.fieldMeasurementHours >= 0.0 && t.deliverablesHours >= 0.0
    ensures 0.0 <= s.TotalHours()
    ensures s.TotalHours() * 12.0 <= t.TotalHours() * 5.0
    ensures s.TotalHours() <= t.TotalHours()
    ensures t.TotalHours() > 0.0 ==> s.TotalHours() < t.TotalHours()
  {
  }
}
