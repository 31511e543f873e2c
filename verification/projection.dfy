/** The 36-month cumulative cost projection of both workflows and the
    breakeven month: the first month pair where the traditional line climbs
    above the scanning line is interpolated linearly, and when no pair
    brackets the crossing a theoretical breakeven is used instead. */
module CostProjection {
  import opened Inputs
  import opened Wrappers
  import RealArith

  /** Months in the projection. */
  const Horizon: nat := 36

  /** Monthly traditional cost. The headcount is a parameter: the source
      multiplies by a personnel field the traditional record does not hold
      (it holds `surveyorCount`), which makes the cost NaN as written; the
      calculator passes the surveyor count (see module PersonnelField). */
  function TraditionalMonthlyCost(t: TraditionalParams, personnel: real): (r: real)
    ensures t.Valid() && personnel >= 0.0 ==> r >= 0.0
  {
    var perProject := t.TotalHours() * t.hourlyRate * personnel;
    RealArith.MulNonNegative(t.TotalHours(), t.hourlyRate);
    RealArith.MulNonNegative(t.TotalHours() * t.hourlyRate, personnel);
    RealArith.MulNonNegative(perProject, t.monthlyProjects);
    perProject * t.monthlyProjects
  }

  /** Monthly scanning operating cost, at the traditional hourly rate and
      project volume. */
  function ScanningMonthlyCost(t: TraditionalParams, s: ScanningParams): (r: real)
    ensures t.Valid() && s.TotalHours() >= 0.0 && s.operatorCount >= 0.0 ==> r >= 0.0
  {
    var perProject := s.TotalHours() * t.hourlyRate * s.operatorCount;
    RealArith.MulNonNegative(s.TotalHours(), t.hourlyRate);
    RealArith.MulNonNegative(s.TotalHours() * t.hourlyRate, s.operatorCount);
    RealArith.MulNonNegative(perProject, t.monthlyProjects);
    perProject * t.monthlyProjects
  }

  /** Cumulative cost after each of the first `n` months of a workflow that
      costs `monthly` per month after an up-front outlay of `upfront`. */
  function CumulativeSeries(monthly: real, upfront: real, n: nat): (r: seq<real>)
    ensures |r| == n
    ensures forall i :: 0 <= i < n ==> r[i] == monthly * (i + 1) as real + upfront
  {
    if n == 0 then []
    else CumulativeSeries(monthly, upfront, n - 1) + [monthly * n as real + upfront]
  }

  /** `series` holds the cumulative cost after each of the 36 months of a
      workflow costing `monthly` per month after an up-front `upfront`. */
  predicate IsCumulative(series: seq<real>, monthly: real, upfront: real) {
    && |series| == Horizon
    && forall i :: 0 <= i < Horizon ==> series[i] == monthly * (i + 1) as real + upfront
  }

  /** Cumulative traditional costs, months 1 through 36. */
  function TraditionalCosts(traditionalMonthly: real): seq<real> {
    CumulativeSeries(traditionalMonthly, 0.0, Horizon)
  }

  /** Cumulative scanning costs, months 1 through 36: the whole investment
      is counted from the first month on. */
  function ScanningCosts(scanningMonthly: real, investment: real): seq<real> {
    CumulativeSeries(scanningMonthly, investment, Horizon)
  }

  lemma {:induction false} SeriesNonDecreasing(monthly: real, upfront: real, n: nat, i: nat, j: nat)
    requires monthly >= 0.0
    requires i <= j < n
    ensures CumulativeSeries(monthly, upfront, n)[i] <= CumulativeSeries(monthly, upfront, n)[j]
    ensures monthly > 0.0 && i < j ==> CumulativeSeries(monthly, upfront, n)[i] < CumulativeSeries(monthly, upfront, n)[j]
  {
    var r := CumulativeSeries(monthly, upfront, n);
    assert r[j] - r[i] == monthly * (j - i) as real;
  }

  /** The traditional line is below the scanning line at month index `i`
      and above it at `i + 1`. */
  predicate Brackets(t: seq<real>, s: seq<real>, i: nat)
    requires i + 1 < |t| && i + 1 < |s|
  {
    t[i] < s[i] && t[i + 1] > s[i + 1]
  }

  /** The first bracketing index at or after `from`, if any. */
  function FirstBracket(t: seq<real>, s: seq<real>, from: nat): (r: Option<nat>)
    requires |t| == |s|
    ensures r.Some? ==>
      && from <= r.value
      && r.value + 1 < |t|
      && Brackets(t, s, r.value)
      && forall k :: from <= k < r.value ==> !Brackets(t, s, k)
    ensures r.None? ==> forall k :: from <= k && k + 1 < |t| ==> !Brackets(t, s, k)
    decreases |t| - from
  {
    if from + 1 >= |t| then None
    else if Brackets(t, s, from) then Some(from)
    else FirstBracket(t, s, from + 1)
  }

  /** Linear interpolation between month `i + 1` and month `i + 2`, where
      the traditional costs are `t1`, `t2` and the scanning costs `s1`, `s2`.
      The bracket makes the denominator `(t2 - t1) - (s2 - s1)` positive,
      so the division never fails; the result lies strictly between the two
      months and is where the two interpolating lines meet. */
  function Interpolate(i: nat, t1: real, t2: real, s1: real, s2: real): (r: real)
    requires t1 < s1 && t2 > s2
    ensures (i + 1) as real < r < (i + 2) as real
    ensures t1 + (t2 - t1) * (r - (i + 1) as real) == s1 + (s2 - s1) * (r - (i + 1) as real)
  {
    var m1 := (i + 1) as real;
    var m2 := (i + 2) as real;
    var denominator := t2 - t1 - (s2 - s1);
    var r := m1 + ((m2 - m1) * (s1 - t1)) / denominator;
    assert m2 - m1 == 1.0;
    RealArith.InterpolationStep(t1, t2, s1, s2, r - m1);
    r
  }

  /** Investment divided by the monthly saving, or 0 when there is no
      positive saving (the source reports 0 there, not an absent value). */
  function TheoreticalBreakeven(traditionalMonthly: real, scanningMonthly: real, investment: real): (r: real)
    ensures traditionalMonthly > scanningMonthly ==> r * (traditionalMonthly - scanningMonthly) == investment
    ensures traditionalMonthly <= scanningMonthly ==> r == 0.0
  {
    var monthlySavings := traditionalMonthly - scanningMonthly;
    if monthlySavings > 0.0 then investment / monthlySavings else 0.0
  }

  /** The interpolated crossing inside the bracket at month index `i`: it
      lies strictly between months `i + 1` and `i + 2`, the bracket implies a
      positive monthly saving, and because both cumulative lines are straight
      the interpolation is exact — the crossing is the investment over the
      monthly saving. */
  function InterpolatedBreakeven(traditionalMonthly: real, scanningMonthly: real, investment: real, i: nat): (r: real)
    requires i + 1 < Horizon
    requires Brackets(TraditionalCosts(traditionalMonthly), ScanningCosts(scanningMonthly, investment), i)
    ensures (i + 1) as real < r < (i + 2) as real
    ensures traditionalMonthly > scanningMonthly
    ensures r * (traditionalMonthly - scanningMonthly) == investment
  {
    var t := TraditionalCosts(traditionalMonthly);
    var s := ScanningCosts(scanningMonthly, investment);
    BracketNeedsSavings(traditionalMonthly, scanningMonthly, investment, i);
    var m1, m2 := (i + 1) as real, (i + 2) as real;
    assert t[i] == traditionalMonthly * m1 && t[i + 1] == traditionalMonthly * m2;
    assert s[i] == scanningMonthly * m1 + investment && s[i + 1] == scanningMonthly * m2 + investment;
    var r := Interpolate(i, t[i], t[i + 1], s[i], s[i + 1]);
    LinesMeetAtClosedForm(traditionalMonthly, scanningMonthly, investment, m1, m2, t[i], t[i + 1], s[i], s[i + 1], r);
    r
  }

  /** Breakeven month: the interpolated crossing in the first bracketing
      month pair, else the theoretical breakeven. On either branch it is the
      investment over the monthly saving when there is a positive saving,
      and 0 otherwise. */
  function Breakeven(traditionalMonthly: real, scanningMonthly: real, investment: real): (r: real)
    ensures traditionalMonthly > scanningMonthly ==> r * (traditionalMonthly - scanningMonthly) == investment
    ensures traditionalMonthly <= scanningMonthly ==> r == 0.0
  {
    match FirstBracket(TraditionalCosts(traditionalMonthly), ScanningCosts(scanningMonthly, investment), 0)
    case Some(i) => InterpolatedBreakeven(traditionalMonthly, scanningMonthly, investment, i)
    case None => TheoreticalBreakeven(traditionalMonthly, scanningMonthly, investment)
  }

  /** A bracket in the projection can only occur when the traditional
      workflow costs strictly more per month. */
  lemma BracketNeedsSavings(traditionalMonthly: real, scanningMonthly: real, investment: real, i: nat)
    requires i + 1 < Horizon
    requires Brackets(TraditionalCosts(traditionalMonthly), ScanningCosts(scanningMonthly, investment), i)
    ensures traditionalMonthly > scanningMonthly
  {
    var t := TraditionalCosts(traditionalMonthly);
    var s := ScanningCosts(scanningMonthly, investment);
    assert t[i + 1] - t[i] == traditionalMonthly;
    assert s[i + 1] - s[i] == scanningMonthly;
  }

  /** Two lines `a * x` and `b * x + c`, sampled at `m1` and `m2 == m1 + 1`
      as `t1`, `t2` and `s1`, `s2`, whose interpolations meet at `r`, meet
      where `(a - b) * r == c`. */
  lemma LinesMeetAtClosedForm(a: real, b: real, c: real, m1: real, m2: real,
                              t1: real, t2: real, s1: real, s2: real, r: real)
    requires m2 == m1 + 1.0
    requires t1 == a * m1 && t2 == a * m2
    requires s1 == b * m1 + c && s2 == b * m2 + c
    requires t1 + (t2 - t1) * (r - m1) == s1 + (s2 - s1) * (r - m1)
    ensures (a - b) * r == c
  {
    assert t2 - t1 == a;
    assert s2 - s1 == b;
    assert a * m1 + a * (r - m1) == a * r;
    assert b * m1 + b * (r - m1) == b * r;
  }

  /** When the traditional line is below the scanning line at the end of
      month `i + 1` and above it at the end of month `i + 2` (the bracket
      the search looks for), the breakeven lies strictly between the two
      months. */
  lemma BreakevenInsideBracket(traditionalMonthly: real, scanningMonthly: real, investment: real, i: nat)
    requires traditionalMonthly * (i + 1) as real < scanningMonthly * (i + 1) as real + investment
    requires traditionalMonthly * (i + 2) as real > scanningMonthly * (i + 2) as real + investment
    ensures (i + 1) as real < Breakeven(traditionalMonthly, scanningMonthly, investment) < (i + 2) as real
  {
    RealArith.CrossingBetween(traditionalMonthly, scanningMonthly, investment, (i + 1) as real, (i + 2) as real,
                              Breakeven(traditionalMonthly, scanningMonthly, investment));
  }

  /** For a non-negative investment the breakeven is never negative. */
  lemma BreakevenNonNegative(traditionalMonthly: real, scanningMonthly: real, investment: real)
    ensures investment >= 0.0 ==> Breakeven(traditionalMonthly, scanningMonthly, investment) >= 0.0
  {
    if investment >= 0.0 && traditionalMonthly > scanningMonthly {
      var b := Breakeven(traditionalMonthly, scanningMonthly, investment);
      RealArith.FactorOfNonNegative(b, traditionalMonthly - scanningMonthly, investment);
    }
  }

  /** With a positive monthly saving the breakeven is the investment divided
      by that saving. */
  lemma BreakevenIsQuotient(traditionalMonthly: real, scanningMonthly: real, investment: real)
    ensures traditionalMonthly > scanningMonthly ==>
      Breakeven(traditionalMonthly, scanningMonthly, investment) == investment / (traditionalMonthly - scanningMonthly)
  {
    RealArith.QuotientOfProduct(Breakeven(traditionalMonthly, scanningMonthly, investment),
                                traditionalMonthly - scanningMonthly, investment);
  }

  /** The projection the ROI slide charts: both cumulative series and the
      breakeven month. */
  datatype Projection = Projection(traditionalCosts: seq<real>, scanningCosts: seq<real>, breakeven: real)

  function Project(traditionalMonthly: real, scanningMonthly: real, investment: real): (p: Projection)
    ensures IsCumulative(p.traditionalCosts, traditionalMonthly, 0.0)
    ensures IsCumulative(p.scanningCosts, scanningMonthly, investment)
    ensures traditionalMonthly > scanningMonthly ==>
      p.breakeven == investment / (traditionalMonthly - scanningMonthly)
    ensures traditionalMonthly <= scanningMonthly ==> p.breakeven == 0.0
    ensures investment >= 0.0 ==> p.breakeven >= 0.0
  {
    var breakeven := Breakeven(traditionalMonthly, scanningMonthly, investment);
    BreakevenIsQuotient(traditionalMonthly, scanningMonthly, investment);
    BreakevenNonNegative(traditionalMonthly, scanningMonthly, investment);
    Projection(TraditionalCosts(traditionalMonthly), ScanningCosts(scanningMonthly, investment), breakeven)
  }
}
