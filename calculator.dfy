/**
 * What the page computes when the form is submitted: the two form values
 * (whole dollars, within the widgets' bounds) go through the savings
 * computation, and the tax saved and the savings efficiency are derived
 * from the two tax figures. The lemmas below specialise the bounds to the
 * configured schedule.
 */
module TaxCalculator {
  import opened TaxEngine
  import opened TaxSchedule

  /** The figures shown to the user after a calculation. */
  datatype Report = Report(
    income: real,
    deductibles: real,
    newIncome: real,
    oldTax: real,
    newTax: real,
    taxSaved: real,
    efficiency: Result<real>)

  /**
   * One submission of the form, on schedule `s` (the page uses Schedule).
   * A deduction of 0 is accepted by the form, and the efficiency is then the
   * division-by-zero error.
   */
  method Calculate(s: seq<Bracket>, income: int, deductibles: int) returns (report: Report)
    requires WellFormed(s)
    requires 1_000 <= income <= 100_000_000
    requires 0 <= deductibles <= 100_000_000
    ensures report.income == income as real && report.deductibles == deductibles as real
    ensures report.newIncome == if deductibles <= income then (income - deductibles) as real else 0.0
    ensures report.oldTax == TaxOf(s, report.income)
    ensures report.newTax == TaxOf(s, report.newIncome)
    ensures report.taxSaved == report.oldTax - report.newTax
    ensures 0.0 <= report.newTax <= report.oldTax
    ensures report.taxSaved <= report.deductibles * RateSum(s)
    ensures report.efficiency == Efficiency(report.oldTax, report.newTax, report.deductibles)
    ensures report.efficiency.Err? <==> deductibles == 0
    ensures report.efficiency.Ok? ==> 0.0 <= report.efficiency.value <= RateSum(s)
  {
    var x, d := income as real, deductibles as real;
    var income', newIncome, oldTax, newTax := GetTaxSavings(s, x, d);
    var efficiency := Efficiency(oldTax, newTax, d);
    if deductibles > 0 {
      EfficiencyWithin(oldTax, newTax, d, RateSum(s));
    }
    report := Report(income', d, newIncome, oldTax, newTax, oldTax - newTax, efficiency);
  }

  /** On the configured schedule, a deduction saves at most 22% of itself. */
  lemma ConfiguredSaving(income: real, deductibles: real)
    requires deductibles >= 0.0
    ensures var saved := TaxOf(Schedule, income) - TaxOf(Schedule, Max(income - deductibles, 0.0));
      0.0 <= saved <= deductibles * 0.22
  {
    ScheduleWellFormed();
    SavedBounds(Schedule, income, deductibles);
    AtTopRate(TaxOf(Schedule, income) - TaxOf(Schedule, Max(income - deductibles, 0.0)), deductibles);
  }

  /** A bound in terms of the accumulated rate is a bound in terms of 22%. */
  lemma AtTopRate(saved: real, deductibles: real)
    requires saved <= deductibles * RateSum(Schedule)
    ensures saved <= deductibles * 0.22
  {
    TopRate();
  }

  /**
   * On the configured schedule, the efficiency of a positive deduction is
   * defined and lies between 0% and 22%.
   */
  lemma ConfiguredEfficiency(income: real, deductibles: real)
    requires deductibles > 0.0
    ensures var e := Efficiency(TaxOf(Schedule, income), TaxOf(Schedule, Max(income - deductibles, 0.0)), deductibles);
      e.Ok? && 0.0 <= e.value <= 0.22
  {
    ScheduleWellFormed();
    TopRate();
    EfficiencyBounds(Schedule, income, deductibles);
  }

  /**
   * The form's defaults, income 50000 and deductibles 22300: the reduced
   * income is 27700, the tax falls from 1250 to 154, and 1096 is saved.
   */
  lemma FormDefaults()
    ensures TaxOf(Schedule, 50_000.0) == 1_250.0
    ensures TaxOf(Schedule, 27_700.0) == 154.0
    ensures Efficiency(1_250.0, 154.0, 22_300.0) == Ok(1_096.0 / 22_300.0)
  {
    ScheduleWellFormed();
    NoTaxUpTo20000(20_000.0);
    // 20000 to 30000 at 2%, 30000 to 40000 at 3.5%, 40000 to 80000 at 7%
    MarginalRateIsAccumulated(1);
    MarginalRateIsAccumulated(2);
    MarginalRateIsAccumulated(3);
    TaxSlope(Schedule, 1, 20_000.0, 27_700.0);
    TaxSlope(Schedule, 1, 20_000.0, 30_000.0);
    TaxSlope(Schedule, 2, 30_000.0, 40_000.0);
    TaxSlope(Schedule, 3, 40_000.0, 50_000.0);
  }
}
