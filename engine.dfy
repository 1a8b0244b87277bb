/**
 * The tax engine: a piecewise-linear income tax over a schedule of
 * (threshold, incremental rate) brackets. Each bracket adds its rate to the
 * marginal rate for income above its threshold, so the tax on `income` is
 * the sum over all brackets of max(income - threshold, 0) * rate.
 *
 * Amounts and rates are exact reals; the schedule is passed in explicitly.
 */
module TaxEngine {

  /** A bracket: (threshold, incremental rate applied above the threshold). */
  type Bracket = (real, real)

  datatype Error = ZeroDivisionError

  datatype Result<T> = Ok(value: T) | Err(error: Error)

  function Max(a: real, b: real): real {
    if a >= b then a else b
  }

  /** Every rate increment is non-negative. */
  predicate NonNegativeRates(s: seq<Bracket>) {
    forall i :: 0 <= i < |s| ==> s[i].1 >= 0.0
  }

  /** Thresholds are strictly increasing (hence distinct). */
  predicate Ascending(s: seq<Bracket>) {
    forall i, j :: 0 <= i < j < |s| ==> s[i].0 < s[j].0
  }

  /** A schedule as configured: first threshold 0, ascending thresholds, non-negative increments. */
  predicate WellFormed(s: seq<Bracket>) {
    && |s| > 0
    && s[0].0 == 0.0
    && Ascending(s)
    && NonNegativeRates(s)
  }

  /** Sum of a sequence of reals, folding from the left. */
  function Sum(xs: seq<real>): real {
    if xs == [] then 0.0 else Sum(xs[..|xs| - 1]) + xs[|xs| - 1]
  }

  /** The rate increments of a schedule, in order. */
  function Rates(s: seq<Bracket>): seq<real> {
    seq(|s|, i requires 0 <= i < |s| => s[i].1)
  }

  /** The accumulated marginal rate once income is above every threshold of `s`. */
  function RateSum(s: seq<Bracket>): real {
    Sum(Rates(s))
  }

  /** The contribution of one bracket to the tax on `income`. */
  function Term(b: Bracket, income: real): real {
    Max(income - b.0, 0.0) * b.1
  }

  /** The tax on `income` under `s`: the contributions of the brackets, added in schedule order. */
  function TaxOf(s: seq<Bracket>, income: real): real {
    if s == [] then 0.0 else TaxOf(s[..|s| - 1], income) + Term(s[|s| - 1], income)
  }

  /** The tax payable, accumulated bracket by bracket as the source's loop does. */
  method TaxPayable(s: seq<Bracket>, income: real) returns (total: real)
    ensures total == TaxOf(s, income)
    ensures NonNegativeRates(s) ==> total >= 0.0
    ensures (forall i :: 0 <= i < |s| ==> s[i].0 >= 0.0) && income <= 0.0 ==> total == 0.0
  {
    total := 0.0;
    var i := 0;
    while i < |s|
      invariant 0 <= i <= |s|
      invariant total == TaxOf(s[..i], income)
    {
      assert s[..i + 1][..i] == s[..i];
      total := total + Max(income - s[i].0, 0.0) * s[i].1;
      i := i + 1;
    }
    assert s[..i] == s;
    if NonNegativeRates(s) {
      TaxNonNegative(s, income);
    }
    if forall i :: 0 <= i < |s| ==> s[i].0 >= 0.0 {
      if income <= 0.0 {
        TaxZeroBelow(s, income);
      }
    }
  }

  // ---------------------------------------------------------------------
  // Structure of the tax function
  // ---------------------------------------------------------------------

  lemma {:induction false} SumNonNegative(xs: seq<real>)
    requires forall i :: 0 <= i < |xs| ==> xs[i] >= 0.0
    ensures Sum(xs) >= 0.0
    decreases |xs|
  {
    if xs != [] {
      SumNonNegative(xs[..|xs| - 1]);
    }
  }

  /** The accumulated rate is never negative. */
  lemma RateSumNonNegative(s: seq<Bracket>)
    requires NonNegativeRates(s)
    ensures RateSum(s) >= 0.0
  {
    SumNonNegative(Rates(s));
  }

  /** The rate sum of a prefix of the schedule is the last one's increment plus the shorter prefix's. */
  lemma RateSumSnoc(s: seq<Bracket>)
    requires s != []
    ensures RateSum(s) == RateSum(s[..|s| - 1]) + s[|s| - 1].1
  {
    assert Rates(s)[..|s| - 1] == Rates(s[..|s| - 1]);
  }

  /** Splitting the schedule splits the tax: the brackets contribute independently. */
  lemma {:induction false} TaxAppend(a: seq<Bracket>, b: seq<Bracket>, income: real)
    ensures TaxOf(a + b, income) == TaxOf(a, income) + TaxOf(b, income)
    decreases |b|
  {
    if b == [] {
      assert a + b == a;
    } else {
      var b' := b[..|b| - 1];
      assert (a + b)[..|a + b| - 1] == a + b';
      TaxAppend(a, b', income);
    }
  }

  /** No tax accrues on income at or below every threshold of the schedule. */
  lemma {:induction false} TaxZeroBelow(s: seq<Bracket>, income: real)
    requires forall i :: 0 <= i < |s| ==> income <= s[i].0
    ensures TaxOf(s, income) == 0.0
    decreases |s|
  {
    if s != [] {
      TaxZeroBelow(s[..|s| - 1], income);
    }
  }

  /** With non-negative increments the tax is never negative, whatever the income. */
  lemma {:induction false} TaxNonNegative(s: seq<Bracket>, income: real)
    requires NonNegativeRates(s)
    ensures TaxOf(s, income) >= 0.0
    decreases |s|
  {
    if s != [] {
      TaxNonNegative(s[..|s| - 1], income);
    }
  }

  /** One bracket's contribution grows by at most the income growth times its increment. */
  lemma TermIncrease(b: Bracket, x: real, y: real)
    requires b.1 >= 0.0
    requires x <= y
    ensures 0.0 <= Term(b, y) - Term(b, x) <= (y - x) * b.1
  {
    var grown := Max(y - b.0, 0.0) - Max(x - b.0, 0.0);
    assert 0.0 <= grown <= y - x;
    assert Term(b, y) - Term(b, x) == grown * b.1;
    MulMonotone(0.0, grown, b.1);
    MulMonotone(grown, y - x, b.1);
  }

  /** A bracket whose threshold is at or below x contributes linearly from x upwards. */
  lemma TermLinear(b: Bracket, x: real, y: real)
    requires b.0 <= x <= y
    ensures Term(b, y) - Term(b, x) == (y - x) * b.1
  {
  }

  /** The tax is non-decreasing in income. */
  lemma {:induction false} TaxMonotone(s: seq<Bracket>, x: real, y: real)
    requires NonNegativeRates(s)
    requires x <= y
    ensures TaxOf(s, x) <= TaxOf(s, y)
    decreases |s|
  {
    if s != [] {
      TaxMonotone(s[..|s| - 1], x, y);
      TermIncrease(s[|s| - 1], x, y);
    }
  }

  /**
   * Raising income by some amount raises the tax by at most that amount
   * times the accumulated top rate.
   */
  lemma {:induction false} TaxIncreaseAtMostTopRate(s: seq<Bracket>, x: real, y: real)
    requires NonNegativeRates(s)
    requires x <= y
    ensures TaxOf(s, y) - TaxOf(s, x) <= (y - x) * RateSum(s)
    decreases |s|
  {
    if s != [] {
      var init, b := s[..|s| - 1], s[|s| - 1];
      TaxIncreaseAtMostTopRate(init, x, y);
      TermIncrease(b, x, y);
      RateSumSnoc(s);
      assert TaxOf(s, y) - TaxOf(s, x) == (TaxOf(init, y) - TaxOf(init, x)) + (Term(b, y) - Term(b, x));
      AddBounds(TaxOf(init, y) - TaxOf(init, x), Term(b, y) - Term(b, x), y - x, RateSum(init), b.1);
    }
  }

  /** Above every threshold, the tax grows linearly at the accumulated rate of the whole schedule. */
  lemma {:induction false} TaxLinearAbove(s: seq<Bracket>, x: real, y: real)
    requires forall i :: 0 <= i < |s| ==> s[i].0 <= x
    requires x <= y
    ensures TaxOf(s, y) - TaxOf(s, x) == (y - x) * RateSum(s)
    decreases |s|
  {
    if s != [] {
      var init, b := s[..|s| - 1], s[|s| - 1];
      TaxLinearAbove(init, x, y);
      TermLinear(b, x, y);
      RateSumSnoc(s);
      Distribute(y - x, RateSum(init), b.1);
    }
  }

  /**
   * Between the k-th threshold and the next one (or anywhere above the last
   * one), the tax is linear, and its slope is the sum of the increments of
   * brackets 0..k: the marginal rate of that bracket.
   */
  lemma {:induction false} TaxSlope(s: seq<Bracket>, k: nat, x: real, y: real)
    requires Ascending(s)
    requires k < |s|
    requires s[k].0 <= x <= y
    requires k + 1 < |s| ==> y <= s[k + 1].0
    ensures TaxOf(s, y) - TaxOf(s, x) == (y - x) * RateSum(s[..k + 1])
    decreases |s|
  {
    if |s| == k + 1 {
      assert s[..k + 1] == s;
      BracketsBelow(s, k, x);
      TaxLinearAbove(s, x, y);
    } else {
      LastBracketIdle(s, k, x, y);
      TaxSlope(s[..|s| - 1], k, x, y);
    }
  }

  /** In an ascending schedule, every threshold up to the k-th is at or below x. */
  lemma BracketsBelow(s: seq<Bracket>, k: nat, x: real)
    requires Ascending(s)
    requires k < |s| && s[k].0 <= x
    ensures forall i :: 0 <= i <= k ==> s[i].0 <= x
  {
    forall i | 0 <= i < k ensures s[i].0 <= x {
      assert s[i].0 < s[k].0;
    }
  }

  /**
   * When y is at or below the (k+1)-th threshold and a bracket lies beyond
   * it, the last bracket contributes nothing at x or y, and dropping it
   * leaves an ascending schedule with the same first k + 1 brackets.
   */
  lemma LastBracketIdle(s: seq<Bracket>, k: nat, x: real, y: real)
    requires Ascending(s)
    requires k + 1 < |s|
    requires x <= y <= s[k + 1].0
    ensures TaxOf(s, x) == TaxOf(s[..|s| - 1], x)
    ensures TaxOf(s, y) == TaxOf(s[..|s| - 1], y)
    ensures Ascending(s[..|s| - 1])
    ensures s[..|s| - 1][..k + 1] == s[..k + 1]
  {
    var init, b := s[..|s| - 1], s[|s| - 1];
    if k + 1 < |s| - 1 {
      assert s[k + 1].0 < b.0;
    }
    assert Term(b, y) == 0.0 && Term(b, x) == 0.0;
    forall i, j | 0 <= i < j < |init| ensures init[i].0 < init[j].0 {
      assert s[i].0 < s[j].0;
    }
  }

  /** Two increases bounded at two rates add up to an increase bounded at the summed rate. */
  lemma AddBounds(d1: real, d2: real, a: real, r1: real, r2: real)
    requires d1 <= a * r1 && d2 <= a * r2
    ensures d1 + d2 <= a * (r1 + r2)
  {
    Distribute(a, r1, r2);
  }

  /** Multiplication distributes over the sum of two rates. */
  lemma Distribute(a: real, r1: real, r2: real)
    ensures a * (r1 + r2) == a * r1 + a * r2
  {
  }

  lemma MulMonotone(a: real, b: real, c: real)
    requires a <= b && c >= 0.0
    ensures a * c <= b * c
  {
    assert (b - a) * c >= 0.0;
  }

  // ---------------------------------------------------------------------
  // Tax savings from a deduction
  // ---------------------------------------------------------------------

  /** A well-formed schedule has no negative threshold. */
  lemma ThresholdsNonNegative(s: seq<Bracket>)
    requires WellFormed(s)
    ensures forall i :: 0 <= i < |s| ==> s[i].0 >= 0.0
  {
    forall i | 0 < i < |s| ensures s[i].0 >= 0.0 {
      assert s[0].0 < s[i].0;
    }
  }

  /**
   * When the bracket at threshold 0 carries no increment, income up to the
   * next threshold is taxed nothing.
   */
  lemma TaxFreeBand(s: seq<Bracket>, income: real)
    requires WellFormed(s)
    requires s[0].1 == 0.0
    requires |s| > 1 ==> income <= s[1].0
    ensures TaxOf(s, income) == 0.0
  {
    ThresholdsNonNegative(s);
    TaxZeroBelow(s, 0.0);
    if income <= 0.0 {
      TaxZeroBelow(s, income);
    } else {
      TaxSlope(s, 0, 0.0, income);
      assert Rates(s[..1]) == [s[0].1];
      assert [s[0].1][..0] == [];
    }
  }

  /**
   * Tax saved by a deduction: never negative, nothing when nothing is
   * deducted, and at most the deduction times the accumulated top rate.
   */
  lemma SavedBounds(s: seq<Bracket>, income: real, deductibles: real)
    requires WellFormed(s)
    requires deductibles >= 0.0
    ensures var saved := TaxOf(s, income) - TaxOf(s, Max(income - deductibles, 0.0));
      && 0.0 <= saved <= deductibles * RateSum(s)
      && (deductibles == 0.0 ==> saved == 0.0)
  {
    var n := Max(income - deductibles, 0.0);
    var rate := RateSum(s);
    RateSumNonNegative(s);
    ThresholdsNonNegative(s);
    MulMonotone(0.0, deductibles, rate);
    if income < 0.0 {
      // Nothing is taxed on either side: the reduced income clamps to 0.
      TaxZeroBelow(s, income);
      TaxZeroBelow(s, n);
    } else {
      // 0 <= n <= income, and income - n <= deductibles
      TaxMonotone(s, n, income);
      TaxIncreaseAtMostTopRate(s, n, income);
      MulMonotone(income - n, deductibles, rate);
      if deductibles == 0.0 {
        assert n == income;
      }
    }
  }

  /**
   * The source's getTaxSavings: clamps the reduced income at zero and
   * evaluates the tax before and after the deduction.
   */
  method GetTaxSavings(s: seq<Bracket>, income: real, deductibles: real)
    returns (income': real, newIncome: real, oldTax: real, newTax: real)
    requires WellFormed(s)
    ensures income' == income
    ensures newIncome >= 0.0 && newIncome >= income - deductibles
    ensures newIncome == 0.0 || newIncome == income - deductibles
    ensures 0.0 <= income && 0.0 <= deductibles ==> newIncome <= income
    ensures oldTax == TaxOf(s, income) && newTax == TaxOf(s, newIncome)
    ensures 0.0 <= newTax
    ensures 0.0 <= deductibles ==> 0.0 <= oldTax - newTax <= deductibles * RateSum(s)
    ensures deductibles == 0.0 ==> oldTax == newTax
  {
    income' := income;
    newIncome := Max(income - deductibles, 0.0);
    oldTax := TaxPayable(s, income);
    newTax := TaxPayable(s, newIncome);
    if deductibles >= 0.0 {
      SavedBounds(s, income, deductibles);
    }
  }

  /**
   * Savings efficiency: tax saved per unit deducted. Python raises
   * ZeroDivisionError when the deduction is 0; that is the error result here.
   */
  function Efficiency(oldTax: real, newTax: real, deductibles: real): (r: Result<real>)
    ensures r.Err? <==> deductibles == 0.0
    ensures r.Ok? ==> r.value * deductibles == oldTax - newTax
  {
    if deductibles == 0.0 then Err(ZeroDivisionError) else Ok((oldTax - newTax) / deductibles)
  }

  /** A saving bounded by the deduction times a rate gives an efficiency between 0 and that rate. */
  lemma EfficiencyWithin(oldTax: real, newTax: real, deductibles: real, rate: real)
    requires deductibles > 0.0
    requires 0.0 <= oldTax - newTax <= deductibles * rate
    ensures var e := Efficiency(oldTax, newTax, deductibles);
      e.Ok? && 0.0 <= e.value <= rate
  {
    QuotientBounds(oldTax - newTax, deductibles, rate);
  }

  /** When defined, the efficiency lies between 0 and the accumulated top rate. */
  lemma EfficiencyBounds(s: seq<Bracket>, income: real, deductibles: real)
    requires WellFormed(s)
    requires deductibles > 0.0
    ensures var e := Efficiency(TaxOf(s, income), TaxOf(s, Max(income - deductibles, 0.0)), deductibles);
      e.Ok? && 0.0 <= e.value <= RateSum(s)
  {
    SavedBounds(s, income, deductibles);
    EfficiencyWithin(TaxOf(s, income), TaxOf(s, Max(income - deductibles, 0.0)), deductibles, RateSum(s));
  }

  /** Dividing 0 <= a <= d * r by d > 0 gives a value between 0 and r. */
  lemma QuotientBounds(a: real, d: real, r: real)
    requires d > 0.0
    requires 0.0 <= a <= d * r
    ensures 0.0 <= a / d <= r
  {
    var q := a / d;
    assert q * d == a;
    PositiveFactor(q, d);
    assert (r - q) * d == d * r - a;
    PositiveFactor(r - q, d);
  }

  /** Multiplying by a positive factor keeps the sign. */
  lemma PositiveFactor(x: real, d: real)
    requires d > 0.0
    ensures x < 0.0 ==> x * d < 0.0
  {
  }
}
