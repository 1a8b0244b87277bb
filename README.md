# Tax savings calculator, modelled in Dafny

The calculator is a one-page app. It computes a Singapore-style progressive
income tax from a hard-coded schedule of brackets. It then shows how much tax
a planned deduction (a CPF or SRS top-up) saves, and the savings efficiency:
tax saved divided by the amount deducted.

This project models the computation behind that page:

- `engine.dfy` (module `TaxEngine`) is the tax engine.
  - A schedule is a sequence of brackets `(threshold, increment)`.
  - Each bracket adds its increment to the marginal rate for income above its
    threshold.
  - `TaxPayable` is the source's accumulating loop. It is proved equal to the
    left-fold specification `TaxOf`.
  - `GetTaxSavings` reduces the income by the deduction, with a floor of zero,
    and evaluates the tax before and after.
  - `Efficiency` is the saved-per-deducted ratio. A zero deduction is an error
    result, because the source divides by it.
  - The lemmas prove that the tax is non-negative, zero below the thresholds,
    monotone, additive over splits of the schedule, and piecewise linear. The
    slope between two thresholds is the accumulated rate up to that bracket.
    They also bound the saving and the efficiency by the top accumulated rate.
- `schedule.dfy` (module `TaxSchedule`) is the configured schedule.
  - The eleven thresholds are zipped with the twelve increments into an
    insertion-ordered dictionary. Zipping silently drops the twelfth increment.
  - The printed rate list is the running sum of the increments.
  - The lemmas prove that building the dictionary gives exactly the eleven
    brackets in order. The marginal rates are 0%, 2%, 3.5%, 7%, 11.5%, 15%,
    18%, 19%, 19.5%, 20% and 22%. Income up to 20000 is tax-free. Above 320000
    every extra dollar is taxed at 22%.
- `calculator.dfy` (module `TaxCalculator`) models one form submission.
  - The inputs are the widgets' whole-dollar inputs within their bounds.
  - The output is the report of income, deductibles, old and new tax, tax
    saved and efficiency.
  - It includes the worked example of the form's defaults. Income 50000 with
    deductibles 22300 leaves 27700 taxable. The tax falls from 1250 to 154, so
    1096 is saved and the efficiency is 1096/22300, about 4.91%.

Amounts and rates are exact reals. The schedule is a parameter of the engine,
and the page's configured schedule is the constant `TaxSchedule.Schedule`.

## Model

| member | source | states |
|---|---|---|
| TaxEngine.TaxPayable | tax_calculator.py:32-36 | The loop's running total equals the tax `TaxOf` of the whole schedule: every bracket contributes max(income - threshold, 0) times its increment. With non-negative increments the total is never negative. With non-negative thresholds it is 0 on income at or below 0, the `income=0` default, whatever the rates. |
| TaxEngine.TaxAppend | tax_calculator.py:34-35 | The tax over a concatenated schedule is the sum of the taxes over the parts. Brackets contribute independently, in any grouping. |
| TaxEngine.TaxNonNegative | tax_calculator.py:32-36 | With non-negative increments the tax is never negative, for any income. |
| TaxEngine.TaxZeroBelow | tax_calculator.py:35 | No tax is due on income at or below every threshold. |
| TaxEngine.TaxMonotone | tax_calculator.py:32-36 | With non-negative increments, more income never means less tax. |
| TaxEngine.TermIncrease | tax_calculator.py:35 | One bracket's contribution grows by at least 0 and at most the income increase times its increment. |
| TaxEngine.TermLinear | tax_calculator.py:35 | Above its threshold, a bracket's contribution is linear with slope equal to its increment. |
| TaxEngine.TaxIncreaseAtMostTopRate | tax_calculator.py:32-36 | Raising income by some amount raises the tax by at most that amount times the sum of all increments. |
| TaxEngine.TaxLinearAbove | tax_calculator.py:32-36 | Above every threshold, the tax grows exactly at the sum of all increments. |
| TaxEngine.TaxSlope | tax_calculator.py:32-36 | Between the k-th threshold and the next, or above the last one, the tax is linear. Its slope is the sum of the increments of brackets 0..k, the marginal rate. |
| TaxEngine.RateSumNonNegative | tax_calculator.py:50 | With non-negative increments the accumulated rate is non-negative. |
| TaxEngine.TaxFreeBand | tax_calculator.py:49-50 | When the bracket at threshold 0 has increment 0, income up to the second threshold is taxed nothing. |
| TaxEngine.SavedBounds | tax_calculator.py:39-43 | The tax saved by a deduction is at least 0 and at most the deduction times the top accumulated rate. It is exactly 0 when nothing is deducted. |
| TaxEngine.GetTaxSavings | tax_calculator.py:39-43 | Returns the income unchanged. The new income is income minus deductibles, floored at 0, and never more than the income. The old and new tax are the tax at each income. The new tax is non-negative. The saving is between 0 and the deduction times the top rate, and is 0 for a zero deduction. |
| TaxEngine.Efficiency | tax_calculator.py:94 | Saved per deducted. It is an error exactly when the deduction is 0, and otherwise the value times the deduction is the tax saved. |
| TaxEngine.EfficiencyWithin | tax_calculator.py:94 | A saving between 0 and the deduction times a rate gives an efficiency that is defined and lies between 0 and that rate. |
| TaxEngine.EfficiencyBounds | tax_calculator.py:39-43 | For a positive deduction on a well-formed schedule, the efficiency is defined and lies between 0 and the top accumulated rate. |
| TaxSchedule.Zip | tax_calculator.py:51 | Pairs elements position by position, up to the length of the shorter list. |
| TaxSchedule.Store | tax_calculator.py:51 | Storing a key in a dict: an existing key keeps its position and takes the new value, and a new key goes last. Every other entry is unchanged. |
| TaxSchedule.DictOf | tax_calculator.py:51 | Building a dict from pairs gives a dict whose key order lists each stored key exactly once. |
| TaxSchedule.Items | tax_calculator.py:34-35 | Iterating over the keys and looking each one up visits every stored entry with its stored value, and visits no key twice. |
| TaxSchedule.DictOfDistinct | tax_calculator.py:51 | With pairwise distinct keys, the dict built from the pairs gives back exactly those pairs, in order. |
| TaxSchedule.StoreNewKey | tax_calculator.py:51 | Storing a key not yet present appends its pair to the items. |
| TaxSchedule.ScheduleConstruction | tax_calculator.py:49-51 | dict(zip(tiers, tax_increments)) holds 11 brackets, exactly `Schedule` in order. The twelfth increment is dropped. |
| TaxSchedule.ZipOfConfiguredLists | tax_calculator.py:49-51 | Zipping the two configured lists gives the eleven pairs of `Schedule`. |
| TaxSchedule.ScheduleDistinct | tax_calculator.py:49 | The eleven thresholds are pairwise distinct, so no dict entry is overwritten. |
| TaxSchedule.ScheduleWellFormed | tax_calculator.py:49-50 | The configured schedule starts at threshold 0, has strictly increasing thresholds and has no negative increment. |
| TaxSchedule.ScheduleRates | tax_calculator.py:50-51 | The increments the tax uses are the first eleven of the twelve configured ones. |
| TaxSchedule.Accumulate | tax_calculator.py:52 | The running sums have one entry per increment. |
| TaxSchedule.AccumulateIsPrefixSum | tax_calculator.py:52 | The k-th running sum is the sum of the first k + 1 increments. |
| TaxSchedule.AccumulateStepwise | tax_calculator.py:52 | The running sums are the unique sequence that starts at the first element and adds each next element to the previous entry. |
| TaxSchedule.AccumulatedRatesValues | tax_calculator.py:50-52 | The printed rates are 0%, 2%, 3.5%, 7%, 11.5%, 15%, 18%, 19%, 19.5%, 20%, 22% and 22%. |
| TaxSchedule.MarginalRateIsAccumulated | tax_calculator.py:49-52 | For each of the eleven brackets, the rate the tax actually applies is the printed accumulated rate. |
| TaxSchedule.TopRate | tax_calculator.py:49-51 | The accumulated rate of the whole schedule is 22%. |
| TaxSchedule.NoTaxUpTo20000 | tax_calculator.py:32-36 | Income up to 20000 pays no tax. |
| TaxSchedule.TopBracketSlope | tax_calculator.py:32-36 | Above 320000 each extra dollar is taxed at exactly 22%. |
| TaxCalculator.Calculate | tax_calculator.py:27-28 | The submission at lines 59, 93 and 94, for form values within the widgets' bounds: the new income is the income minus the deduction, or 0 when the deduction is larger. The old and new tax are the tax at each income, with 0 <= new <= old. The tax saved is their difference and is at most the deduction times the top rate. The efficiency is an error exactly when the deduction is 0 and otherwise lies between 0 and the top rate. |
| TaxCalculator.ConfiguredSaving | tax_calculator.py:39-51 | On the configured schedule, a deduction saves between 0 and 22% of itself. |
| TaxCalculator.AtTopRate | tax_calculator.py:49-51 | A bound stated with the schedule's accumulated rate is the same bound at 22%. |
| TaxCalculator.ConfiguredEfficiency | tax_calculator.py:94 | On the configured schedule, a positive deduction has a defined efficiency between 0% and 22%. |
| TaxCalculator.FormDefaults | tax_calculator.py:27-28 | At the form's defaults the tax on 50000 is 1250 and the tax on 27700 is 154. The efficiency is 1096/22300. |

## Left out

- The Streamlit page (tax_calculator.py:18-29, 96-102), the form widget and its submit button: the form's bounds and defaults appear only as the preconditions of `TaxCalculator.Calculate` and in `TaxCalculator.FormDefaults`. The widget's step sizes are not modelled, because they only affect how the value is chosen.
- The chart (tax_calculator.py:61-84) and the image file it writes are not modelled. They are presentation and file I/O, and the curve they draw is `TaxOf` sampled every 1000.
- The console print of the rates (tax_calculator.py:52): only the running sums are modelled, not the percentage formatting or the output.
- The output text (tax_calculator.py:88-94) is not modelled. It rounds to whole dollars and to two-decimal percentages, which changes nothing computed, and the figures are the fields of `TaxCalculator.Report`.
- IEEE floating point: amounts and rates are exact reals. The source's float sums, such as 0.02 + 0.015, can differ in the last bits.
- Python's mixed int/float keys (the thresholds 0 and 2e4) are all reals here. They compare and hash as equal numbers, so the dict is the same.
- The ZeroDivisionError raised when the deduction is 0 becomes the `Err(ZeroDivisionError)` result of `TaxEngine.Efficiency` instead of an uncaught exception that stops the page.
- TaxCalculator.Calculate: states its bounds through the schedule's accumulated rate. The 22% figures for the configured schedule are in `TaxCalculator.ConfiguredSaving` and `TaxCalculator.ConfiguredEfficiency`.
