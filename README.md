# Freelancer tax estimate: a verified model of `TaxCalculator`

This project models the tax computation of a freelancer tax estimator.
Given an input record (annual income, state code, business type, deductions),
the computation works out five figures:

- the self-employment tax: a flat 15.3% of net income, with no wage-base cap;
- the federal income tax: a progressive walk over a bracket table, applied
  after deducting half the self-employment tax and a fixed 14000 standard
  deduction;
- the state tax: net income times the flat rate of the state whose code
  matches exactly;
- the total of the three;
- four equal quarterly payments.

The results record bundles these with a copy of the matched state entry.

Layout:

- `tax_types.dfy` (`TaxTypes`): the record shapes `TaxData`, `USState`,
  `FederalTaxBracket` and `TaxResults`. `BusinessType` is a two-constructor
  datatype. Money and rates are exact `real`s.
- `federal_brackets.dfy` (`FederalBrackets`): `Walk`, a recursive function
  that follows the bracket loop step by step, early stop included.
  `ProgressiveTax` is an independent textbook definition: the sum over
  brackets of the rate times the part of the base that falls in that bracket.
  The lemmas prove the two equal and prove non-negativity, monotonicity and
  the uncapped top rate.
- `state_table.dfy` (`StateTable`): the first-match lookup by state code and
  the display fallback to the first entry.
- `tax_rules.dfy` (`TaxRules`): each figure as a function of the input and
  the two tables, with lemmas relating the figures.
- `tax_calculator.dfy` (`TaxCalculation`): the `TaxCalculator` class. Its
  constant fields are the input, the cached net income and the two tables.
  The federal computation is a method with the source's `for` loop, written
  as a `while` loop, with its `break`s. Its loop invariant ties the loop to `Walk`. Every operation is
  proved to return the value that `TaxRules` defines.

The state table `US_STATES` and the bracket table `FEDERAL_TAX_BRACKETS_2025`
are defined in `src/utils/constants`, which is not part of this model. They
are passed to the constructor as parameters, and no values are assumed for
them. The equalities about the bracket walk need only
`AscendingThresholds` (thresholds strictly ascending), whatever the rates.
The sign facts also need `NonNegativeRates`, and `ValidBrackets` is the two
together. The facts that need non-negative state rates are stated under
`NonNegativeStateRates`. The model proves what follows from these
conditions. It does not assume that the real tables meet them.

For an unknown state code, `calculateStateTax` returns 0
(`src/utils/TaxCalculator.ts:62-63`), while the displayed `stateInfo` falls
back to the first table entry (`:92`). The results card then shows that
state's name next to a state tax of 0. `ResultsFacts` states both halves.

The loop only uses bracket widths (`next.min - min`). So the first bracket
always starts at a base of 0, whatever its `min` is. `ProgressiveTax`
measures every threshold from the first one to match this.

## Model

| member | source | states |
|---|---|---|
| TaxCalculation.TaxCalculator.constructor | src/utils/TaxCalculator.ts:9-12 | keeps the input and sets net income to max(0, annualIncome - deductions) |
| TaxCalculation.TaxCalculator.CalculateSelfEmploymentTax | src/utils/TaxCalculator.ts:14-17 | the SE tax is 15.3% of net income; it is never negative, and zero exactly when deductions cover income |
| TaxCalculation.TaxCalculator.CalculateFederalTax | src/utils/TaxCalculator.ts:19-59 | the loop's result equals the recursive bracket walk on the taxable base. With strictly ascending thresholds it equals the progressive tax, whatever the rates; if no rate is negative as well, it is non-negative. It is zero when the taxable base is zero |
| TaxCalculation.TaxCalculator.CalculateStateTax | src/utils/TaxCalculator.ts:61-67 | net income times the rate of the first entry whose code matches; 0 when none matches |
| TaxCalculation.TaxCalculator.CalculateTotalTax | src/utils/TaxCalculator.ts:69-75 | the total is SE + federal + state tax; it is non-negative when bracket thresholds are strictly ascending and no bracket or state rate is negative |
| TaxCalculation.TaxCalculator.CalculateQuarterlyPayments | src/utils/TaxCalculator.ts:77-83 | there are exactly four payments, each a quarter of the total tax, and they add up to it |
| TaxCalculation.TaxCalculator.CalculateTaxes | src/utils/TaxCalculator.ts:85-106 | the record's total is the sum of its three taxes and its payments add up to that total. For an unknown code the state entry is the first table entry and the state tax is 0 |
| TaxRules.NetIncome | src/utils/TaxCalculator.ts:11 | net income is never negative; it is 0 exactly when deductions ≥ income, and income - deductions otherwise |
| TaxRules.FederalTaxableBase | src/utils/TaxCalculator.ts:31-37 | the taxable base lies between 0 and net income |
| TaxRules.SelfEmploymentTax | src/utils/TaxCalculator.ts:14-17 | 15.3% of net income: between 0 and net income, and 0 exactly when deductions ≥ income |
| TaxRules.FederalTax | src/utils/TaxCalculator.ts:19-59 | the bracket walk over the taxable base: 0 when the base is 0 or deductions ≥ income, and ≥ 0 when thresholds are strictly ascending and no rate is negative |
| TaxRules.StateTax | src/utils/TaxCalculator.ts:61-67 | net income at the rate of the first matching state: 0 for an unknown code or when deductions ≥ income, and ≥ 0 when no state rate is negative |
| TaxRules.TotalTax | src/utils/TaxCalculator.ts:69-75 | SE + federal + state tax: 0 when deductions ≥ income, and at least the SE tax (so ≥ 0) when bracket thresholds are strictly ascending and no bracket or state rate is negative |
| TaxRules.Results | src/utils/TaxCalculator.ts:85-106 | the results record: its total is the sum of its three taxes, it has four payments of total / 4, and its state entry is a table entry |
| TaxRules.QuarterlyPayments | src/utils/TaxCalculator.ts:79-82 | four entries, each total / 4 |
| TaxRules.SelfEmploymentTaxFacts | src/utils/TaxCalculator.ts:14-17 | SE tax = 0.153 · max(0, income - deductions); it is ≥ 0, and 0 exactly when deductions ≥ income |
| TaxRules.FederalTaxableBaseFacts | src/utils/TaxCalculator.ts:28-37 | the taxable base is max(0, 0.9235 · net income - 14000); it is 0 exactly when 0.9235 · net income ≤ 14000 |
| TaxRules.FederalTaxFacts | src/utils/TaxCalculator.ts:27-58 | with strictly ascending thresholds, federal tax is the progressive tax on the taxable base, whatever the rates, and it is ≥ 0 if no rate is negative; it is 0 when the base is 0 |
| TaxRules.FederalTaxMonotone | src/utils/TaxCalculator.ts:27-58 | with strictly ascending thresholds and no negative rate, federal tax never decreases as income - deductions grows; so it is non-decreasing in annual income with deductions fixed |
| TaxRules.FederalTopBracket | src/utils/TaxCalculator.ts:45-49 | with strictly ascending thresholds and any rates, above the start of the top bracket the difference in federal tax is the top rate times the difference in base, with no cap |
| TaxRules.StateTaxOfFirstMatch | src/utils/TaxCalculator.ts:61-66 | state tax is net income times the rate of the first entry whose code equals the input's state |
| TaxRules.StateTaxFacts | src/utils/TaxCalculator.ts:61-66 | state tax is 0 for an unknown code; it is ≥ 0 when no state rate is negative |
| TaxRules.NoNetIncomeNoTax | src/utils/TaxCalculator.ts:9-83 | when deductions ≥ income, net income, SE, federal, state and total tax are all 0 and the payments are [0, 0, 0, 0] |
| TaxRules.TotalTaxNonNegative | src/utils/TaxCalculator.ts:69-75 | with strictly ascending thresholds and no negative bracket or state rate, the total tax is ≥ 0 |
| TaxRules.QuarterlyPaymentsSum | src/utils/TaxCalculator.ts:77-83 | the four payments are equal and add up to the total |
| TaxRules.ResultsFacts | src/utils/TaxCalculator.ts:85-106 | total = SE + federal + state, and there are four payments of total / 4 each that add up to the total. The state entry is the first entry with the input's code, and the state tax is net income at that entry's rate; with no such entry it is the first table entry and the state tax is 0 |
| TaxRules.BusinessTypeIgnored | src/utils/TaxCalculator.ts:19-25 | changing only the business type leaves the results record unchanged |
| FederalBrackets.Walk | src/utils/TaxCalculator.ts:40-56 | no contract of its own: the tax the loop still adds from bracket i with the given base left, both early stops included; WalkIsProgressive, WalkNonNegative and BreakIsIrrelevant state what it equals |
| FederalBrackets.WalkIsProgressiveFrom | src/utils/TaxCalculator.ts:40-56 | with strictly ascending thresholds and any rates, from any bracket the walk equals the progressive tax on a base that exceeds that bracket's start by the remaining amount |
| FederalBrackets.WalkIsProgressive | src/utils/TaxCalculator.ts:40-56 | with strictly ascending thresholds and any rates, on a non-negative base the walk equals the sum over brackets of rate × income in bracket |
| FederalBrackets.WalkNonNegative | src/utils/TaxCalculator.ts:40-56 | with strictly ascending thresholds and non-negative rates, the walk never yields a negative amount |
| FederalBrackets.BreakIsIrrelevant | src/utils/TaxCalculator.ts:43 | with strictly ascending thresholds and any rates, on a non-negative base the early stop on an exhausted base does not change the result |
| FederalBrackets.ProgressiveZeroBelow | src/utils/TaxCalculator.ts:40-56 | with strictly ascending thresholds and any rates, a base that does not reach a bracket owes nothing in that bracket or any later one |
| FederalBrackets.ProgressiveNonNegative | src/utils/TaxCalculator.ts:40-56 | with no negative rate the progressive tax is ≥ 0, whatever the thresholds |
| FederalBrackets.ProgressiveMonotone | src/utils/TaxCalculator.ts:40-56 | with no negative rate, whatever the thresholds, a larger base never owes less progressive tax |
| FederalBrackets.TopBracketMarginalFrom | src/utils/TaxCalculator.ts:45-54 | with strictly ascending thresholds and any rates, for two bases above the top bracket's start the tax from any bracket on differs by the top rate times the difference in base |
| FederalBrackets.TopBracketMarginal | src/utils/TaxCalculator.ts:45-49 | with strictly ascending thresholds and any rates, above the top bracket's start extra base is taxed at exactly the top rate |
| StateTable.FindFrom | src/utils/TaxCalculator.ts:62 | returns the first position at or after the start whose code matches exactly, or none when no such position exists |
| StateTable.FindState | src/utils/TaxCalculator.ts:62 | returns the first position whose code matches exactly, or none exactly when no entry matches |
| StateTable.DisplayState | src/utils/TaxCalculator.ts:92 | returns a table entry: the first match, so its code is the input's when any entry has it; otherwise the first entry |

## Left out

- IEEE-754 rounding of JavaScript numbers: all amounts and rates are exact reals. So the four payments add up to the total exactly.
- The contents of `US_STATES` and `FEDERAL_TAX_BRACKETS_2025`: they live in `src/utils/constants`, which is not part of this model. They are parameters, and the properties that depend on their shape take `AscendingThresholds`, `NonNegativeRates`, `ValidBrackets` or `NonNegativeStateRates` as a hypothesis.
- TaxCalculation.TaxCalculator.CalculateTaxes: requires a non-empty state table. With an empty table and an unknown code, the source reads a field of `undefined` and throws; that error path is not modelled.
- The form (`src/components/TaxForm.tsx`), the result cards (`src/components/TaxResults.tsx`, including the currency formatter) and the page state (`src/pages/Index.tsx`): these are presentation, not computation. The form's input bounds are not needed by any property.
- Cent rounding for display, which happens only in the presentation layer.
