# Brazilian CLT net-salary calculator — payroll core in Dafny

This project models the payroll computation of a net-salary calculator for
Brazilian employees under the CLT labour regime. From a gross salary, a number
of dependents and other discounts it computes:

- the social-security contribution (INSS). It uses the 2024 progressive table,
  where each band charges its own rate on the slice of salary inside it. The
  contribution stops growing at the ceiling of R$ 7,786.02.
- the income-tax withholding (IRRF). It uses the 2024/2025 table, where the
  tax is "rate × base − subtrahend" in the first bracket that covers the base.
  The tax is computed on two bases: the itemized base (gross − INSS −
  R$ 189.59 per dependent) and the simplified base (gross − R$ 564.80). Each
  tax is clamped at zero and the lower one is withheld.
- the totals: total discounts, net salary, and the two effective rates, which
  are zero on a zero salary.

Money is modelled exactly as `real`, so every constant of the tables is exact.

Files, one module each:

- `types.dfy` (`Types`): the input and result records, the two bracket kinds,
  `Option` for the `null` limit, and `Min`/`Max`.
- `tables.dfy` (`Tables`): the two tables and the deduction constants.
- `inss.dfy` (`Inss`): `CalculateInss` is the source's two loops, with the two
  early exits and the ceiling recomputation. It is proved equal, for every
  salary, to `Contribution`. `Contribution` is the reference sum over all
  bands of rate × the salary's slice clamped to the band.
- `irrf.dfy` (`Irrf`): `GetTax` is a first-match bracket search.
  `Withholding` is the choice between the two deduction methods.
- `salary.dfy` (`Salary`): `CalculateSalary`, the aggregator.

The operations have no preconditions on the money amounts, because the code
is total on all numbers. A non-positive salary owes no contribution and no tax.
The dependent count is a `nat`: the form parses it with `parseInt` and clamps
it at zero (App.tsx:25, App.tsx:94), so only whole non-negative counts reach
the calculation.

Three facts about the code:

- A zero salary gives a net salary of `-otherDiscounts` (utils/taxRules.ts:166);
  the net salary is never clamped.
- The withholding `min(max(0, itemized), max(0, simplified))` equals
  `max(0, min(itemized, simplified))` (`WithholdingIsClampedMinimum`).
- The exemption test uses the literal 2259.20, which is the first bracket's
  limit (`SelectBracketNeverFallsThrough`).

In exact arithmetic the ceiling branch of `calculateINSS` changes nothing: the
band sum already saturates above the ceiling (`MarginalTaxSaturates`). The
income tax is non-negative for every base, so its clamps at zero never bite.
It is not monotone in the base (`GetTaxNotMonotone`). Even so, more dependents
never raise the withholding (`WithholdingDependentsNeverRaise`): one dependent
lowers the base by 189.59, far more than the 0.00125 drops at the bracket
limits.

## Model

| member | source | states |
|---|---|---|
| `Inss.MarginalTaxStep` | utils/taxRules.ts:32-37 | one pass of the band loop: above the band's start, the slice taxed is the smaller of the remaining salary and the band's width, and the rest of the sum starts at the band's limit |
| `Inss.CalculateInss` | utils/taxRules.ts:24-57 | for every salary, the loop with its two breaks and the ceiling recomputation returns exactly the sum over the bands of rate × slice of salary clamped to the band |
| `Inss.InssTable` | utils/taxRules.ts:8-13 | the INSS table ascends from 0 with non-negative rates, its ceiling is 7786.02, and filling every band gives 105.9 + 112.9212 + 160.002 + 530.0386 = 908.8618 |
| `Inss.MarginalTaxNonNegative` | utils/taxRules.ts:29-40 | on an ascending table with non-negative rates the band sum is never negative |
| `Inss.MarginalTaxZeroBelow` | utils/taxRules.ts:30-39 | a salary at or below a table's starting limit owes nothing to the bands that remain, which is why both early exits are sound |
| `Inss.MarginalTaxMonotone` | utils/taxRules.ts:29-40 | the band sum is non-decreasing in the salary |
| `Inss.MarginalTaxSaturates` | utils/taxRules.ts:42-54 | at or above the last limit the band sum equals the full-table amount the ceiling branch recomputes |
| `Inss.ContributionNonNegative` | utils/taxRules.ts:24-40 | the contribution is never negative and is 0 for any salary at or below 0 |
| `Inss.ContributionPiecewise` | utils/taxRules.ts:8-40 | the contribution band by band: 7.5% up to 1412.00, then 105.9 + 9%, 218.8212 + 12%, 378.8232 + 14% of the excess, and 908.8618 above 7786.02; a salary exactly on a limit belongs to the lower band |
| `Inss.ContributionCapped` | utils/taxRules.ts:42-54 | no salary owes more than 908.8618, and every salary above 7786.02 owes exactly that |
| `Inss.ContributionNoJumpAtCeiling` | utils/taxRules.ts:29-56 | the band loop alone at 7786.02 gives the full-table amount, and every higher salary owes the same as the ceiling salary |
| `Inss.ContributionMonotone` | utils/taxRules.ts:24-57 | a higher salary never owes a lower contribution |
| `Inss.ContributionAtMostTopRate` | utils/taxRules.ts:24-57 | for a non-negative salary the contribution is at most 14% of it |
| `Irrf.SelectBracket` | utils/taxRules.ts:151-155 | returns the first bracket that is unbounded or whose limit is at least the base, and returns None only when no bracket covers it |
| `Irrf.GetTax` | utils/taxRules.ts:149-157 | no contract of its own; its behaviour is pinned by `SelectBracket`, `GetTaxFirstMatch` and `GetTaxPiecewise` |
| `Irrf.GetTaxFirstMatch` | utils/taxRules.ts:149-157 | the tax is 0 at or below 2259.20, and above it is base × rate − deduction of a bracket that covers the base while no earlier bracket does |
| `Irrf.SelectBracketNeverFallsThrough` | utils/taxRules.ts:16-22 | thanks to the unbounded last bracket the search always finds a bracket, so the final `return 0` is unreachable; the literal exempt limit is the first bracket's limit |
| `Irrf.GetTaxPiecewise` | utils/taxRules.ts:149-157 | the tax is 0 up to 2259.20, then 7.5% − 169.44, 15% − 381.44, 22.5% − 662.77 and 27.5% − 896.00 by bracket, with a base on a limit in the lower bracket |
| `Irrf.GetTaxNonNegative` | utils/taxRules.ts:149-163 | no base is taxed a negative amount |
| `Irrf.GetTaxNotMonotone` | utils/taxRules.ts:18-19 | the tax just above 2826.65 and just above 3751.05 is lower than at those limits |
| `Irrf.GetTaxDependentStep` | utils/taxRules.ts:144 | lowering a base by one dependent's deduction of 189.59 never raises its tax |
| `Irrf.ItemizedBase` | utils/taxRules.ts:144 | the itemized base is at most gross − contribution, and equals it exactly when there are no dependents |
| `Irrf.SimplifiedBase` | utils/taxRules.ts:147 | the simplified base is within the exempt limit 2259.20 exactly when gross is at most 2824.00 |
| `Irrf.Withholding` | utils/taxRules.ts:144-163 | the withholding is non-negative, at most each method's tax clamped at zero, and equal to one of them: their minimum |
| `Irrf.WithholdingIsClampedMinimum` | utils/taxRules.ts:163 | the minimum of the two clamped taxes equals the clamped minimum of the two taxes |
| `Irrf.WithholdingExemptUpTo2824` | utils/taxRules.ts:147-163 | for a gross up to 2824.00 nothing is withheld, whatever the contribution and the dependents |
| `Irrf.WithholdingDependentsNeverRaise` | utils/taxRules.ts:144-163 | at a fixed salary and contribution, more dependents never raise the withholding |
| `Irrf.WithholdingAtMostTopRate` | utils/taxRules.ts:159-163 | for a non-negative gross the withholding is at most 27.5% of it |
| `Salary.EffectiveRate` | utils/taxRules.ts:175-176 | on a positive salary the rate times the salary gives back the amount; on a zero or negative salary the rate is 0 |
| `Salary.CalculateSalary` | utils/taxRules.ts:137-178 | gross and other discounts are copied through; inss is the contribution and irrf the withholding on it; total discounts = inss + irrf + other discounts; net = gross − total discounts; effective rates are inss/gross and irrf/gross, and 0 on a zero salary; inss lies in [0, 908.8618], irrf ≥ 0 and is 0 up to 2824.00, and on a positive salary the effective rates lie in [0, 14%] and [0, 27.5%] |
| `Salary.DefaultScenario` | App.tsx:10-14 | for the form's default input (3000.00, no dependents) the contribution is 258.8196, the itemized tax is 36.14853, the simplified tax is 13.2, and 13.2 is withheld |

## Left out

- `calculateIRRF` (utils/taxRules.ts:59-135) and its inner `calculateTax` are not modelled. The function is an unused placeholder that always returns 0, and the aggregator does not call it.
- `formatCurrency` and `formatPercentage` are not modelled. They only call the host's locale-aware number formatter.
- Double-precision rounding is not modelled. All money is exact `real`, so results are the exact decimals a double only approximates.
- The React form, the charts, the summary cards and the call to the remote text-generation service are not part of this model. Neither is the form's input clamping: the salary and other discounts accept every real number, while `dependents` is restricted to whole non-negative counts, which is what the form's `parseInt` and `Math.max(0, _)` guarantee (App.tsx:25, App.tsx:94).
- The optional `deduction` field of the generic bracket type (types.ts:18-22) is modelled as always present. Every income-tax bracket in the table sets it, so `bracket.deduction || 0` never falls back to 0.
