/** Records shared by the payroll computation: the calculator's input and
    result, and the two kinds of bracket found in its constant tables. */
module Types {

  /** `null` in the source becomes `None`. */
  datatype Option<T> = None | Some(value: T)

  /** One calculation's input. The form parses the dependent count as an
      integer and clamps every field at zero, so `dependents` is a `nat`. */
  datatype SalaryInput = SalaryInput(grossSalary: real, dependents: nat, otherDiscounts: real)

  /** The breakdown returned by one calculation. */
  datatype CalculationResult = CalculationResult(
    grossSalary: real,
    inss: real,
    irrf: real,
    otherDiscounts: real,
    netSalary: real,
    totalDiscounts: real,
    inssAliquotEffective: real,
    irrfAliquotEffective: real)

  /** A band of the social-security (INSS) table: it reaches from the previous
      band's limit up to `limit` and contributes `rate` on that slice. */
  datatype InssBracket = InssBracket(limit: real, rate: real)

  /** A bracket of the income-tax (IRRF) table: tax is `base * rate - deduction`
      for a base up to `limit`; `None` means "and above". */
  datatype IrrfBracket = IrrfBracket(limit: Option<real>, rate: real, deduction: real)

  /** `Math.min` and `Math.max` on two numbers. */
  function Min(a: real, b: real): (r: real)
    ensures r <= a && r <= b && (r == a || r == b)
  {
    if a <= b then a else b
  }

  function Max(a: real, b: real): (r: real)
    ensures a <= r && b <= r && (r == a || r == b)
  {
    if a <= b then b else a
  }
}
