/** The constant tables of the 2024 social-security contribution and the
    2024/2025 income-tax withholding, and the two income-tax deductions. */
module Tables {
  import opened Types

  /** Deduction from the itemized income-tax base per dependent. */
  const DEPENDENT_DEDUCTION: real := 189.59

  /** Flat deduction of the simplified income-tax method. */
  const IRRF_SIMPLIFIED_DISCOUNT: real := 564.80

  /** Bases at or below this amount owe no income tax. */
  const IRRF_EXEMPT_LIMIT: real := 2259.20

  /** INSS progressive table 2024, ascending by limit. */
  const INSS_BRACKETS: seq<InssBracket> := [
    InssBracket(1412.00, 0.075),
    InssBracket(2666.68, 0.09),
    InssBracket(4000.03, 0.12),
    InssBracket(7786.02, 0.14)
  ]

  /** IRRF table 2024/2025, ascending by limit; the last bracket is unbounded. */
  const IRRF_BRACKETS: seq<IrrfBracket> := [
    IrrfBracket(Some(2259.20), 0.0, 0.0),
    IrrfBracket(Some(2826.65), 0.075, 169.44),
    IrrfBracket(Some(3751.05), 0.15, 381.44),
    IrrfBracket(Some(4664.68), 0.225, 662.77),
    IrrfBracket(None, 0.275, 896.00)
  ]
}
