/** `calculateSalary`: the contribution, the withholding and the totals of one payslip. */
module Salary {
  import opened Types
  import opened Tables
  import opened Inss
  import opened Irrf

  /** The effective rate of `amount` on `grossSalary`, zero on a zero salary. */
  function EffectiveRate(amount: real, grossSalary: real): (r: real)
    ensures grossSalary > 0.0 ==> r * grossSalary == amount
    ensures grossSalary <= 0.0 ==> r == 0.0
  {
    if grossSalary > 0.0 then amount / grossSalary else 0.0
  }

  method CalculateSalary(input: SalaryInput) returns (result: CalculationResult)
    ensures result.grossSalary == input.grossSalary
    ensures result.otherDiscounts == input.otherDiscounts
    ensures result.inss == Contribution(input.grossSalary)
    ensures result.irrf == Withholding(input.grossSalary, result.inss, input.dependents)
    ensures result.totalDiscounts == result.inss + result.irrf + result.otherDiscounts
    ensures result.netSalary == result.grossSalary - result.totalDiscounts
    ensures result.inssAliquotEffective == EffectiveRate(result.inss, result.grossSalary)
    ensures result.irrfAliquotEffective == EffectiveRate(result.irrf, result.grossSalary)
    ensures 0.0 <= result.inss <= INSS_CEILING_TAX && 0.0 <= result.irrf
    ensures input.grossSalary <= 2824.00 ==> result.irrf == 0.0
    ensures input.grossSalary == 0.0 ==>
      result.inss == 0.0 && result.irrf == 0.0 && result.inssAliquotEffective == 0.0
      && result.irrfAliquotEffective == 0.0 && result.netSalary == -input.otherDiscounts
    ensures input.grossSalary > 0.0 ==>
      0.0 <= result.inssAliquotEffective <= 0.14 && 0.0 <= result.irrfAliquotEffective <= 0.275
  {
    var grossSalary, dependents, otherDiscounts := input.grossSalary, input.dependents, input.otherDiscounts;

    var inss := CalculateInss(grossSalary);

    var irrf := Withholding(grossSalary, inss, dependents);

    var totalDiscounts := inss + irrf + otherDiscounts;
    var netSalary := grossSalary - totalDiscounts;

    InssBounds(grossSalary);
    if grossSalary > 0.0 {
      WithholdingAtMostTopRate(grossSalary, inss, dependents);
      RateBound(irrf, grossSalary, 0.275);
    }
    if grossSalary <= 2824.00 {
      WithholdingExemptUpTo2824(grossSalary, inss, dependents);
    }

    result := CalculationResult(
      grossSalary,
      inss,
      irrf,
      otherDiscounts,
      netSalary,
      totalDiscounts,
      EffectiveRate(inss, grossSalary),
      EffectiveRate(irrf, grossSalary));
  }

  /** The bounds the aggregator promises on the contribution and its effective rate. */
  lemma InssBounds(grossSalary: real)
    ensures 0.0 <= Contribution(grossSalary) <= INSS_CEILING_TAX
    ensures grossSalary == 0.0 ==> Contribution(grossSalary) == 0.0
    ensures grossSalary > 0.0 ==> 0.0 <= EffectiveRate(Contribution(grossSalary), grossSalary) <= 0.14
  {
    ContributionNonNegative(grossSalary);
    ContributionCapped(grossSalary);
    if grossSalary > 0.0 {
      ContributionAtMostTopRate(grossSalary);
      RateBound(Contribution(grossSalary), grossSalary, 0.14);
    }
  }

  lemma RateBound(amount: real, grossSalary: real, top: real)
    requires grossSalary > 0.0 && 0.0 <= amount <= top * grossSalary
    ensures 0.0 <= EffectiveRate(amount, grossSalary) <= top
  {
    assert amount / grossSalary * grossSalary == amount;
  }

  /** The default form values (gross 3000.00, no dependents): the contribution
      runs through three bands and the simplified method wins. */
  lemma DefaultScenario()
    ensures Contribution(3000.00) == 258.8196
    ensures GetTax(ItemizedBase(3000.00, 258.8196, 0)) == 36.14853
    ensures GetTax(SimplifiedBase(3000.00)) == 13.2
    ensures Withholding(3000.00, 258.8196, 0) == 13.2
  {
    ContributionPiecewise(3000.00);
    GetTaxPiecewise(ItemizedBase(3000.00, 258.8196, 0));
    GetTaxPiecewise(SimplifiedBase(3000.00));
  }
}
