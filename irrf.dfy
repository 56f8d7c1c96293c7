/** Income-tax withholding (IRRF): a "rate times base minus subtrahend"
    lookup in the bracket table, applied to two alternative bases, the lower
    tax winning. */
module Irrf {
  import opened Types
  import opened Tables

  /** A bracket applies to `base` when it is unbounded or `base` is within its limit. */
  predicate Covers(bracket: IrrfBracket, base: real)
  {
    bracket.limit.None? || base <= bracket.limit.value
  }

  /** The index of the first bracket that covers `base`, or `None` when none does. */
  function SelectBracket(brackets: seq<IrrfBracket>, base: real): (r: Option<nat>)
    ensures r.Some? ==> r.value < |brackets| && Covers(brackets[r.value], base)
    ensures r.Some? ==> forall j :: 0 <= j < r.value ==> !Covers(brackets[j], base)
    ensures r.None? ==> forall j :: 0 <= j < |brackets| ==> !Covers(brackets[j], base)
    decreases |brackets|
  {
    if brackets == [] then None
    else if Covers(brackets[0], base) then Some(0)
    else match SelectBracket(brackets[1..], base)
      case Some(k) => Some(k + 1)
      case None => None
  }

  /** `tax` is the formula of some bracket that covers `base` while no earlier one does. */
  ghost predicate FirstCoveringTax(brackets: seq<IrrfBracket>, base: real, tax: real)
  {
    exists k :: 0 <= k < |brackets| && Covers(brackets[k], base)
      && (forall j :: 0 <= j < k ==> !Covers(brackets[j], base))
      && tax == base * brackets[k].rate - brackets[k].deduction
  }

  /** `getTax`: nothing at or below the exempt limit, otherwise the formula of
      the first covering bracket, and 0 if no bracket covered the base. */
  function GetTax(base: real): real
  {
    if base <= IRRF_EXEMPT_LIMIT then 0.0
    else match SelectBracket(IRRF_BRACKETS, base)
      case Some(k) => base * IRRF_BRACKETS[k].rate - IRRF_BRACKETS[k].deduction
      case None => 0.0
  }

  /** Base of the itemized method: gross minus contribution minus dependents. */
  function ItemizedBase(grossSalary: real, inss: real, dependents: nat): (r: real)
    ensures r <= grossSalary - inss
    ensures r == grossSalary - inss <==> dependents == 0
  {
    grossSalary - inss - (dependents as real) * DEPENDENT_DEDUCTION
  }

  /** Base of the simplified method: gross minus the flat discount. */
  function SimplifiedBase(grossSalary: real): (r: real)
    ensures r <= IRRF_EXEMPT_LIMIT <==> grossSalary <= 2824.00
  {
    grossSalary - IRRF_SIMPLIFIED_DISCOUNT
  }

  /** The withholding: the smaller of the two methods' taxes, each clamped at zero. */
  function Withholding(grossSalary: real, inss: real, dependents: nat): (irrf: real)
    ensures 0.0 <= irrf
    ensures irrf <= Max(0.0, GetTax(ItemizedBase(grossSalary, inss, dependents)))
    ensures irrf <= Max(0.0, GetTax(SimplifiedBase(grossSalary)))
    ensures irrf == Max(0.0, GetTax(ItemizedBase(grossSalary, inss, dependents)))
         || irrf == Max(0.0, GetTax(SimplifiedBase(grossSalary)))
  {
    var taxLegal := GetTax(ItemizedBase(grossSalary, inss, dependents));
    var taxSimplified := GetTax(SimplifiedBase(grossSalary));
    Min(Max(0.0, taxLegal), Max(0.0, taxSimplified))
  }

  /** Clamping each tax and then taking the minimum is the same as clamping the minimum. */
  lemma WithholdingIsClampedMinimum(grossSalary: real, inss: real, dependents: nat)
    ensures Withholding(grossSalary, inss, dependents)
         == Max(0.0, Min(GetTax(ItemizedBase(grossSalary, inss, dependents)), GetTax(SimplifiedBase(grossSalary))))
  {
  }

  /** The search never falls through: the last bracket is unbounded, and the
      literal exempt limit is the first bracket's limit. */
  lemma SelectBracketNeverFallsThrough(base: real)
    ensures SelectBracket(IRRF_BRACKETS, base).Some?
    ensures IRRF_BRACKETS[0].limit == Some(IRRF_EXEMPT_LIMIT)
  {
    assert Covers(IRRF_BRACKETS[4], base);
  }

  /** `getTax` is exempt at or below the exempt limit and otherwise applies the
      formula of the first bracket that covers the base. */
  lemma GetTaxFirstMatch(base: real)
    ensures base <= IRRF_EXEMPT_LIMIT ==> GetTax(base) == 0.0
    ensures base > IRRF_EXEMPT_LIMIT ==> FirstCoveringTax(IRRF_BRACKETS, base, GetTax(base))
  {
    SelectBracketNeverFallsThrough(base);
  }

  /** The tax bracket by bracket, a base on a limit belonging to the lower bracket. */
  lemma GetTaxPiecewise(base: real)
    ensures base <= 2259.20 ==> GetTax(base) == 0.0
    ensures 2259.20 < base <= 2826.65 ==> GetTax(base) == 0.075 * base - 169.44
    ensures 2826.65 < base <= 3751.05 ==> GetTax(base) == 0.15 * base - 381.44
    ensures 3751.05 < base <= 4664.68 ==> GetTax(base) == 0.225 * base - 662.77
    ensures 4664.68 < base ==> GetTax(base) == 0.275 * base - 896.00
  {
    if base > IRRF_EXEMPT_LIMIT {
      var k := SelectBracket(IRRF_BRACKETS, base);
      SelectBracketNeverFallsThrough(base);
      var t := IRRF_BRACKETS;
      assert !Covers(t[0], base);
      if base <= 2826.65 {
        assert Covers(t[1], base);
        assert k.value == 1;
      } else if base <= 3751.05 {
        assert !Covers(t[1], base) && Covers(t[2], base);
        assert k.value == 2;
      } else if base <= 4664.68 {
        assert !Covers(t[1], base) && !Covers(t[2], base) && Covers(t[3], base);
        assert k.value == 3;
      } else {
        assert !Covers(t[1], base) && !Covers(t[2], base) && !Covers(t[3], base);
        assert k.value == 4;
      }
    }
  }

  /** No base is taxed a negative amount, so the clamps at zero never bite. */
  lemma GetTaxNonNegative(base: real)
    ensures GetTax(base) >= 0.0
  {
    GetTaxPiecewise(base);
  }

  /** The tax is not monotone in the base: just above 2826.65 and 3751.05 the
      subtrahends leave it slightly lower than at the limit itself. */
  lemma GetTaxNotMonotone()
    ensures GetTax(2826.651) < GetTax(2826.65)
    ensures GetTax(3751.051) < GetTax(3751.05)
  {
    GetTaxPiecewise(2826.651);
    GetTaxPiecewise(2826.65);
    GetTaxPiecewise(3751.051);
    GetTaxPiecewise(3751.05);
  }

  /** Lowering a base by one dependent's deduction never raises its tax. */
  lemma GetTaxDependentStep(base: real)
    ensures GetTax(base - DEPENDENT_DEDUCTION) <= GetTax(base)
  {
    GetTaxPiecewise(base);
    GetTaxPiecewise(base - DEPENDENT_DEDUCTION);
  }

  /** Up to two minimum wages (2824.00) the simplified base is exempt, so nothing is withheld. */
  lemma WithholdingExemptUpTo2824(grossSalary: real, inss: real, dependents: nat)
    requires grossSalary <= 2824.00
    ensures Withholding(grossSalary, inss, dependents) == 0.0
  {
    GetTaxPiecewise(SimplifiedBase(grossSalary));
  }

  /** More dependents never raise the withholding. */
  lemma {:induction false} WithholdingDependentsNeverRaise(grossSalary: real, inss: real, d1: nat, d2: nat)
    requires d1 <= d2
    ensures Withholding(grossSalary, inss, d2) <= Withholding(grossSalary, inss, d1)
    decreases d2 - d1
  {
    if d1 < d2 {
      WithholdingDependentsNeverRaise(grossSalary, inss, d1 + 1, d2);
      var b := ItemizedBase(grossSalary, inss, d1);
      assert ItemizedBase(grossSalary, inss, d1 + 1) == b - DEPENDENT_DEDUCTION;
      GetTaxDependentStep(b);
    }
  }

  /** The withholding never exceeds the top marginal rate of 27.5% of gross. */
  lemma WithholdingAtMostTopRate(grossSalary: real, inss: real, dependents: nat)
    requires grossSalary >= 0.0
    ensures Withholding(grossSalary, inss, dependents) <= 0.275 * grossSalary
  {
    GetTaxPiecewise(SimplifiedBase(grossSalary));
  }
}
