/** The progressive social-security (INSS) contribution: every band of the
    table charges its own rate on the slice of salary that falls inside it,
    and the contribution stops growing at the last band's limit. */
module Inss {
  import opened Types
  import opened Tables

  /** The part of `gross` that lies between `lower` and `upper`. */
  function Slice(gross: real, lower: real, upper: real): real
  {
    Min(Max(gross - lower, 0.0), upper - lower)
  }

  /** A band table whose limits ascend from `lower` and whose rates are non-negative. */
  ghost predicate Ascending(bands: seq<InssBracket>, lower: real)
    decreases |bands|
  {
    bands == [] ||
    (lower <= bands[0].limit && 0.0 <= bands[0].rate && Ascending(bands[1..], bands[0].limit))
  }

  /** The limit of the last band (the ceiling), or `lower` for an empty table. */
  function Top(bands: seq<InssBracket>, lower: real): real
    decreases |bands|
  {
    if bands == [] then lower else Top(bands[1..], bands[0].limit)
  }

  /** Reference definition: the sum over all bands of rate times the clamped
      slice of `gross` inside the band, the first band starting at `lower`. */
  function MarginalTax(bands: seq<InssBracket>, lower: real, gross: real): real
    decreases |bands|
  {
    if bands == [] then 0.0
    else bands[0].rate * Slice(gross, lower, bands[0].limit)
         + MarginalTax(bands[1..], bands[0].limit, gross)
  }

  /** The contribution of a salary that fills every band completely. */
  function FullTax(bands: seq<InssBracket>, lower: real): real
    decreases |bands|
  {
    if bands == [] then 0.0
    else (bands[0].limit - lower) * bands[0].rate + FullTax(bands[1..], bands[0].limit)
  }

  /** The contribution the 2024 table asks of `gross`. */
  function Contribution(gross: real): real
  {
    MarginalTax(INSS_BRACKETS, 0.0, gross)
  }

  /** The contribution of a salary at the ceiling. */
  const INSS_CEILING_TAX: real := 908.8618

  lemma InssTable()
    ensures Ascending(INSS_BRACKETS, 0.0)
    ensures Top(INSS_BRACKETS, 0.0) == 7786.02
    ensures FullTax(INSS_BRACKETS, 0.0) == INSS_CEILING_TAX
  {
    var t := INSS_BRACKETS;
    assert t[1..][1..][1..][1..] == [];
    assert Ascending(t[1..][1..][1..], 4000.03);
    assert Ascending(t[1..][1..], 2666.68);
    assert Ascending(t[1..], 1412.00);
    assert FullTax(t[1..][1..][1..], 4000.03) == 530.0386;
    assert FullTax(t[1..][1..], 2666.68) == 160.002 + 530.0386;
    assert FullTax(t[1..], 1412.00) == 112.9212 + 160.002 + 530.0386;
  }

  lemma {:induction false} MarginalTaxNonNegative(bands: seq<InssBracket>, lower: real, gross: real)
    requires Ascending(bands, lower)
    ensures MarginalTax(bands, lower, gross) >= 0.0
    decreases |bands|
  {
    if bands != [] {
      MarginalTaxNonNegative(bands[1..], bands[0].limit, gross);
      assert Slice(gross, lower, bands[0].limit) >= 0.0;
    }
  }

  /** A salary at or below the start of a table owes nothing to it. */
  lemma {:induction false} MarginalTaxZeroBelow(bands: seq<InssBracket>, lower: real, gross: real)
    requires Ascending(bands, lower)
    requires gross <= lower
    ensures MarginalTax(bands, lower, gross) == 0.0
    decreases |bands|
  {
    if bands != [] {
      MarginalTaxZeroBelow(bands[1..], bands[0].limit, gross);
    }
  }

  lemma ScaleMonotone(rate: real, a: real, b: real)
    requires 0.0 <= rate && a <= b
    ensures rate * a <= rate * b
  {
    assert rate * b - rate * a == rate * (b - a);
    assert rate * (b - a) >= 0.0;
  }

  lemma {:induction false} MarginalTaxMonotone(bands: seq<InssBracket>, lower: real, g1: real, g2: real)
    requires Ascending(bands, lower)
    requires g1 <= g2
    ensures MarginalTax(bands, lower, g1) <= MarginalTax(bands, lower, g2)
    decreases |bands|
  {
    if bands != [] {
      MarginalTaxMonotone(bands[1..], bands[0].limit, g1, g2);
      var s1, s2 := Slice(g1, lower, bands[0].limit), Slice(g2, lower, bands[0].limit);
      assert s1 <= s2;
      ScaleMonotone(bands[0].rate, s1, s2);
      assert MarginalTax(bands, lower, g1) == bands[0].rate * s1 + MarginalTax(bands[1..], bands[0].limit, g1);
      assert MarginalTax(bands, lower, g2) == bands[0].rate * s2 + MarginalTax(bands[1..], bands[0].limit, g2);
    }
  }

  lemma {:induction false} LowerAtMostTop(bands: seq<InssBracket>, lower: real)
    requires Ascending(bands, lower)
    ensures lower <= Top(bands, lower)
    decreases |bands|
  {
    if bands != [] {
      LowerAtMostTop(bands[1..], bands[0].limit);
    }
  }

  /** At or above the ceiling every band is full. */
  lemma {:induction false} MarginalTaxSaturates(bands: seq<InssBracket>, lower: real, gross: real)
    requires Ascending(bands, lower)
    requires gross >= Top(bands, lower)
    ensures MarginalTax(bands, lower, gross) == FullTax(bands, lower)
    decreases |bands|
  {
    if bands != [] {
      LowerAtMostTop(bands[1..], bands[0].limit);
      MarginalTaxSaturates(bands[1..], bands[0].limit, gross);
    }
  }

  /** For a salary of at most zero nothing is due, and nothing is ever negative. */
  lemma ContributionNonNegative(gross: real)
    ensures Contribution(gross) >= 0.0
    ensures gross <= 0.0 ==> Contribution(gross) == 0.0
  {
    InssTable();
    MarginalTaxNonNegative(INSS_BRACKETS, 0.0, gross);
    if gross <= 0.0 {
      MarginalTaxZeroBelow(INSS_BRACKETS, 0.0, gross);
    }
  }

  /** The contribution band by band, a salary on a limit belonging to the lower band. */
  lemma ContributionPiecewise(gross: real)
    ensures gross <= 0.0 ==> Contribution(gross) == 0.0
    ensures 0.0 < gross <= 1412.00 ==> Contribution(gross) == 0.075 * gross
    ensures 1412.00 < gross <= 2666.68 ==> Contribution(gross) == 105.9 + 0.09 * (gross - 1412.00)
    ensures 2666.68 < gross <= 4000.03 ==> Contribution(gross) == 218.8212 + 0.12 * (gross - 2666.68)
    ensures 4000.03 < gross <= 7786.02 ==> Contribution(gross) == 378.8232 + 0.14 * (gross - 4000.03)
    ensures 7786.02 < gross ==> Contribution(gross) == INSS_CEILING_TAX
  {
    var t := INSS_BRACKETS;
    assert t[1..][1..][1..][1..] == [];
    var s0 := Slice(gross, 0.0, 1412.00);
    var s1 := Slice(gross, 1412.00, 2666.68);
    var s2 := Slice(gross, 2666.68, 4000.03);
    var s3 := Slice(gross, 4000.03, 7786.02);
    assert MarginalTax(t[1..][1..][1..], 4000.03, gross) == 0.14 * s3;
    assert MarginalTax(t[1..][1..], 2666.68, gross) == 0.12 * s2 + 0.14 * s3;
    assert MarginalTax(t[1..], 1412.00, gross) == 0.09 * s1 + 0.12 * s2 + 0.14 * s3;
    assert Contribution(gross) == 0.075 * s0 + 0.09 * s1 + 0.12 * s2 + 0.14 * s3;
  }

  /** Above the ceiling the contribution is the constant of the full table, and
      no salary owes more than that constant. */
  lemma ContributionCapped(gross: real)
    ensures Contribution(gross) <= INSS_CEILING_TAX
    ensures gross > 7786.02 ==> Contribution(gross) == INSS_CEILING_TAX
  {
    ContributionPiecewise(gross);
  }

  /** The band loop alone, at the ceiling, already yields the ceiling constant,
      so the cap introduces no jump. */
  lemma ContributionNoJumpAtCeiling()
    ensures Contribution(7786.02) == FullTax(INSS_BRACKETS, 0.0)
    ensures forall gross :: gross > 7786.02 ==> Contribution(gross) == Contribution(7786.02)
  {
    InssTable();
    MarginalTaxSaturates(INSS_BRACKETS, 0.0, 7786.02);
    forall gross | gross > 7786.02
      ensures Contribution(gross) == Contribution(7786.02)
    {
      MarginalTaxSaturates(INSS_BRACKETS, 0.0, gross);
    }
  }

  /** A higher salary never owes a smaller contribution. */
  lemma ContributionMonotone(g1: real, g2: real)
    requires g1 <= g2
    ensures Contribution(g1) <= Contribution(g2)
  {
    InssTable();
    MarginalTaxMonotone(INSS_BRACKETS, 0.0, g1, g2);
  }

  /** The effective rate never exceeds the top marginal rate of 14%. */
  lemma ContributionAtMostTopRate(gross: real)
    requires gross >= 0.0
    ensures Contribution(gross) <= 0.14 * gross
  {
    ContributionPiecewise(gross);
  }

  /** One step of the band loop: for a salary above the band's start, the
      slice it taxes is the smaller of what is left and the band's width. */
  lemma MarginalTaxStep(bands: seq<InssBracket>, lower: real, gross: real, remaining: real)
    requires bands != [] && lower < gross && lower <= bands[0].limit && remaining == gross - lower
    ensures MarginalTax(bands, lower, gross)
         == Min(remaining, bands[0].limit - lower) * bands[0].rate + MarginalTax(bands[1..], bands[0].limit, gross)
  {
  }

  /** `calculateINSS`: the band loop with its two early exits, followed by the
      recomputation of the ceiling amount for salaries above the last limit. */
  method CalculateInss(grossSalary: real) returns (inss: real)
    ensures inss == Contribution(grossSalary)
  {
    InssTable();
    inss := 0.0;
    var remainingSalary := grossSalary;
    var previousLimit := 0.0;
    var i := 0;
    while i < |INSS_BRACKETS|
      invariant 0 <= i <= |INSS_BRACKETS|
      invariant previousLimit == if i == 0 then 0.0 else INSS_BRACKETS[i - 1].limit
      invariant Ascending(INSS_BRACKETS[i..], previousLimit)
      invariant remainingSalary == grossSalary - previousLimit
      invariant 0 < i ==> previousLimit < grossSalary
      invariant inss + MarginalTax(INSS_BRACKETS[i..], previousLimit, grossSalary) == Contribution(grossSalary)
    {
      var bracket := INSS_BRACKETS[i];
      if grossSalary <= previousLimit {
        MarginalTaxZeroBelow(INSS_BRACKETS[i..], previousLimit, grossSalary);
        break;
      }
      var range := bracket.limit - previousLimit;
      var taxableAmount := Min(remainingSalary, range);
      assert INSS_BRACKETS[i..][1..] == INSS_BRACKETS[i + 1..];
      MarginalTaxStep(INSS_BRACKETS[i..], previousLimit, grossSalary, remainingSalary);
      inss := inss + taxableAmount * bracket.rate;
      remainingSalary := remainingSalary - taxableAmount;
      previousLimit := bracket.limit;
      if grossSalary <= bracket.limit {
        MarginalTaxZeroBelow(INSS_BRACKETS[i + 1..], previousLimit, grossSalary);
        break;
      }
      i := i + 1;
    }

    var ceilingLimit := INSS_BRACKETS[|INSS_BRACKETS| - 1].limit;
    if grossSalary > ceilingLimit {
      var ceilingTax := 0.0;
      var prev := 0.0;
      var j := 0;
      while j < |INSS_BRACKETS|
        invariant 0 <= j <= |INSS_BRACKETS|
        invariant prev == if j == 0 then 0.0 else INSS_BRACKETS[j - 1].limit
        invariant ceilingTax + FullTax(INSS_BRACKETS[j..], prev) == FullTax(INSS_BRACKETS, 0.0)
      {
        var b := INSS_BRACKETS[j];
        assert INSS_BRACKETS[j..][1..] == INSS_BRACKETS[j + 1..];
        var r := b.limit - prev;
        ceilingTax := ceilingTax + r * b.rate;
        prev := b.limit;
        j := j + 1;
      }
      MarginalTaxSaturates(INSS_BRACKETS, 0.0, grossSalary);
      inss := ceilingTax;
      return;
    }
  }
}
