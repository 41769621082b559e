/** `compute_foir_and_eligibility`: the FOIR (fixed obligations to income ratio)
    cap on the monthly instalment, what is left of it after existing EMIs, and
    the principal an instalment of that size repays over the tenure. */
module Eligibility {
  import opened Wrappers

  /** The dict the calculator returns when it has an income to work from. */
  datatype Eligibility = Eligibility(foirPct: nat, maxAllowedEmi: nat, availableForNewEmi: int, approxMaxLoan: nat)

  function Pow(x: real, n: nat): real
  {
    if n == 0 then 1.0 else x * Pow(x, n - 1)
  }

  lemma {:induction false} PowAboveOne(x: real, n: nat)
    requires x > 1.0 && n >= 1
    ensures Pow(x, n) > 1.0
  {
    if n > 1 {
      PowAboveOne(x, n - 1);
      assert x * Pow(x, n - 1) > 1.0 * Pow(x, n - 1);
    }
  }

  lemma MulPositive(x: real, y: real)
    requires x > 0.0 && y > 0.0
    ensures x * y > 0.0
  {
  }

  lemma DivPositive(x: real, y: real)
    requires x > 0.0 && y > 0.0
    ensures x / y > 0.0
  {
    var z := x / y;
    assert z * y == x;
  }

  /** The monthly rate of an annual percentage rate. */
  function MonthlyRate(ratePct: real): real
  {
    ratePct / 100.0 / 12.0
  }

  /** `emi_per_lakh`: the monthly instalment that repays one lakh (100000) over
      `months` months at monthly rate `r`, by the annuity formula. */
  function EmiPerLakh(r: real, months: nat): (f: real)
    requires r > 0.0 && months >= 1
    ensures f > 0.0
  {
    PowAboveOne(1.0 + r, months);
    var g := Pow(1.0 + r, months);
    assert r * g > 0.0 by {
      assert r * g > r * 1.0;
    }
    DivPositive(100000.0 * r * g, g - 1.0);
    100000.0 * r * g / (g - 1.0)
  }

  /** The monthly instalment of a loan of `principal` rupees. */
  function LoanEmi(principal: int, r: real, months: nat): real
    requires r > 0.0 && months >= 1
  {
    principal as real * EmiPerLakh(r, months) / 100000.0
  }

  /** `int(x)` for a float `x >= 0`, and the loan formula's guarded division. */
  function ApproxLoan(available: int, r: real, months: nat): (loan: nat)
    requires months >= 1
    ensures available <= 0 || r <= 0.0 ==> loan == 0
    ensures available > 0 && r > 0.0 ==> LoanEmi(loan, r, months) <= available as real < LoanEmi(loan + 1, r, months)
  {
    if r <= 0.0 then 0
    else
      var f := EmiPerLakh(r, months);
      var q := (if available > 0 then available else 0) as real * 100000.0 / f;
      assert q >= 0.0;
      var loan := q.Floor;
      if available > 0 then
        FloorBounds(q, available as real, f, loan as real, (loan + 1) as real);
        loan
      else
        assert q == 0.0;
        loan
  }

  lemma MulMonotone(x: real, y: real, f: real)
    requires x <= y && f > 0.0
    ensures x * f <= y * f
  {
    assert y * f - x * f == (y - x) * f;
  }

  lemma MulStrict(x: real, y: real, f: real)
    requires x < y && f > 0.0
    ensures x * f < y * f
  {
    MulPositive(y - x, f);
    assert y * f - x * f == (y - x) * f;
  }

  lemma QuotientTimes(x: real, y: real)
    requires y > 0.0
    ensures x / y * y == x
  {
  }

  /** Multiplying by a positive number keeps the order of the bounds. */
  lemma MulBounds(lo: real, x: real, hi: real, f: real)
    requires lo <= x < hi && f > 0.0
    ensures lo * f <= x * f < hi * f
  {
    MulMonotone(lo, x, f);
    MulStrict(x, hi, f);
  }

  /** When `q = a * 100000 / f` lies in `[n, m)`, the instalments of `n` and of
      `m` rupees at `f` per lakh bracket `a`. */
  lemma FloorBounds(q: real, a: real, f: real, n: real, m: real)
    requires f > 0.0 && q == a * 100000.0 / f && n <= q < m
    ensures n * f / 100000.0 <= a < m * f / 100000.0
  {
    MulBounds(n, q, m, f);
    QuotientTimes(a * 100000.0, f);
    assert q * f == a * 100000.0;
  }

  /** `compute_foir_and_eligibility(gross_monthly, total_existing_emi, foir_pct,
      rate_pct, tenure_years)`; `None` is the empty dict. */
  function ComputeFoirAndEligibility(gross: Option<nat>, existingEmi: nat, foirPct: nat, ratePct: real, tenureYears: nat)
    : (r: Option<Eligibility>)
    requires tenureYears >= 1
    ensures r.None? <==> gross.None? || gross.value == 0
    ensures r.Some? ==> r.value.foirPct == foirPct
    ensures r.Some? ==> r.value.maxAllowedEmi * 100 <= gross.value * foirPct < (r.value.maxAllowedEmi + 1) * 100
    ensures r.Some? ==> r.value.availableForNewEmi == r.value.maxAllowedEmi - existingEmi
    ensures r.Some? && (r.value.availableForNewEmi <= 0 || ratePct <= 0.0) ==> r.value.approxMaxLoan == 0
    ensures r.Some? && r.value.availableForNewEmi > 0 && ratePct > 0.0 ==>
              var rate, months := MonthlyRate(ratePct), tenureYears * 12;
              LoanEmi(r.value.approxMaxLoan, rate, months) <= r.value.availableForNewEmi as real
              < LoanEmi(r.value.approxMaxLoan + 1, rate, months)
  {
    match gross
    case None => None
    case Some(g) =>
      if g == 0 then None
      else
        var maxAllowed := g * foirPct / 100;
        var available := maxAllowed - existingEmi;
        Some(Eligibility(foirPct, maxAllowed, available, ApproxLoan(available, MonthlyRate(ratePct), tenureYears * 12)))
  }

  /** An instalment is cheaper for a smaller principal. */
  lemma LoanEmiMonotone(a: int, b: int, r: real, months: nat)
    requires r > 0.0 && months >= 1 && a <= b
    ensures LoanEmi(a, r, months) <= LoanEmi(b, r, months)
  {
    var f := EmiPerLakh(r, months);
    assert a as real * f <= b as real * f;
  }

  /** More existing EMIs never raise the approximate loan. */
  lemma MoreEmiSmallerLoan(gross: nat, e1: nat, e2: nat, foirPct: nat, ratePct: real, tenureYears: nat)
    requires tenureYears >= 1 && gross > 0 && e1 <= e2
    ensures ComputeFoirAndEligibility(Some(gross), e2, foirPct, ratePct, tenureYears).value.approxMaxLoan
         <= ComputeFoirAndEligibility(Some(gross), e1, foirPct, ratePct, tenureYears).value.approxMaxLoan
  {
    var x1 := ComputeFoirAndEligibility(Some(gross), e1, foirPct, ratePct, tenureYears).value;
    var x2 := ComputeFoirAndEligibility(Some(gross), e2, foirPct, ratePct, tenureYears).value;
    if x2.approxMaxLoan > 0 {
      var rate, months := MonthlyRate(ratePct), tenureYears * 12;
      assert x2.availableForNewEmi > 0 && ratePct > 0.0;
      if x1.approxMaxLoan < x2.approxMaxLoan {
        LoanEmiMonotone(x1.approxMaxLoan + 1, x2.approxMaxLoan, rate, months);
        assert false;
      }
    }
  }
}
