/** What the assessment page derives once every uploaded file has been read:
    the applicant's details, three months of salary slips, the existing
    obligations and their EMI total, the gross monthly income estimate, the
    eligibility figures, the document checklist, the probable queries and the
    closing recommendation. */
module Assessment {
  import opened Wrappers
  import opened Text
  import opened Amounts
  import opened Patterns
  import opened Identity
  import opened Income
  import opened Statements
  import Eligibility
  import opened Batch

  // ------------------------------------------------------------ Applicant

  /** The `applicant` dict; a key the page could not fill holds "". */
  datatype Applicant = Applicant(
    name: string, fatherOrHusbandName: string, dob: string, pan: string, aadhaar: string,
    mobile: string, email: string, address: string, employer: string, designation: string, doj: string)

  function OrEmpty(o: Option<string>): string
  {
    match o
    case Some(v) => v
    case None => ""
  }

  /** Where the line that starts at `p` ends. */
  function LineEnd(s: string, p: nat): (e: nat)
    requires p <= |s|
    ensures p <= e <= |s|
    ensures forall k :: p <= k < e ==> s[k] != '\n'
    ensures e < |s| ==> s[e] == '\n'
  {
    SpanWhile(s, p, c => c != '\n')
  }

  /** The last position at or after `a` that does not hold a line break. */
  function LastNonBreak(s: string, a: nat): (q: Option<nat>)
    requires a <= |s|
    ensures q.Some? ==> a <= q.value < |s| && s[q.value] != '\n'
                        && forall k :: q.value < k < |s| ==> s[k] == '\n'
    ensures q.None? ==> forall k :: a <= k < |s| ==> s[k] == '\n'
    decreases |s| - a
  {
    if a == |s| then None
    else
      match LastNonBreak(s, a + 1)
      case Some(q) => Some(q)
      case None => if s[a] != '\n' then Some(a) else None
  }

  /** `Employer\s*[:\-]?\s*(.+)` ignoring case, at `i`: the captured rest of
      the line. When the separator runs to the end of the text, the engine
      gives white space back and the capture starts at the last character
      after the label that is not a line break. */
  function EmployerAt(s: string, i: nat): (r: Option<string>)
    ensures r.Some? ==> HasAtCi(s, i, "employer") && r.value != []
    ensures r.Some? ==> forall c :: c in r.value ==> c != '\n'
  {
    if !HasAtCi(s, i, "employer") then None
    else
      var p := LabelSep(s, i + 8);
      if p < |s| then Some(s[p..LineEnd(s, p)])
      else
        match LastNonBreak(s, i + 8)
        case Some(q) => Some(s[q..LineEnd(s, q)])
        case None => None
  }

  /** The capture is the rest of the line from the end of the separator, or,
      when the separator runs to the end of the text, from the last character
      after the label that is not a line break. */
  lemma EmployerAtCaptures(s: string, i: nat)
    requires EmployerAt(s, i).Some?
    ensures HasAtCi(s, i, "employer")
    ensures var p := LabelSep(s, i + 8);
            p < |s| ==> s[p] != '\n' && EmployerAt(s, i).value == s[p..LineEnd(s, p)]
    ensures LabelSep(s, i + 8) == |s| ==>
              exists q :: && i + 8 <= q < |s| && s[q] != '\n' && (forall k :: q < k < |s| ==> s[k] == '\n')
                          && EmployerAt(s, i).value == s[q..LineEnd(s, q)]
  {
    var p := LabelSep(s, i + 8);
    if p < |s| {
      assert !IsSpace(s[p]);
    } else {
      var q := LastNonBreak(s, i + 8).value;
      assert EmployerAt(s, i).value == s[q..LineEnd(s, q)];
    }
  }

  /** There is no capture at `i` exactly when the label is not there or only
      line breaks follow it. */
  lemma EmployerAtNone(s: string, i: nat)
    ensures EmployerAt(s, i).None? <==> !HasAtCi(s, i, "employer") || forall k :: i + 8 <= k < |s| ==> s[k] == '\n'
  {
    if HasAtCi(s, i, "employer") {
      var p := LabelSep(s, i + 8);
      if p < |s| {
        assert !IsSpace(s[p]) && i + 8 <= p;
      }
    }
  }

  /** The employer an employment proof names: the first capture, stripped. */
  function Employer(text: string): (r: Option<string>)
    ensures r.Some? <==> exists i :: 0 <= i <= |text| && EmployerAt(text, i).Some?
    ensures r.Some? ==> '\n' !in r.value
    ensures r.Some? && r.value != [] ==> !IsSpace(r.value[0]) && !IsSpace(r.value[|r.value| - 1])
    ensures r.Some? ==> exists i :: 0 <= i <= |text| && EmployerAt(text, i).Some?
                          && (forall j :: 0 <= j < i ==> EmployerAt(text, j).None?)
                          && r.value == Strip(EmployerAt(text, i).value)
  {
    match Search(text, EmployerAt)
    case Some(line) => Some(Strip(line))
    case None => None
  }

  /** Python's truth value of the PAN card slot. */
  predicate HasPan(docs: ParsedDocs) { docs.pan.Some? && !docs.pan.value.IsEmpty() }

  predicate HasAadhaar(docs: ParsedDocs) { docs.aadhaar.Some? && !docs.aadhaar.value.IsEmpty() }

  predicate HasForm16(docs: ParsedDocs)
  {
    docs.form16.Some? && (docs.form16.value.totalSalary.Some? || docs.form16.value.taxableIncome.Some?)
  }

  /** `any(parsed_docs["SALARY_SLIPS"])`: some slip yielded a component. */
  predicate HasSalarySlip(docs: ParsedDocs)
  {
    exists k :: 0 <= k < |docs.salarySlips| && |docs.salarySlips[k]| > 0
  }

  predicate HasEmployment(docs: ParsedDocs) { docs.employment.Some? && docs.employment.value != "" }

  predicate HasProperty(docs: ParsedDocs) { docs.property.Some? && docs.property.value != "" }

  /** The applicant record: name, PAN and date of birth from a PAN card that
      yielded anything, Aadhaar number and address from an Aadhaar card that
      yielded anything, the employer from a non-empty employment proof, and ""
      for every key left unfilled. */
  function BuildApplicant(docs: ParsedDocs): (a: Applicant)
    ensures a.fatherOrHusbandName == "" && a.mobile == "" && a.email == ""
    ensures a.designation == "" && a.doj == ""
    ensures '\n' !in a.employer
    ensures a.employer != "" ==> HasEmployment(docs)
  {
    var pan := if HasPan(docs) then docs.pan.value else PanFields(None, None, None);
    var aadhaar := if HasAadhaar(docs) then docs.aadhaar.value else AadhaarFields(None, None);
    var employer := if HasEmployment(docs) then OrEmpty(Employer(docs.employment.value)) else "";
    Applicant(OrEmpty(pan.name), "", OrEmpty(pan.dob), OrEmpty(pan.pan), OrEmpty(aadhaar.aadhaar),
              "", "", OrEmpty(aadhaar.address), employer, "", "")
  }

  /** The applicant's details come from the last PAN card, the last Aadhaar
      card and the last employment proof uploaded, whatever those yielded, and
      keep the shapes their extractors guarantee. */
  lemma ApplicantFromFiles(files: seq<Document>)
    requires Fold(files).Ok?
    ensures var a := BuildApplicant(Fold(files).value);
      && a.pan == (match LastWhere(files, ToPan) case None => "" case Some(k) => OrEmpty(FirstPan(files[k].text)))
      && a.name == (match LastWhere(files, ToPan) case None => "" case Some(k) => OrEmpty(FirstName(files[k].text)))
      && a.dob == (match LastWhere(files, ToPan) case None => "" case Some(k) => OrEmpty(FirstDate(files[k].text)))
      && a.aadhaar == (match LastWhere(files, ToAadhaar) case None => "" case Some(k) => OrEmpty(FirstAadhaar(files[k].text)))
      && a.address == (match LastWhere(files, ToAadhaar) case None => "" case Some(k) => OrEmpty(FirstAddress(files[k].text)))
      && a.employer == (match LastWhere(files, ToEmployment) case None => "" case Some(k) => OrEmpty(Employer(files[k].text)))
    ensures var a := BuildApplicant(Fold(files).value);
      && (a.pan == "" || PanShape(a.pan))
      && (a.dob == "" || DateShape(a.dob))
      && ' ' !in a.aadhaar
      && '\n' !in a.address
  {
    LastPanWins(files);
    LastAadhaarWins(files);
    LastEmploymentWins(files);
  }

  // ------------------------------------------------------------ Salary slips

  /** `salary_3m`: the first three slips, padded with empty dicts. */
  method FirstThreeSlips(slips: seq<map<Component, nat>>) returns (s3: seq<map<Component, nat>>)
    ensures |s3| == 3
    ensures forall k :: 0 <= k < 3 ==> s3[k] == if k < |slips| then slips[k] else map[]
  {
    s3 := if |slips| <= 3 then slips else slips[..3];
    while |s3| < 3
      invariant |s3| <= 3
      invariant |slips| <= |s3| || |s3| == 3
      invariant forall k :: 0 <= k < |s3| ==> s3[k] == if k < |slips| then slips[k] else map[]
      decreases 3 - |s3|
    {
      s3 := s3 + [map[]];
    }
  }

  // ------------------------------------------------------------ Obligations

  /** Every statement's obligations, one statement after another. */
  function AllObligations(bank: seq<Statement>): seq<Obligation>
    decreases |bank|
  {
    if bank == [] then []
    else AllObligations(bank[..|bank| - 1]) + bank[|bank| - 1].obligations
  }

  /** No statement's obligations are lost. */
  lemma {:induction false} ObligationsKept(bank: seq<Statement>, k: nat)
    requires k < |bank|
    ensures multiset(bank[k].obligations) <= multiset(AllObligations(bank))
    decreases |bank|
  {
    var init := bank[..|bank| - 1];
    if k < |bank| - 1 {
      ObligationsKept(init, k);
      assert init[k] == bank[k];
    }
  }

  /** What an obligation adds to the EMI total: its amount when it has one. */
  function Contribution(o: Obligation): nat
  {
    match o.amount
    case Some(v) => v
    case None => 0
  }

  /** `total_existing_emi`: the sum of the obligations' amounts; an amount
      that is missing or zero adds nothing. */
  function EmiTotal(obligations: seq<Obligation>): nat
    decreases |obligations|
  {
    if obligations == [] then 0
    else EmiTotal(obligations[..|obligations| - 1]) + Contribution(obligations[|obligations| - 1])
  }

  /** The total over two runs of obligations is the sum of their totals. */
  lemma {:induction false} EmiTotalConcat(a: seq<Obligation>, b: seq<Obligation>)
    ensures EmiTotal(a + b) == EmiTotal(a) + EmiTotal(b)
    decreases |b|
  {
    if b != [] {
      var b' := b[..|b| - 1];
      var ab := a + b;
      assert ab[..|ab| - 1] == a + b';
      assert ab[|ab| - 1] == b[|b| - 1];
      EmiTotalConcat(a, b');
      assert EmiTotal(ab) == EmiTotal(a + b') + Contribution(b[|b| - 1]);
      assert EmiTotal(b) == EmiTotal(b') + Contribution(b[|b| - 1]);
    } else {
      assert a + b == a;
    }
  }

  /** Every obligation's amount is part of the total. */
  lemma {:induction false} EmiTotalCovers(obligations: seq<Obligation>, k: nat)
    requires k < |obligations|
    ensures Contribution(obligations[k]) <= EmiTotal(obligations)
    decreases |obligations|
  {
    if k < |obligations| - 1 {
      EmiTotalCovers(obligations[..|obligations| - 1], k);
    }
  }

  /** A positive total comes from some obligation with a positive amount. */
  lemma {:induction false} PositiveObligation(obligations: seq<Obligation>) returns (k: nat)
    requires EmiTotal(obligations) > 0
    ensures k < |obligations| && Contribution(obligations[k]) > 0
    decreases |obligations|
  {
    var init := obligations[..|obligations| - 1];
    if Contribution(obligations[|obligations| - 1]) > 0 {
      k := |obligations| - 1;
    } else {
      k := PositiveObligation(init);
      assert obligations[k] == init[k];
    }
  }

  /** Existing EMIs are detected exactly when some obligation has a non-zero
      amount. */
  lemma EmiDetected(obligations: seq<Obligation>)
    ensures EmiTotal(obligations) > 0 <==> exists k :: 0 <= k < |obligations| && Contribution(obligations[k]) > 0
  {
    if EmiTotal(obligations) > 0 {
      var k := PositiveObligation(obligations);
    } else {
      forall k | 0 <= k < |obligations| ensures Contribution(obligations[k]) == 0 {
        EmiTotalCovers(obligations, k);
      }
    }
  }

  // ------------------------------------------------------------ Banking summary

  /** The `banking_summary` dict: a sample of salary credits and an average
      balance, each `None` while absent. */
  datatype BankingSummary = BankingSummary(salaryCreditsSample: Option<seq<nat>>, averageBalance: Option<nat>)

  /** `credits[:3]`. */
  function Take3(credits: seq<nat>): (r: seq<nat>)
    ensures |r| == if |credits| < 3 then |credits| else 3
    ensures r == credits[..|r|]
  {
    if |credits| <= 3 then credits else credits[..3]
  }

  /** The first statement with salary credits, which `setdefault` keeps. */
  function FirstCredited(bank: seq<Statement>): (k: Option<nat>)
    ensures k.Some? ==> k.value < |bank| && bank[k.value].salaryCredits != []
                        && forall j :: 0 <= j < k.value ==> bank[j].salaryCredits == []
    ensures k.None? ==> forall j :: 0 <= j < |bank| ==> bank[j].salaryCredits == []
    decreases |bank|
  {
    if bank == [] then None
    else
      match FirstCredited(bank[..|bank| - 1])
      case Some(k) => Some(k)
      case None => if bank[|bank| - 1].salaryCredits != [] then Some(|bank| - 1) else None
  }

  /** Python's truth value of `b.get('avg_balance')`. */
  predicate HasBalance(b: Statement) { b.avgBalance.Some? && b.avgBalance.value != 0 }

  /** The last statement with a non-zero average balance, which each
      assignment overwrites. */
  function LastBalanced(bank: seq<Statement>): (k: Option<nat>)
    ensures k.Some? ==> k.value < |bank| && HasBalance(bank[k.value])
                        && forall j :: k.value < j < |bank| ==> !HasBalance(bank[j])
    ensures k.None? ==> forall j :: 0 <= j < |bank| ==> !HasBalance(bank[j])
    decreases |bank|
  {
    if bank == [] then None
    else if HasBalance(bank[|bank| - 1]) then Some(|bank| - 1)
    else LastBalanced(bank[..|bank| - 1])
  }

  /** The banking summary of a run of statements. */
  function SummaryOf(bank: seq<Statement>): (s: BankingSummary)
    ensures s.salaryCreditsSample.Some? ==> 1 <= |s.salaryCreditsSample.value| <= 3
    ensures s.salaryCreditsSample.None? <==> forall j :: 0 <= j < |bank| ==> bank[j].salaryCredits == []
    ensures s.averageBalance.None? <==> forall j :: 0 <= j < |bank| ==> !HasBalance(bank[j])
    ensures s.averageBalance.Some? ==> s.averageBalance.value > 0
  {
    var sample := match FirstCredited(bank)
      case Some(k) => Some(Take3(bank[k].salaryCredits))
      case None => None;
    var balance := match LastBalanced(bank)
      case Some(k) => bank[k].avgBalance
      case None => None;
    BankingSummary(sample, balance)
  }

  /** One more statement: its obligations are appended, its credits are
      sampled if none were yet, and its balance replaces the one kept if it is
      non-zero. */
  lemma SummaryStep(bank: seq<Statement>, i: nat)
    requires i < |bank|
    ensures AllObligations(bank[..i + 1]) == AllObligations(bank[..i]) + bank[i].obligations
    ensures SummaryOf(bank[..i + 1]).salaryCreditsSample ==
              if SummaryOf(bank[..i]).salaryCreditsSample.None? && bank[i].salaryCredits != []
              then Some(Take3(bank[i].salaryCredits)) else SummaryOf(bank[..i]).salaryCreditsSample
    ensures SummaryOf(bank[..i + 1]).averageBalance ==
              if HasBalance(bank[i]) then bank[i].avgBalance else SummaryOf(bank[..i]).averageBalance
  {
    assert bank[..i + 1][..i] == bank[..i];
  }

  /** The two loops over the statements and their obligations. */
  method AggregateBanking(bank: seq<Statement>) returns (obligations: seq<Obligation>, totalEmi: nat, summary: BankingSummary)
    ensures obligations == AllObligations(bank)
    ensures totalEmi == EmiTotal(obligations)
    ensures summary == SummaryOf(bank)
  {
    obligations := [];
    summary := BankingSummary(None, None);
    for i := 0 to |bank|
      invariant obligations == AllObligations(bank[..i])
      invariant summary == SummaryOf(bank[..i])
    {
      SummaryStep(bank, i);
      obligations := obligations + bank[i].obligations;
      if bank[i].salaryCredits != [] && summary.salaryCreditsSample.None? {
        summary := summary.(salaryCreditsSample := Some(Take3(bank[i].salaryCredits)));
      }
      if HasBalance(bank[i]) {
        summary := summary.(averageBalance := bank[i].avgBalance);
      }
    }
    assert bank[..|bank|] == bank;
    totalEmi := 0;
    for i := 0 to |obligations|
      invariant totalEmi == EmiTotal(obligations[..i])
    {
      assert obligations[..i + 1][..i] == obligations[..i];
      match obligations[i].amount
      case Some(v) =>
        if v > 0 {
          totalEmi := totalEmi + v;
        }
      case None =>
    }
    assert obligations[..|obligations|] == obligations;
  }

  // ------------------------------------------------------------ Gross monthly income

  /** `Total\s+Income\s*[:\-]?\s*Rs\.?\s*([0-9,]+)` ignoring case, at `i`. */
  function TotalIncomeAt(s: string, i: nat): (r: Option<string>)
    ensures r.Some? ==> SpacedLabelEnd(s, i, "total", "income").Some? && r.value != [] && AllAmountChars(r.value)
  {
    LabelledAmount(s, SpacedLabelEnd(s, i, "total", "income"))
  }

  /** The total income is the run after `Total`, white space, `Income`, the
      separators, `Rs`, an optional dot and white space. */
  lemma TotalIncomeAtCaptures(s: string, i: nat)
    requires TotalIncomeAt(s, i).Some?
    ensures var j := LabelSep(s, SpacedLabelEnd(s, i, "total", "income").value);
            RsAt(s, j, true) && CapturesAmount(s, j + 2, TotalIncomeAt(s, i).value)
  {
    LabelledAmountCaptures(s, SpacedLabelEnd(s, i, "total", "income"));
  }

  /** The Form-16's total salary, when the slot holds a non-zero one. */
  function Form16Salary(form16: Option<Form16Fields>): Option<nat>
  {
    match form16
    case Some(f) => if f.totalSalary.Some? && f.totalSalary.value > 0 then f.totalSalary else None
    case None => None
  }

  /** The first slip's net pay, when it is there and non-zero. */
  function SlipNetPay(slip: map<Component, nat>): Option<nat>
  {
    if NetPay in slip && slip[NetPay] > 0 then Some(slip[NetPay]) else None
  }

  /** `gross_monthly`: a twelfth of the Form-16 total salary, else the first
      slip's net pay, else a twelfth of the first "Total Income" figure in the
      combined text; converting a figure without digits raises. */
  function GrossMonthly(form16: Option<Form16Fields>, firstSlip: map<Component, nat>, combined: string)
    : (r: Result<Option<nat>>)
    ensures Form16Salary(form16).Some? ==>
              r.Ok? && r.value.Some? && r.value.value * 12 <= Form16Salary(form16).value < (r.value.value + 1) * 12
    ensures Form16Salary(form16).None? && SlipNetPay(firstSlip).Some? ==> r == Ok(SlipNetPay(firstSlip))
    ensures r.Err? <==> Form16Salary(form16).None? && SlipNetPay(firstSlip).None?
                        && Search(combined, TotalIncomeAt).Some? && !HasDigit(Search(combined, TotalIncomeAt).value)
    ensures r == Ok(None) <==> Form16Salary(form16).None? && SlipNetPay(firstSlip).None?
                               && forall i :: 0 <= i <= |combined| ==> TotalIncomeAt(combined, i).None?
    ensures Form16Salary(form16).None? && SlipNetPay(firstSlip).None? && r.Ok? && r.value.Some? ==>
              var annual := Amount(Search(combined, TotalIncomeAt).value).value;
              r.value.value * 12 <= annual < (r.value.value + 1) * 12
  {
    match Form16Salary(form16)
    case Some(total) => Ok(Some(total / 12))
    case None =>
      match SlipNetPay(firstSlip)
      case Some(net) => Ok(Some(net))
      case None =>
        match Search(combined, TotalIncomeAt)
        case None => Ok(None)
        case Some(run) =>
          match Amount(run)
          case Err(e) => Err(e)
          case Ok(annual) => Ok(Some(annual / 12))
  }

  /** An earlier source of the estimate makes the later ones irrelevant. */
  lemma GrossMonthlyPrecedence(f1: Option<Form16Fields>, f2: Option<Form16Fields>,
                               s1: map<Component, nat>, s2: map<Component, nat>, c1: string, c2: string)
    ensures Form16Salary(f1).Some? && Form16Salary(f1) == Form16Salary(f2) ==>
              GrossMonthly(f1, s1, c1) == GrossMonthly(f2, s2, c2)
    ensures Form16Salary(f1).None? && Form16Salary(f2).None? && SlipNetPay(s1).Some?
            && SlipNetPay(s1) == SlipNetPay(s2) ==>
              GrossMonthly(f1, s1, c1) == GrossMonthly(f2, s2, c2)
  {
  }

  // ------------------------------------------------------------ Eligibility

  /** The bank's fixed policy: 60% FOIR, 8.5% a year over 20 years. */
  const FoirPct: nat := 60
  const RatePct: real := 8.5
  const TenureYears: nat := 20

  /** The `eligibility` dict; a key the empty result of the calculation left
      unset holds `None`. */
  datatype EligibilitySummary = EligibilitySummary(
    grossMonthlyEstimate: Option<nat>, foirPct: Option<nat>, totalExistingEmi: nat,
    maxAllowedEmi: Option<nat>, availableForNewEmi: Option<int>, approxMaxLoan: Option<nat>)

  function Summarise(gross: Option<nat>, totalEmi: nat): (e: EligibilitySummary)
    ensures e.grossMonthlyEstimate == gross && e.totalExistingEmi == totalEmi
    ensures e.approxMaxLoan.None? <==> gross.None? || gross.value == 0
    ensures e.approxMaxLoan.Some? ==>
              && gross.Some? && e.maxAllowedEmi.Some? && e.availableForNewEmi.Some?
              && e.foirPct == Some(FoirPct)
              && e.maxAllowedEmi.value * 100 <= gross.value * FoirPct < (e.maxAllowedEmi.value + 1) * 100
              && e.availableForNewEmi == Some(e.maxAllowedEmi.value - totalEmi)
    ensures e.approxMaxLoan.Some? && e.approxMaxLoan.value > 0 ==>
              e.availableForNewEmi.Some? &&
              var rate, months := Eligibility.MonthlyRate(RatePct), TenureYears * 12;
              Eligibility.LoanEmi(e.approxMaxLoan.value, rate, months) <= e.availableForNewEmi.value as real
              < Eligibility.LoanEmi(e.approxMaxLoan.value + 1, rate, months)
    ensures e.approxMaxLoan.None? ==>
              e.foirPct.None? && e.maxAllowedEmi.None? && e.availableForNewEmi.None?
    ensures gross.Some? && gross.value > 0 ==>
              var x := Eligibility.ComputeFoirAndEligibility(gross, totalEmi, FoirPct, RatePct, TenureYears).value;
              && e.foirPct == Some(x.foirPct) && e.maxAllowedEmi == Some(x.maxAllowedEmi)
              && e.availableForNewEmi == Some(x.availableForNewEmi) && e.approxMaxLoan == Some(x.approxMaxLoan)
  {
    match Eligibility.ComputeFoirAndEligibility(gross, totalEmi, FoirPct, RatePct, TenureYears)
    case Some(x) =>
      EligibilitySummary(gross, Some(x.foirPct), totalEmi, Some(x.maxAllowedEmi), Some(x.availableForNewEmi), Some(x.approxMaxLoan))
    case None => EligibilitySummary(gross, None, totalEmi, None, None, None)
  }

  // ------------------------------------------------------------ Document status

  datatype Status = Received | Pending

  function Mark(present: bool): Status
  {
    if present then Received else Pending
  }

  /** The rows of `doc_status`. */
  datatype Item = PanItem | AadhaarItem | Form16Item | SlipsItem | BankItem | CibilItem | EmploymentItem | PropertyItem

  /** The key each row has in `doc_status`. */
  function Label(item: Item): string
  {
    match item
    case PanItem => "PAN"
    case AadhaarItem => "Aadhaar"
    case Form16Item => "Form-16"
    case SlipsItem => "Salary Slips (3 months)"
    case BankItem => "Bank Statement"
    case CibilItem => "CIBIL"
    case EmploymentItem => "Employment Proof"
    case PropertyItem => "Property Documents"
  }

  const AllItems: set<Item> :=
    {PanItem, AadhaarItem, Form16Item, SlipsItem, BankItem, CibilItem, EmploymentItem, PropertyItem}

  /** `doc_status`: every row, "Received" when its slot is truthy. */
  function StatusOf(docs: ParsedDocs): (m: map<Item, Status>)
    ensures m.Keys == AllItems
  {
    map[][PanItem := Mark(HasPan(docs))]
         [AadhaarItem := Mark(HasAadhaar(docs))]
         [Form16Item := Mark(HasForm16(docs))]
         [SlipsItem := Mark(HasSalarySlip(docs))]
         [BankItem := Mark(docs.bank != [])]
         [CibilItem := Mark(docs.cibil.Some?)]
         [EmploymentItem := Mark(HasEmployment(docs))]
         [PropertyItem := Mark(HasProperty(docs))]
  }

  /** The checklist, filled one row after another. */
  method DocumentStatus(docs: ParsedDocs) returns (status: map<Item, Status>)
    ensures status == StatusOf(docs)
  {
    status := map[];
    status := status[PanItem := Mark(HasPan(docs))];
    status := status[AadhaarItem := Mark(HasAadhaar(docs))];
    status := status[Form16Item := Mark(HasForm16(docs))];
    status := status[SlipsItem := Mark(HasSalarySlip(docs))];
    status := status[BankItem := Mark(docs.bank != [])];
    status := status[CibilItem := Mark(docs.cibil.Some?)];
    status := status[EmploymentItem := Mark(HasEmployment(docs))];
    status := status[PropertyItem := Mark(HasProperty(docs))];
  }

  /** `Filter` is empty exactly when no file satisfies the predicate. */
  lemma {:induction false} FilterEmpty(files: seq<Document>, p: Document -> bool)
    ensures Filter(files, p) == [] <==> LastWhere(files, p).None?
    decreases |files|
  {
    if files != [] {
      FilterEmpty(files[..|files| - 1], p);
    }
  }

  /** The rows the lemmas below read, one by one. */
  lemma StatusRows(docs: ParsedDocs)
    ensures var m := StatusOf(docs);
      && (m[PanItem] == Received <==> HasPan(docs))
      && (m[AadhaarItem] == Received <==> HasAadhaar(docs))
      && (m[Form16Item] == Received <==> HasForm16(docs))
      && (m[SlipsItem] == Received <==> HasSalarySlip(docs))
      && (m[BankItem] == Received <==> docs.bank != [])
      && (m[CibilItem] == Received <==> docs.cibil.Some?)
      && (m[EmploymentItem] == Received <==> HasEmployment(docs))
      && (m[PropertyItem] == Received <==> HasProperty(docs))
  {
  }

  /** A card is received when the last one uploaded yielded some field. */
  lemma CardStatus(files: seq<Document>)
    requires Fold(files).Ok?
    ensures var m := StatusOf(Fold(files).value);
      && (m[PanItem] == Received <==>
            (match LastWhere(files, ToPan) case None => false case Some(k) => !ParsePan(files[k].text).IsEmpty()))
      && (m[AadhaarItem] == Received <==>
            (match LastWhere(files, ToAadhaar) case None => false case Some(k) => !ParseAadhaar(files[k].text).IsEmpty()))
  {
    StatusRows(Fold(files).value);
    LastPanWins(files);
    LastAadhaarWins(files);
  }

  /** A bank statement is received when any file was routed to it, whatever
      the extractor made of it. */
  lemma BankStatus(files: seq<Document>)
    requires Fold(files).Ok?
    ensures StatusOf(Fold(files).value)[BankItem] == Received <==> LastWhere(files, ToBank).Some?
  {
    StatusRows(Fold(files).value);
    EveryRoutedFileKept(files);
    FilterEmpty(files, ToBank);
  }

  /** A CIBIL report is received when any file was routed to it. */
  lemma CibilStatus(files: seq<Document>)
    requires Fold(files).Ok?
    ensures StatusOf(Fold(files).value)[CibilItem] == Received <==> LastWhere(files, ToCibil).Some?
  {
    StatusRows(Fold(files).value);
    LastCibilWins(files);
  }

  /** An employment proof or property document is received when the last one
      routed has any text. */
  lemma TextStatus(files: seq<Document>)
    requires Fold(files).Ok?
    ensures var m := StatusOf(Fold(files).value);
      && (m[EmploymentItem] == Received <==>
            (match LastWhere(files, ToEmployment) case None => false case Some(k) => files[k].text != ""))
      && (m[PropertyItem] == Received <==>
            (match LastWhere(files, ToProperty) case None => false case Some(k) => files[k].text != ""))
  {
    StatusRows(Fold(files).value);
    LastEmploymentWins(files);
    LastPropertyWins(files);
  }

  // ------------------------------------------------------------ Probable queries

  const PanQuery: string := "PAN copy missing \U{2014} request PAN card."
  const AadhaarQuery: string := "Aadhaar missing \U{2014} request Aadhaar."
  const SalaryProofQuery: string := "Salary proof not available" + " \U{2014} request Form-16 or 3 months salary slips."
  const LoanStatementsQuery: string := "Provide loan statements for existing EMIs detected."
  const BankStatementsQuery: string := "Provide last 3 months bank statements" + " with salary credits highlighted."
  const EmployerLetterQuery: string := "Provide employer letter / offer letter for verification if requested."

  /** The requests are told apart by their lengths, except two of them that are
      as long as each other and differ in their first letter. (The constants
      are split in two so that the prover sees the letters of a short literal.) */
  lemma RequestsDiffer()
    ensures |PanQuery| == 36 && |AadhaarQuery| == 34 && |LoanStatementsQuery| == 51
    ensures |SalaryProofQuery| == 70 && |BankStatementsQuery| == 70 && |EmployerLetterQuery| == 69
    ensures SalaryProofQuery != BankStatementsQuery
  {
    assert SalaryProofQuery[0] == 'S' && BankStatementsQuery[0] == 'P';
  }

  /** A request is in the list exactly when its part holds it, since the
      requests are different texts. */
  lemma QueryParts(pan: seq<string>, aadhaar: seq<string>, salary: seq<string>, loan: seq<string>)
    requires pan == [] || pan == [PanQuery]
    requires aadhaar == [] || aadhaar == [AadhaarQuery]
    requires salary == [] || salary == [SalaryProofQuery]
    requires loan == [] || loan == [LoanStatementsQuery]
    ensures var q := pan + aadhaar + salary + loan + [BankStatementsQuery, EmployerLetterQuery];
            && (PanQuery in q <==> pan != [])
            && (AadhaarQuery in q <==> aadhaar != [])
            && (SalaryProofQuery in q <==> salary != [])
            && (LoanStatementsQuery in q <==> loan != [])
  {
    RequestsDiffer();
    var q := pan + aadhaar + salary + loan + [BankStatementsQuery, EmployerLetterQuery];
    forall x | x in q ensures x in pan || x in aadhaar || x in salary || x in loan
                              || x == BankStatementsQuery || x == EmployerLetterQuery {
      var k :| 0 <= k < |q| && q[k] == x;
    }
  }

  /** `probable_queries`: one request per missing proof and for detected
      EMIs, in that order, then the two requests every report carries. */
  function Queries(docs: ParsedDocs, totalEmi: nat): (q: seq<string>)
    ensures PanQuery in q <==> !HasPan(docs)
    ensures AadhaarQuery in q <==> !HasAadhaar(docs)
    ensures SalaryProofQuery in q <==> !HasForm16(docs) && docs.salarySlips == []
    ensures LoanStatementsQuery in q <==> totalEmi > 0
    ensures 2 <= |q| <= 6 && q[|q| - 2..] == [BankStatementsQuery, EmployerLetterQuery]
    ensures |q| == 2 + (if HasPan(docs) then 0 else 1) + (if HasAadhaar(docs) then 0 else 1)
                     + (if !HasForm16(docs) && docs.salarySlips == [] then 1 else 0) + (if totalEmi > 0 then 1 else 0)
  {
    var pan := if HasPan(docs) then [] else [PanQuery];
    var aadhaar := if HasAadhaar(docs) then [] else [AadhaarQuery];
    var salary := if !HasForm16(docs) && docs.salarySlips == [] then [SalaryProofQuery] else [];
    var loan := if totalEmi > 0 then [LoanStatementsQuery] else [];
    QueryParts(pan, aadhaar, salary, loan);
    pan + aadhaar + salary + loan + [BankStatementsQuery, EmployerLetterQuery]
  }

  /** The list, appended to one request after another. */
  method ProbableQueries(docs: ParsedDocs, totalEmi: nat) returns (queries: seq<string>)
    ensures queries == Queries(docs, totalEmi)
  {
    var pan, aadhaar, salary := [], [], [];
    queries := [];
    if !HasPan(docs) {
      pan := [PanQuery];
      queries := queries + pan;
    }
    if !HasAadhaar(docs) {
      aadhaar := [AadhaarQuery];
      queries := queries + aadhaar;
    }
    if !HasForm16(docs) && docs.salarySlips == [] {
      salary := [SalaryProofQuery];
      queries := queries + salary;
    }
    var loan := if totalEmi > 0 then [LoanStatementsQuery] else [];
    queries := queries + loan;
    assert queries == pan + aadhaar + salary + loan;
    queries := queries + [BankStatementsQuery];
    queries := queries + [EmployerLetterQuery];
    assert queries == pan + aadhaar + salary + loan + [BankStatementsQuery, EmployerLetterQuery];
  }

  // ------------------------------------------------------------ Recommendation

  const EligiblePrefix: string := "Applicant appears eligible for an approximate loan of Rs. "
  const EligibleSuffix: string := ". Recommend further verification of KYC and bank statements."
  const InsufficientData: string := "Insufficient data to compute loan eligibility. Request additional documents."

  /** `final_recommendation`: the approximate loan with thousands separators
      when it is positive, else a request for more documents. */
  function Recommendation(approxMaxLoan: Option<nat>): (r: string)
    ensures r == InsufficientData <==> approxMaxLoan.None? || approxMaxLoan.value == 0
    ensures r != InsufficientData ==>
              |r| > |EligiblePrefix| + |EligibleSuffix|
              && r[..|EligiblePrefix|] == EligiblePrefix && r[|r| - |EligibleSuffix|..] == EligibleSuffix
  {
    match approxMaxLoan
    case Some(n) =>
      if n > 0 then
        var figure := GroupThousands(n);
        GroupedAmountRoundTrip(n);
        var r := EligiblePrefix + figure + EligibleSuffix;
        assert r[..|EligiblePrefix|] == EligiblePrefix;
        assert r[|r| - |EligibleSuffix|..] == EligibleSuffix;
        r
      else InsufficientData
    case None => InsufficientData
  }

  /** The figure an eligible recommendation quotes reads back as the loan. */
  lemma RecommendationQuotesLoan(n: nat)
    requires n > 0
    ensures exists figure :: Recommendation(Some(n)) == EligiblePrefix + figure + EligibleSuffix
                             && Amount(figure) == Ok(n)
  {
    GroupedAmountRoundTrip(n);
    assert Recommendation(Some(n)) == EligiblePrefix + GroupThousands(n) + EligibleSuffix;
  }

  // ------------------------------------------------------------ The whole report

  /** Everything the page reports about the applicant. */
  datatype Report = Report(
    applicant: Applicant, salary3m: seq<map<Component, nat>>, obligations: seq<Obligation>,
    banking: BankingSummary, eligibility: EligibilitySummary, status: map<Item, Status>,
    queries: seq<string>, recommendation: string)

  /** The salary slips padded to three months. */
  function Padded(slips: seq<map<Component, nat>>): seq<map<Component, nat>>
  {
    seq(3, k requires 0 <= k < 3 => if k < |slips| then slips[k] else map[])
  }

  /** The report a batch of files yields, or the error that aborts it. */
  function ReportOf(files: seq<Document>): (r: Result<Report>)
    ensures r.Ok? ==> |r.value.salary3m| == 3 && r.value.status.Keys == AllItems
    ensures r.Ok? ==> (r.value.recommendation == InsufficientData <==>
                        r.value.eligibility.approxMaxLoan.None? || r.value.eligibility.approxMaxLoan.value == 0)
  {
    match Fold(files)
    case Err(e) => Err(e)
    case Ok(docs) =>
      var s3 := Padded(docs.salarySlips);
      var obligations := AllObligations(docs.bank);
      var totalEmi := EmiTotal(obligations);
      match GrossMonthly(docs.form16, s3[0], CombinedText(files))
      case Err(e) => Err(e)
      case Ok(gross) =>
        var eligibility := Summarise(gross, totalEmi);
        Ok(Report(BuildApplicant(docs), s3, obligations, SummaryOf(docs.bank), eligibility,
                  StatusOf(docs), Queries(docs, totalEmi), Recommendation(eligibility.approxMaxLoan)))
  }

  /** The batch is abandoned exactly when some file makes a routed extractor
      raise or, failing the Form-16 and the first slip, the combined text's
      "Total Income" figure has no digits. */
  lemma ReportRaises(files: seq<Document>)
    ensures ReportOf(files).Err? <==>
              || (exists k :: 0 <= k < |files| && RaisesOnDoc(files[k]))
              || (Fold(files).Ok?
                  && Form16Salary(Fold(files).value.form16).None?
                  && SlipNetPay(Padded(Fold(files).value.salarySlips)[0]).None?
                  && Search(CombinedText(files), TotalIncomeAt).Some?
                  && !HasDigit(Search(CombinedText(files), TotalIncomeAt).value))
  {
    FoldRaises(files);
  }

  /** The assessment page from the uploaded files to the report. */
  method Assess(files: seq<Document>) returns (r: Result<Report>)
    ensures r == ReportOf(files)
  {
    var folded, combined := FoldDocuments(files);
    if folded.Err? {
      return Err(folded.error);
    }
    var docs := folded.value;
    var applicant := BuildApplicant(docs);
    var s3 := FirstThreeSlips(docs.salarySlips);
    assert s3 == Padded(docs.salarySlips);
    var obligations, totalEmi, banking := AggregateBanking(docs.bank);
    var gross := GrossMonthly(docs.form16, s3[0], combined);
    if gross.Err? {
      return Err(gross.error);
    }
    var eligibility := Summarise(gross.value, totalEmi);
    var status := DocumentStatus(docs);
    var queries := ProbableQueries(docs, totalEmi);
    r := Ok(Report(applicant, s3, obligations, banking, eligibility, status, queries,
                   Recommendation(eligibility.approxMaxLoan)));
  }
}
